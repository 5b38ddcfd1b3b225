/** The pending-interest accounts of AdaptorModel, and when a table pointer goes stale. */
module AdaptorAccounts {
  import opened NameTable
  import opened AdaptorModel
  import opened AdaptorProofs

  // ---- What the readers hold ----

  /** udp_data_out in its send loop serves the name in its buffer, which is in the table until it is done. */
  predicate ServeOk(s: State, h: Hold) {
    h.Serving? ==> h.key in s.table && h.key == DataKey(s.mem, h.b) && h.i <= |s.table[h.key]| && h.cap <= s.cap
  }

  /** Only the reader of data from the real network has a send loop, and it has no other send. */
  predicate HoldOk(s: State)
    requires Shaped(s)
  {
    && ServeOk(s, s.hold[RealToSimData]) && !s.hold[RealToSimData].Loaded? && !s.hold[RealToSimData].Sent?
    && !s.hold[RealToSimInterest].Serving? && !s.hold[SimToRealInterest].Serving? && !s.hold[SimToRealData].Serving?
  }

  /** Storing a record does not touch the buffer that is being served. */
  lemma StoredServe(s: State, spare: Malloc, r: Record)
    requires Shaped(s) && OneOwner(s) && HoldOk(s) && spare.b !in s.mem
    ensures HoldOk(Stored(s, spare, r))
  {
    Elsewhere(s, spare, RealToSimData);
  }

  lemma InterestHold(s: State, d: Datagram, a: SockAddr, spare: Malloc)
    requires Shaped(s) && OneOwner(s) && HoldOk(s) && WellFormed(d) && spare.b !in s.mem
    ensures HoldOk(InterestIn(s, d, a, spare))
  {
    StoredServe(s, spare, Copied(Was(s, spare), d));
  }

  lemma TakeHold(s: State, c: Chan)
    requires Shaped(s) && HoldOk(s) && s.hold[c] == Nothing && s.queue[c] != []
    ensures HoldOk(TakeStep(s, c))
  {
  }

  lemma StepHold(s: State, e: Event)
    requires Shaped(s) && OneOwner(s) && HoldOk(s)
    ensures HoldOk(Step(s, e))
  {
    if !s.fault && Allowed(s, e) {
      match e
      case NipIn(c, m, nack, spare) => StoredServe(s, spare, Pack(Was(s, spare), Kept(c, m, nack)));
      case UdpDataIn(d, spare) => StoredServe(s, spare, Copied(Was(s, spare), d));
      case UdpInterestIn(d, a, spare) => InterestHold(s, d, a, spare);
      case Take(c) => if s.hold[c] == Nothing && s.queue[c] != [] { TakeHold(s, c); }
      case Send(c) =>
      case Return(c) =>
      case Serve =>
    }
  }

  lemma StepTableOk(s: State, e: Event)
    requires Shaped(s) && TableOk(s.table)
    ensures TableOk(Step(s, e).table)
  {
    if !s.fault && Allowed(s, e) && e.UdpInterestIn? { SetKeepsOk(s.table, KeyOf(Meaning(e.d).name), e.a); }
  }

  // ---- Every accepted interest is pending or answered ----

  /** An address is listed at or after place from. */
  predicate Has(addrs: seq<SockAddr>, from: nat, f: Fd) {
    exists j | from <= j < |addrs| :: FdOf(addrs[j]) == f
  }

  lemma HasSnoc(addrs: seq<SockAddr>, a: SockAddr, from: nat, f: Fd)
    requires from <= |addrs|
    ensures Has(addrs + [a], from, f) <==> Has(addrs, from, f) || FdOf(a) == f
    ensures HasFd(addrs, a) || FdOf(a) != f || !Has(addrs, from, f)
  {
    var t := addrs + [a];
    assert forall j | from <= j < |addrs| :: t[j] == addrs[j];
    if FdOf(a) == f { assert FdOf(t[|addrs|]) == f; }
    if Has(addrs, from, f) {
      var j :| from <= j < |addrs| && FdOf(addrs[j]) == f;
      assert FdOf(t[j]) == f;
      assert FdOf(a) == f ==> SameFd(addrs[j], a);
    }
  }

  lemma HasNext(addrs: seq<SockAddr>, from: nat, f: Fd)
    requires from < |addrs| && DistinctFds(addrs)
    ensures One(Has(addrs, from, f)) == One(Has(addrs, from + 1, f)) + One(FdOf(addrs[from]) == f)
  {
    if Has(addrs, from + 1, f) {
      var j :| from + 1 <= j < |addrs| && FdOf(addrs[j]) == f;
      assert !SameFd(addrs[from], addrs[j]);
    }
  }

  /** How many addresses of a name are served already. */
  function Done(h: Hold, key: Key): nat {
    if h.Serving? && h.key == key then h.i else 0
  }

  /** The client's interest is in the table and not answered. */
  predicate Waiting(s: State, key: Key, f: Fd)
    requires Shaped(s)
  {
    key in s.table && Has(s.table[key], Done(s.hold[RealToSimData], key), f)
  }

  /** Interests accepted from a client for a name: all answered once, but for one that may be waiting. */
  predicate Accounted(s: State, g: Log, key: Key, f: Fd)
    requires Shaped(s)
  {
    g.accepted[(key, f)] == Answered(g.sends)[(key, f)] + One(Waiting(s, key, f))
  }

  /** nut_set makes exactly the client it answers 1 a waiting one. */
  lemma SetWaiting(t: Table, k: Key, a: SockAddr, key: Key, from: nat, f: Fd)
    requires from <= if key in t then |t[key]| else 0
    ensures var t' := SetTable(t, k, a);
            One(key in t' && Has(t'[key], from, f))
            == One(key in t && Has(t[key], from, f)) + One(SetAnswer(t, k, a) == 1 && k == key && FdOf(a) == f)
  {
    if k == key {
      var addrs := if key in t then t[key] else [];
      HasSnoc(addrs, a, from, f);
    }
  }

  lemma InterestAccounted(s: State, g: Log, d: Datagram, a: SockAddr, spare: Malloc, key: Key, f: Fd)
    requires Shaped(s) && LogShaped(g) && WellFormed(d) && HoldOk(s) && Accounted(s, g, key, f)
    ensures Accounted(InterestIn(s, d, a, spare), NoteInterest(s, g, d, a), key, f)
  {
    hide Has, Answered, Copied, Was, SetTable;
    SetWaiting(s.table, KeyOf(Meaning(d).name), a, key, Done(s.hold[RealToSimData], key), f);
    assert InterestIn(s, d, a, spare).hold == s.hold;
  }

  lemma AnsweredSnoc(sends: seq<Delivery>, x: Delivery)
    ensures Answered(sends + [x]) == Answered(sends) + multiset{Filing(x)}
  {
    assert Filings(sends + [x]) == Filings(sends) + [Filing(x)];
  }

  /** A turn of the send loop answers one waiting client. */
  lemma TurnWaiting(s: State, h: Hold, key: Key, f: Fd)
    requires Shaped(s) && HoldOk(s) && TableOk(s.table)
    requires h == s.hold[RealToSimData] && h.Serving? && h.i < |s.table[h.key]|
    ensures var s' := s.(hold := s.hold[RealToSimData := h.(i := h.i + 1)]);
            Shaped(s')
            && One(Waiting(s, key, f)) == One(Waiting(s', key, f)) + One(h.key == key && FdOf(s.table[h.key][h.i]) == f)
  {
    if h.key == key {
      assert AddrsOk(s.table[key]);
      HasNext(s.table[key], h.i, f);
    }
  }

  lemma TurnAccounted(s: State, g: Log, h: Hold, x: Delivery, key: Key, f: Fd)
    requires Shaped(s) && LogShaped(g) && HoldOk(s) && TableOk(s.table) && Accounted(s, g, key, f)
    requires h == s.hold[RealToSimData] && h.Serving? && h.i < |s.table[h.key]|
    requires Filing(x) == (h.key, FdOf(s.table[h.key][h.i]))
    ensures var s' := s.(hold := s.hold[RealToSimData := h.(i := h.i + 1)]);
            Shaped(s') && Accounted(s', g.(sends := g.sends + [x]), key, f)
  {
    TurnWaiting(s, h, key, f);
    AnsweredSnoc(g.sends, x);
  }

  /** After the loop nobody waits for the name any more. */
  lemma DoneAccounted(s: State, g: Log, h: Hold, key: Key, f: Fd)
    requires Shaped(s) && LogShaped(g) && HoldOk(s) && Accounted(s, g, key, f)
    requires h == s.hold[RealToSimData] && h.Serving? && h.i == |s.table[h.key]|
    ensures var s' := s.(hold := s.hold[RealToSimData := Nothing], table := s.table - {h.key}, free := s.free + [h.b]);
            Shaped(s') && Accounted(s', g, key, f)
  {
  }

  lemma ServeAccounted(s: State, g: Log, key: Key, f: Fd)
    requires Shaped(s) && LogShaped(g) && HoldOk(s) && TableOk(s.table) && Accounted(s, g, key, f)
    requires s.hold[RealToSimData].Serving?
    ensures var h := s.hold[RealToSimData];
            Shaped(ServeStep(s, h)) && Accounted(ServeStep(s, h), NoteServe(s, g, h), key, f)
  {
    var h := s.hold[RealToSimData];
    if h.cap == s.cap {
      if h.i < |s.table[h.key]| {
        var to, m := FdOf(s.table[h.key][h.i]), Content(s.mem, RealToSimData, h.b);
        TurnAccounted(s, g, h, Delivery(|g.got[RealToSimData]|, to, m), key, f);
      } else {
        DoneAccounted(s, g, h, key, f);
      }
    }
  }

  lemma TakeAccounted(s: State, g: Log, c: Chan, key: Key, f: Fd)
    requires Shaped(s) && LogShaped(g) && HoldOk(s) && s.hold[c] == Nothing && s.queue[c] != []
    requires Accounted(s, g, key, f)
    ensures Accounted(TakeStep(s, c), NoteTake(s, g, c), key, f)
  {
    assert Done(TakeStep(s, c).hold[RealToSimData], key) == Done(s.hold[RealToSimData], key);
  }

  lemma StepAccounted(s: State, g: Log, e: Event, key: Key, f: Fd)
    requires Shaped(s) && LogShaped(g) && HoldOk(s) && TableOk(s.table) && Accounted(s, g, key, f)
    ensures Accounted(Step(s, e), Note(s, g, e), key, f)
  {
    if !s.fault && Allowed(s, e) {
      match e
      case NipIn(_, _, _, _) =>
      case UdpDataIn(_, _) =>
      case UdpInterestIn(d, a, spare) => InterestAccounted(s, g, d, a, spare, key, f);
      case Take(c) => if s.hold[c] == Nothing && s.queue[c] != [] { TakeAccounted(s, g, c, key, f); }
      case Send(c) =>
      case Return(c) =>
      case Serve => if s.hold[RealToSimData].Serving? { ServeAccounted(s, g, key, f); }
    }
  }

  // ---- Counting buffers ----

  function Hands(s: State): nat
    requires Shaped(s)
  {
    One(s.hold[RealToSimInterest] != Nothing) + One(s.hold[SimToRealInterest] != Nothing)
    + One(s.hold[SimToRealData] != Nothing) + One(s.hold[RealToSimData] != Nothing)
  }

  function Queued(s: State): nat
    requires Shaped(s)
  {
    |s.queue[RealToSimInterest]| + |s.queue[SimToRealInterest]| + |s.queue[SimToRealData]| + |s.queue[RealToSimData]|
  }

  /** Allocated is free plus queued plus held plus dropped. */
  predicate Counted(s: State)
    requires Shaped(s)
  {
    |s.mem| == |s.free| + Queued(s) + Hands(s) + |s.dropped|
  }

  lemma StoredCount(s: State, spare: Malloc, r: Record)
    requires Shaped(s) && OneOwner(s) && Counted(s) && spare.b !in s.mem
    ensures var s' := Stored(s, spare, r); |s'.mem| == |s'.free| + Queued(s') + Hands(s') + |s'.dropped| + 1
  {
    Elsewhere(s, spare, RealToSimData);
  }

  lemma AppendCount(s: State, c: Chan, b: Buf)
    requires Shaped(s)
    ensures Queued(Append(s, c, b)) == Queued(s) + 1 && Hands(Append(s, c, b)) == Hands(s)
  {
    match c
    case _ =>
  }

  lemma InterestCount(s: State, d: Datagram, a: SockAddr, spare: Malloc)
    requires Shaped(s) && OneOwner(s) && Counted(s) && WellFormed(d) && spare.b !in s.mem
    ensures Counted(InterestIn(s, d, a, spare))
  {
    var r := Copied(Was(s, spare), d);
    StoredCount(s, spare, r);
    AppendCount(Asked(Stored(s, spare, r), KeyOf(Meaning(d).name), a), SimToRealInterest, Obtained(s, spare));
  }

  lemma TakeCount(s: State, c: Chan)
    requires Shaped(s) && Counted(s) && s.hold[c] == Nothing && s.queue[c] != []
    ensures Counted(TakeStep(s, c))
  {
    match c
    case _ =>
  }

  lemma SendCount(s: State, c: Chan)
    requires Shaped(s) && Counted(s)
    ensures Counted(SendStep(s, c))
  {
    match c
    case _ =>
  }

  lemma ReturnCount(s: State, c: Chan)
    requires Shaped(s) && Counted(s)
    ensures Counted(ReturnStep(s, c))
  {
    match c
    case _ =>
  }

  lemma ServeCount(s: State)
    requires Shaped(s) && Counted(s) && s.hold[RealToSimData].Serving?
    ensures Counted(ServeStep(s, s.hold[RealToSimData]))
  {
  }

  lemma StepCount(s: State, e: Event)
    requires Shaped(s) && OneOwner(s) && Counted(s)
    ensures Counted(Step(s, e))
  {
    if !s.fault && Allowed(s, e) {
      match e
      case NipIn(c, m, nack, spare) =>
        var r := Pack(Was(s, spare), Kept(c, m, nack));
        StoredCount(s, spare, r);
        AppendCount(Stored(s, spare, r), c, Obtained(s, spare));
      case UdpDataIn(d, spare) =>
        var r := Copied(Was(s, spare), d);
        StoredCount(s, spare, r);
        AppendCount(Stored(s, spare, r), SimToRealData, Obtained(s, spare));
      case UdpInterestIn(d, a, spare) => InterestCount(s, d, a, spare);
      case Take(c) => if s.hold[c] == Nothing && s.queue[c] != [] { TakeCount(s, c); }
      case Send(c) => SendCount(s, c);
      case Return(c) => ReturnCount(s, c);
      case Serve => if s.hold[RealToSimData].Serving? { ServeCount(s); }
    }
  }


  // ---- Lost buffers ----

  /** Event e loses buffer b: an interest that nut_set does not answer 1, or data for which nut_get answers NULL. */
  predicate Loses(s: State, e: Event, b: Buf)
    requires Shaped(s)
  {
    && !s.fault && Allowed(s, e)
    && match e
       case UdpInterestIn(d, a, spare) => b == Obtained(s, spare) && SetAnswer(s.table, KeyOf(Meaning(d).name), a) != 1
       case Take(c) =>
         && c == RealToSimData && s.hold[c] == Nothing && s.queue[c] != [] && b == s.queue[c][0]
         && DataKey(s.mem, b) !in s.table
       case _ => false
  }

  lemma StepLost(s: State, e: Event, b: Buf)
    requires Shaped(s)
    ensures b in Step(s, e).dropped <==> b in s.dropped || Loses(s, e, b)
  {
  }

  // ---- Data sent ----

  predicate SentOk(got: seq<Msg>, x: Delivery) { 1 <= x.n <= |got| && x.m == got[x.n - 1] }

  /** What was sent is what had been taken from the queue, and so is what is being sent. */
  predicate SendsOk(s: State, g: Log)
    requires Shaped(s) && LogShaped(g)
  {
    var got, h := g.got[RealToSimData], s.hold[RealToSimData];
    && (forall i | 0 <= i < |g.sends| :: SentOk(got, g.sends[i]))
    && (h.Serving? ==> got != [] && got[|got| - 1] == Content(s.mem, RealToSimData, h.b))
  }

  lemma StoredSends(s: State, g: Log, spare: Malloc, r: Record)
    requires Shaped(s) && LogShaped(g) && OneOwner(s) && SendsOk(s, g) && spare.b !in s.mem
    ensures SendsOk(Stored(s, spare, r), g)
  {
    Elsewhere(s, spare, RealToSimData);
  }

  lemma TakeSends(s: State, g: Log, c: Chan)
    requires Shaped(s) && LogShaped(g) && SendsOk(s, g) && s.hold[c] == Nothing && s.queue[c] != []
    ensures SendsOk(TakeStep(s, c), NoteTake(s, g, c))
  {
    var got := g.got[RealToSimData];
    forall i | 0 <= i < |g.sends| ensures SentOk(got + [Content(s.mem, c, s.queue[c][0])], g.sends[i]) {
      assert SentOk(got, g.sends[i]);
    }
  }

  lemma ServeSends(s: State, g: Log)
    requires Shaped(s) && LogShaped(g) && SendsOk(s, g) && s.hold[RealToSimData].Serving?
    ensures var h := s.hold[RealToSimData]; Shaped(ServeStep(s, h)) && SendsOk(ServeStep(s, h), NoteServe(s, g, h))
  {
  }

  lemma SendSends(s: State, g: Log, c: Chan)
    requires Shaped(s) && LogShaped(g) && HoldOk(s) && SendsOk(s, g) && s.hold[c].Loaded?
    ensures SendsOk(SendStep(s, c), Get(g, c, Content(s.mem, c, s.hold[c].b)))
  {
  }

  lemma ReturnSends(s: State, g: Log, c: Chan)
    requires Shaped(s) && LogShaped(g) && HoldOk(s) && SendsOk(s, g)
    ensures SendsOk(ReturnStep(s, c), g)
  {
  }

  lemma StepSends(s: State, g: Log, e: Event)
    requires Shaped(s) && LogShaped(g) && OneOwner(s) && HoldOk(s) && SendsOk(s, g)
    ensures SendsOk(Step(s, e), Note(s, g, e))
  {
    if !s.fault && Allowed(s, e) {
      match e
      case NipIn(c, m, nack, spare) => StoredSends(s, g, spare, Pack(Was(s, spare), Kept(c, m, nack)));
      case UdpDataIn(d, spare) => StoredSends(s, g, spare, Copied(Was(s, spare), d));
      case UdpInterestIn(d, a, spare) => StoredSends(s, g, spare, Copied(Was(s, spare), d));
      case Take(c) => if s.hold[c] == Nothing && s.queue[c] != [] { TakeSends(s, g, c); }
      case Send(c) => if s.hold[c].Loaded? { SendSends(s, g, c); }
      case Return(c) => ReturnSends(s, g, c);
      case Serve => if s.hold[RealToSimData].Serving? { ServeSends(s, g); }
    }
  }

  // ---- Stale pointers ----

  /** udp_data_out holds a nut_entry pointer into a buffer that nut_grow has freed. */
  predicate Stale(s: State)
    requires Shaped(s)
  {
    s.hold[RealToSimData].Serving? && s.hold[RealToSimData].cap != s.cap
  }

  /** A stale pointer was used, or will be by the next turn of the send loop. */
  predicate Broken(s: State)
    requires Shaped(s)
  {
    s.fault || Stale(s)
  }

  /** The guard before a nut_set: the array is full, the name is new, and udp_data_out is in its send loop. */
  predicate Overruns(s: State, e: Event)
    requires Shaped(s)
  {
    && !s.fault && s.hold[RealToSimData].Serving? && e.UdpInterestIn? && Allowed(s, e)
    && KeyOf(Meaning(e.d).name) !in s.table && |s.table| == s.cap
  }

  /** The capacity changes only when more keys are held than ever fit before. */
  predicate CapOk(s: State)
    requires Shaped(s)
  {
    && |s.table| <= s.peak <= s.cap <= Max(INITCAP, 2 * s.peak) && INITCAP <= s.cap
    && (s.cap != INITCAP ==> s.peak > INITCAP) && (Broken(s) ==> s.peak > INITCAP)
  }

  lemma SetSize(t: Table, key: Key, a: SockAddr)
    ensures |SetTable(t, key, a)| == |t| + One(key !in t)
  {
  }

  lemma InterestCaps(s: State, d: Datagram, a: SockAddr, spare: Malloc)
    requires Shaped(s) && WellFormed(d) && spare.b !in s.mem && !s.fault && HoldOk(s) && CapOk(s)
    ensures CapOk(InterestIn(s, d, a, spare))
    ensures Broken(InterestIn(s, d, a, spare)) <==> Broken(s) || Overruns(s, UdpInterestIn(d, a, spare))
  {
    SetSize(s.table, KeyOf(Meaning(d).name), a);
  }

  lemma TakeCaps(s: State, c: Chan)
    requires Shaped(s) && CapOk(s) && HoldOk(s) && s.hold[c] == Nothing && s.queue[c] != []
    ensures CapOk(TakeStep(s, c)) && (Broken(TakeStep(s, c)) <==> Broken(s))
  {
  }

  lemma ServeCaps(s: State)
    requires Shaped(s) && HoldOk(s) && CapOk(s) && s.hold[RealToSimData].Serving?
    ensures var s' := ServeStep(s, s.hold[RealToSimData]); Shaped(s') && CapOk(s') && (Broken(s') <==> Broken(s))
  {
  }

  lemma SendCaps(s: State, c: Chan)
    requires Shaped(s) && HoldOk(s) && CapOk(s)
    ensures CapOk(SendStep(s, c)) && (Broken(SendStep(s, c)) <==> Broken(s))
  {
  }

  lemma ReturnCaps(s: State, c: Chan)
    requires Shaped(s) && HoldOk(s) && CapOk(s)
    ensures CapOk(ReturnStep(s, c)) && (Broken(ReturnStep(s, c)) <==> Broken(s))
  {
  }

  /** A pointer goes bad exactly at such a nut_set. */
  lemma StepCaps(s: State, e: Event)
    requires Shaped(s) && HoldOk(s) && CapOk(s)
    ensures CapOk(Step(s, e)) && (Broken(Step(s, e)) <==> Broken(s) || Overruns(s, e))
  {
    if !s.fault && Allowed(s, e) {
      match e
      case NipIn(_, _, _, _) =>
      case UdpDataIn(_, _) =>
      case UdpInterestIn(d, a, spare) => InterestCaps(s, d, a, spare);
      case Take(c) => if s.hold[c] == Nothing && s.queue[c] != [] { TakeCaps(s, c); }
      case Send(c) => SendCaps(s, c);
      case Return(c) => ReturnCaps(s, c);
      case Serve => if s.hold[RealToSimData].Serving? { ServeCaps(s); }
    }
  }
}
