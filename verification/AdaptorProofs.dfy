/** What every step of AdaptorModel keeps. */
module AdaptorProofs {
  import opened NameTable
  import opened AdaptorModel

  function One(p: bool): nat { if p then 1 else 0 }

  // ---- Every buffer has one owner ----

  function Times(q: seq<Buf>, b: Buf): nat { multiset(q)[b] }

  lemma TimesSnoc(q: seq<Buf>, x: Buf, b: Buf)
    ensures Times(q + [x], b) == Times(q, b) + One(b == x)
  {
  }

  lemma TimesRest(q: seq<Buf>, b: Buf)
    requires q != []
    ensures Times(q, b) == Times(q[1..], b) + One(b == q[0])
  {
    assert q == [q[0]] + q[1..];
  }

  lemma TimesIn(q: seq<Buf>, b: Buf)
    ensures b in q <==> Times(q, b) > 0
  {
  }

  function HeldAs(h: Hold, b: Buf): nat { One(h != Nothing && h.b == b) }

  /** How often a buffer is queued in a direction or held by its reader. */
  function Placed(s: State, c: Chan, b: Buf): nat
    requires Shaped(s)
  {
    Times(s.queue[c], b) + HeldAs(s.hold[c], b)
  }

  /** How often a buffer is somewhere. */
  function Owners(s: State, b: Buf): nat
    requires Shaped(s)
  {
    Times(s.free, b) + Times(s.dropped, b) + Placed(s, RealToSimInterest, b) + Placed(s, SimToRealInterest, b)
    + Placed(s, SimToRealData, b) + Placed(s, RealToSimData, b)
  }

  predicate Owned(s: State, b: Buf)
    requires Shaped(s)
  {
    Owners(s, b) == One(b in s.mem)
  }

  /** Every allocated buffer is in one place, once, and no other is anywhere. */
  ghost predicate OneOwner(s: State)
    requires Shaped(s)
  {
    forall b: Buf :: Owned(s, b)
  }

  /** What owners a step that touches only direction c changes. */
  lemma Shift(s: State, s': State, c: Chan, b: Buf)
    requires Shaped(s) && Shaped(s')
    requires forall d: Chan | d != c :: s'.queue[d] == s.queue[d] && s'.hold[d] == s.hold[d]
    ensures Owners(s', b) - Owners(s, b)
            == Times(s'.free, b) - Times(s.free, b) + Times(s'.dropped, b) - Times(s.dropped, b)
               + Placed(s', c, b) - Placed(s, c, b)
  {
    match c
    case _ =>
  }

  /** A buffer from the free list, or a new one, is nowhere else. */
  lemma Elsewhere(s: State, spare: Malloc, c: Chan)
    requires Shaped(s) && OneOwner(s) && spare.b !in s.mem
    ensures var b := Obtained(s, spare);
            b !in s.queue[c] && HeldAs(s.hold[c], b) == 0 && (s.free != [] ==> b in s.mem)
  {
    var b := Obtained(s, spare);
    assert Owned(s, b);
    if s.free != [] { TimesRest(s.free, b); }
    TimesIn(s.queue[c], b);
    match c
    case _ =>
  }

  /** It has no owner left once it is out of the free list. */
  lemma StoredOwners(s: State, spare: Malloc, r: Record, b: Buf)
    requires Shaped(s) && spare.b !in s.mem && Owned(s, b) && Owned(s, Obtained(s, spare))
    ensures Owners(Stored(s, spare, r), b) + One(b == Obtained(s, spare)) == One(b in Stored(s, spare, r).mem)
  {
    if s.free != [] {
      TimesRest(s.free, b);
      TimesRest(s.free, s.free[0]);
    }
  }

  lemma AppendOwners(s: State, c: Chan, x: Buf, b: Buf)
    requires Shaped(s)
    ensures Owners(Append(s, c, x), b) == Owners(s, b) + One(b == x)
  {
    TimesSnoc(s.queue[c], x, b);
    Shift(s, Append(s, c, x), c, b);
  }

  lemma DropOwners(s: State, x: Buf, b: Buf)
    requires Shaped(s)
    ensures Owners(Drop(s, x), b) == Owners(s, b) + One(b == x)
  {
    TimesSnoc(s.dropped, x, b);
  }

  /** A received record: from the free list, written, into a queue. */
  lemma InOwned(s: State, spare: Malloc, r: Record, c: Chan, b: Buf)
    requires Shaped(s) && spare.b !in s.mem && Owned(s, b) && Owned(s, Obtained(s, spare))
    ensures Owned(Append(Stored(s, spare, r), c, Obtained(s, spare)), b)
  {
    StoredOwners(s, spare, r, b);
    AppendOwners(Stored(s, spare, r), c, Obtained(s, spare), b);
  }

  lemma InterestOwned(s: State, d: Datagram, a: SockAddr, spare: Malloc, b: Buf)
    requires Shaped(s) && WellFormed(d) && spare.b !in s.mem && Owned(s, b) && Owned(s, Obtained(s, spare))
    ensures Owned(InterestIn(s, d, a, spare), b)
  {
    var key, x, r := KeyOf(Meaning(d).name), Obtained(s, spare), Copied(Was(s, spare), d);
    var s1 := Asked(Stored(s, spare, r), key, a);
    StoredOwners(s, spare, r, b);
    assert Owners(s1, b) == Owners(Stored(s, spare, r), b);
    AppendOwners(s1, SimToRealInterest, x, b);
    DropOwners(s1, x, b);
  }

  /** What the reader of c does to its queue and its hold. */
  function Moved(s: State, c: Chan, q: seq<Buf>, h: Hold): (s': State)
    requires Shaped(s)
    ensures Shaped(s')
  {
    s.(queue := s.queue[c := q], hold := s.hold[c := h])
  }

  lemma MovedOwners(s: State, c: Chan, q: seq<Buf>, h: Hold, b: Buf)
    requires Shaped(s)
    ensures Owners(Moved(s, c, q, h), b)
            == Owners(s, b) + Times(q, b) + HeldAs(h, b) - Times(s.queue[c], b) - HeldAs(s.hold[c], b)
  {
    Shift(s, Moved(s, c, q, h), c, b);
  }

  /** A held buffer goes back to the free list. */
  lemma ReturnOwners(s: State, c: Chan, b: Buf)
    requires Shaped(s) && s.hold[c] != Nothing
    ensures var s' := Moved(s, c, s.queue[c], Nothing);
            Owners(s'.(free := s.free + [s.hold[c].b]), b) == Owners(s, b)
  {
    MovedOwners(s, c, s.queue[c], Nothing, b);
    TimesSnoc(s.free, s.hold[c].b, b);
  }

  lemma ReheldOwners(s: State, c: Chan, h: Hold, b: Buf)
    requires Shaped(s) && s.hold[c] != Nothing && h != Nothing && h.b == s.hold[c].b
    ensures Owners(Moved(s, c, s.queue[c], h), b) == Owners(s, b)
  {
    MovedOwners(s, c, s.queue[c], h, b);
  }

  /** The reader takes the first buffer in hand ... */
  lemma LoadOwned(s: State, c: Chan, h: Hold, b: Buf)
    requires Shaped(s) && s.hold[c] == Nothing && s.queue[c] != [] && Owned(s, b)
    requires h != Nothing && h.b == s.queue[c][0]
    ensures Owned(Moved(s, c, s.queue[c][1..], h), b)
  {
    TimesRest(s.queue[c], b);
    MovedOwners(s, c, s.queue[c][1..], h, b);
  }

  lemma RestOwners(s: State, c: Chan, b: Buf)
    requires Shaped(s) && s.queue[c] != []
    ensures var s' := s.(queue := s.queue[c := s.queue[c][1..]]);
            Shaped(s') && Owners(s', b) + One(b == s.queue[c][0]) == Owners(s, b)
  {
    TimesRest(s.queue[c], b);
    Shift(s, s.(queue := s.queue[c := s.queue[c][1..]]), c, b);
  }

  /** ... or gives it up. */
  lemma GiveUpOwned(s: State, c: Chan, b: Buf)
    requires Shaped(s) && s.hold[c] == Nothing && s.queue[c] != [] && Owned(s, b)
    ensures var s' := s.(queue := s.queue[c := s.queue[c][1..]]);
            Shaped(s') && Owned(Drop(s', s.queue[c][0]), b)
  {
    RestOwners(s, c, b);
    DropOwners(s.(queue := s.queue[c := s.queue[c][1..]]), s.queue[c][0], b);
  }

  lemma TakeOwned(s: State, c: Chan, b: Buf)
    requires Shaped(s) && s.hold[c] == Nothing && s.queue[c] != [] && Owned(s, b)
    ensures Owned(TakeStep(s, c), b)
  {
    var x := s.queue[c][0];
    var key := DataKey(s.mem, x);
    if c != RealToSimData {
      LoadOwned(s, c, Loaded(x), b);
    } else if key in s.table {
      LoadOwned(s, c, Serving(x, key, s.cap, 0), b);
    } else {
      GiveUpOwned(s, c, b);
    }
  }

  /** The table, its capacity and the fault flag own nothing. */
  lemma SameOwners(s: State, s': State, b: Buf)
    requires Shaped(s) && Shaped(s') && s'.queue == s.queue && s'.hold == s.hold && s'.free == s.free
    requires s'.dropped == s.dropped && s'.mem == s.mem && Owned(s, b)
    ensures Owned(s', b)
  {
  }

  /** A held buffer is held otherwise, or goes back to the free list. */
  lemma HeldOwned(s: State, c: Chan, h: Hold, b: Buf)
    requires Shaped(s) && s.hold[c] != Nothing && Owned(s, b) && (h == Nothing || h.b == s.hold[c].b)
    ensures var s' := s.(hold := s.hold[c := h], free := if h == Nothing then s.free + [s.hold[c].b] else s.free);
            Shaped(s') && Owned(s', b)
  {
    assert s.queue[c := s.queue[c]] == s.queue;
    if h == Nothing { ReturnOwners(s, c, b); } else { ReheldOwners(s, c, h, b); }
  }

  lemma ServeOwned(s: State, b: Buf)
    requires Shaped(s) && s.hold[RealToSimData].Serving? && Owned(s, b)
    ensures Owned(ServeStep(s, s.hold[RealToSimData]), b)
  {
    var h, c := s.hold[RealToSimData], RealToSimData;
    if h.cap == s.cap && h.key in s.table {
      if h.i < |s.table[h.key]| {
        HeldOwned(s, c, h.(i := h.i + 1), b);
      } else {
        HeldOwned(s, c, Nothing, b);
        var s' := s.(hold := s.hold[c := Nothing], free := s.free + [h.b]);
        SameOwners(s', ServeStep(s, h), b);
      }
    }
  }

  lemma StepOwned(s: State, e: Event, b: Buf)
    requires Shaped(s) && OneOwner(s)
    ensures Owned(Step(s, e), b)
  {
    assert Owned(s, b);
    if !s.fault && Allowed(s, e) {
      match e
      case NipIn(c, m, nack, spare) =>
        assert Owned(s, Obtained(s, spare));
        InOwned(s, spare, Pack(Was(s, spare), Kept(c, m, nack)), c, b);
      case UdpDataIn(d, spare) =>
        assert Owned(s, Obtained(s, spare));
        InOwned(s, spare, Copied(Was(s, spare), d), SimToRealData, b);
      case UdpInterestIn(d, a, spare) =>
        assert Owned(s, Obtained(s, spare));
        InterestOwned(s, d, a, spare, b);
      case Take(c) => if s.hold[c] == Nothing && s.queue[c] != [] { TakeOwned(s, c, b); }
      case Send(c) => if s.hold[c].Loaded? { HeldOwned(s, c, Sent(s.hold[c].b), b); }
      case Return(c) => if s.hold[c].Sent? { HeldOwned(s, c, Nothing, b); }
      case Serve => if s.hold[RealToSimData].Serving? { ServeOwned(s, b); }
    }
  }

  // ---- Every direction is a channel ----

  /** The messages in a queue of buffers. */
  function Contents(mem: map<Buf, Record>, c: Chan, q: seq<Buf>): (r: seq<Msg>)
    ensures |r| == |q| && forall i | 0 <= i < |q| :: r[i] == Content(mem, c, q[i])
  {
    seq(|q|, i requires 0 <= i < |q| => Content(mem, c, q[i]))
  }

  lemma ContentsSnoc(mem: map<Buf, Record>, c: Chan, q: seq<Buf>, b: Buf)
    ensures Contents(mem, c, q + [b]) == Contents(mem, c, q) + [Content(mem, c, b)]
  {
  }

  lemma ContentsRest(mem: map<Buf, Record>, c: Chan, q: seq<Buf>)
    requires q != []
    ensures Contents(mem, c, q) == [Content(mem, c, q[0])] + Contents(mem, c, q[1..])
  {
  }

  lemma ContentsFrame(mem: map<Buf, Record>, c: Chan, q: seq<Buf>, b: Buf, r: Record)
    requires b !in q
    ensures Contents(mem[b := r], c, q) == Contents(mem, c, q)
  {
    assert forall i | 0 <= i < |q| :: q[i] != b;
  }

  /** The messages of a direction that are not sent yet, oldest first. */
  function InFlight(s: State, c: Chan): seq<Msg>
    requires Shaped(s)
  {
    (if s.hold[c].Loaded? then [Content(s.mem, c, s.hold[c].b)] else []) + Contents(s.mem, c, s.queue[c])
  }

  predicate Channel(s: State, g: Log, c: Chan)
    requires Shaped(s) && LogShaped(g)
  {
    g.put[c] == g.got[c] + InFlight(s, c)
  }

  lemma StoredInFlight(s: State, spare: Malloc, r: Record, c: Chan)
    requires Shaped(s) && OneOwner(s) && spare.b !in s.mem
    ensures InFlight(Stored(s, spare, r), c) == InFlight(s, c)
  {
    Elsewhere(s, spare, c);
    ContentsFrame(s.mem, c, s.queue[c], Obtained(s, spare), r);
  }

  lemma AppendInFlight(s: State, c: Chan, b: Buf, d: Chan)
    requires Shaped(s)
    ensures InFlight(Append(s, c, b), d) == InFlight(s, d) + if c == d then [Content(s.mem, c, b)] else []
  {
    if c == d {
      var held := if s.hold[c].Loaded? then [Content(s.mem, c, s.hold[c].b)] else [];
      ContentsSnoc(s.mem, c, s.queue[c], b);
      assert held + (Contents(s.mem, c, s.queue[c]) + [Content(s.mem, c, b)])
             == InFlight(s, c) + [Content(s.mem, c, b)];
    }
  }

  /** A buffer that joins a queue is put into that channel. */
  lemma QueuedChannel(s: State, g: Log, c: Chan, b: Buf, d: Chan)
    requires Shaped(s) && LogShaped(g) && Channel(s, g, d)
    ensures Channel(Append(s, c, b), Put(g, c, Content(s.mem, c, b)), d)
  {
    AppendInFlight(s, c, b, d);
  }

  /** A record that arrives with meaning m joins the channel as m. */
  lemma InChannel(s: State, g: Log, spare: Malloc, r: Record, c: Chan, m: Msg, d: Chan)
    requires Shaped(s) && LogShaped(g) && OneOwner(s) && spare.b !in s.mem
    requires Channel(s, g, d) && OnWire(c, Unpack(r)) == m
    ensures Channel(Append(Stored(s, spare, r), c, Obtained(s, spare)), Put(g, c, m), d)
  {
    StoredInFlight(s, spare, r, d);
    QueuedChannel(Stored(s, spare, r), g, c, Obtained(s, spare), d);
  }

  lemma InterestChannel(s: State, g: Log, d: Datagram, a: SockAddr, spare: Malloc, c: Chan)
    requires Shaped(s) && LogShaped(g) && OneOwner(s) && WellFormed(d) && spare.b !in s.mem && Channel(s, g, c)
    ensures Channel(InterestIn(s, d, a, spare), NoteInterest(s, g, d, a), c)
  {
    var r, x := Copied(Was(s, spare), d), Obtained(s, spare);
    var s1 := Asked(Stored(s, spare, r), KeyOf(Meaning(d).name), a);
    StoredInFlight(s, spare, r, c);
    assert Channel(s1, g, c) by { assert InFlight(s1, c) == InFlight(s, c); }
    if SetAnswer(s.table, KeyOf(Meaning(d).name), a) == 1 {
      CopiedMeaning(Was(s, spare), d);
      QueuedChannel(s1, g, SimToRealInterest, x, c);
    }
  }

  /** A message leaves the queue for its reader's hands. */
  lemma LoadedInFlight(s: State, c: Chan)
    requires Shaped(s) && s.hold[c] == Nothing && s.queue[c] != []
    ensures InFlight(Moved(s, c, s.queue[c][1..], Loaded(s.queue[c][0])), c) == InFlight(s, c)
  {
    ContentsRest(s.mem, c, s.queue[c]);
  }

  /** A message is taken out for good. */
  lemma TakenInFlight(s: State, c: Chan, h: Hold)
    requires Shaped(s) && s.hold[c] == Nothing && s.queue[c] != [] && !h.Loaded?
    ensures InFlight(s, c) == [Content(s.mem, c, s.queue[c][0])] + InFlight(Moved(s, c, s.queue[c][1..], h), c)
  {
    ContentsRest(s.mem, c, s.queue[c]);
  }

  lemma LoadChannel(s: State, g: Log, c: Chan, d: Chan)
    requires Shaped(s) && LogShaped(g) && s.hold[c] == Nothing && s.queue[c] != [] && Channel(s, g, d)
    ensures Channel(Moved(s, c, s.queue[c][1..], Loaded(s.queue[c][0])), g, d)
  {
    if c == d { LoadedInFlight(s, c); }
  }

  lemma TakenChannel(s: State, g: Log, c: Chan, h: Hold, d: Chan)
    requires Shaped(s) && LogShaped(g) && s.hold[c] == Nothing && s.queue[c] != [] && Channel(s, g, d) && !h.Loaded?
    ensures Channel(Moved(s, c, s.queue[c][1..], h), Get(g, c, Content(s.mem, c, s.queue[c][0])), d)
  {
    if c == d { TakenInFlight(s, c, h); }
  }

  /** Only the queue, the reader and the buffers matter to a channel. */
  lemma SameChannel(s: State, g: Log, s': State, g': Log, c: Chan)
    requires Shaped(s) && LogShaped(g) && Shaped(s') && LogShaped(g') && Channel(s, g, c)
    requires s'.queue[c] == s.queue[c] && s'.mem == s.mem && g'.put[c] == g.put[c] && g'.got[c] == g.got[c]
    requires s'.hold[c] == s.hold[c] || (!s.hold[c].Loaded? && !s'.hold[c].Loaded?)
    ensures Channel(s', g', c)
  {
  }

  lemma TakeChannel(s: State, g: Log, c: Chan, d: Chan)
    requires Shaped(s) && LogShaped(g) && s.hold[c] == Nothing && s.queue[c] != [] && Channel(s, g, d)
    ensures Channel(TakeStep(s, c), NoteTake(s, g, c), d)
  {
    var h, g1 := TakeStep(s, c).hold[c], Get(g, c, Content(s.mem, c, s.queue[c][0]));
    if c == RealToSimData {
      TakenChannel(s, g, c, h, d);
      SameChannel(Moved(s, c, s.queue[c][1..], h), g1, TakeStep(s, c), NoteTake(s, g, c), d);
    } else {
      LoadChannel(s, g, c, d);
    }
  }

  lemma SendChannel(s: State, g: Log, c: Chan, d: Chan)
    requires Shaped(s) && LogShaped(g) && s.hold[c].Loaded? && Channel(s, g, d)
    ensures var s' := s.(hold := s.hold[c := Sent(s.hold[c].b)]);
            Shaped(s') && Channel(s', Get(g, c, Content(s.mem, c, s.hold[c].b)), d)
  {
  }

  /** The steps after a message was sent. */
  lemma RestChannel(s: State, g: Log, e: Event, c: Chan)
    requires Shaped(s) && LogShaped(g) && Channel(s, g, c) && (e.Return? || e.Serve?)
    ensures Channel(Step(s, e), Note(s, g, e), c)
  {
    SameChannel(s, g, Step(s, e), Note(s, g, e), c);
  }

  lemma NipChannel(s: State, g: Log, e: Event, c: Chan)
    requires Shaped(s) && LogShaped(g) && OneOwner(s) && Channel(s, g, c) && e.NipIn?
    ensures Channel(Step(s, e), Note(s, g, e), c)
  {
    if !s.fault && Allowed(s, e) {
      PackUnpack(Was(s, e.spare), Kept(e.c, e.m, e.nack));
      InChannel(s, g, e.spare, Pack(Was(s, e.spare), Kept(e.c, e.m, e.nack)), e.c, Kept(e.c, e.m, e.nack), c);
    }
  }

  lemma UdpChannel(s: State, g: Log, e: Event, c: Chan)
    requires Shaped(s) && LogShaped(g) && OneOwner(s) && Channel(s, g, c) && e.UdpDataIn?
    ensures Channel(Step(s, e), Note(s, g, e), c)
  {
    if !s.fault && Allowed(s, e) {
      CopiedMeaning(Was(s, e.spare), e.d);
      InChannel(s, g, e.spare, Copied(Was(s, e.spare), e.d), SimToRealData, Meaning(e.d), c);
    }
  }

  lemma StepChannel(s: State, g: Log, e: Event, c: Chan)
    requires Shaped(s) && LogShaped(g) && OneOwner(s) && Channel(s, g, c)
    ensures Channel(Step(s, e), Note(s, g, e), c)
  {
    if !s.fault && Allowed(s, e) {
      match e
      case NipIn(_, _, _, _) => NipChannel(s, g, e, c);
      case UdpDataIn(_, _) => UdpChannel(s, g, e, c);
      case UdpInterestIn(d, a, spare) => InterestChannel(s, g, d, a, spare, c);
      case Take(c0) => if s.hold[c0] == Nothing && s.queue[c0] != [] { TakeChannel(s, g, c0, c); }
      case Send(c0) => if s.hold[c0].Loaded? { SendChannel(s, g, c0, c); }
      case Return(c0) => RestChannel(s, g, e, c);
      case Serve => RestChannel(s, g, e, c);
    }
  }
}
