/** The laws of every run of the adaptor. */
module AdaptorTheorems {
  import opened NameTable
  import opened AdaptorModel
  import opened AdaptorProofs
  import opened AdaptorAccounts

  ghost predicate Channels(y: Sys)
    requires Shaped(y.s) && LogShaped(y.g)
  {
    forall c: Chan :: Channel(y.s, y.g, c)
  }

  ghost predicate Accounts(y: Sys)
    requires Shaped(y.s)
  {
    forall key: Key, f: Fd :: Accounted(y.s, y.g, key, f)
  }

  ghost predicate Inv(y: Sys) {
    && Shaped(y.s) && LogShaped(y.g) && OneOwner(y.s) && Counted(y.s) && HoldOk(y.s) && TableOk(y.s.table)
    && Channels(y) && Accounts(y) && SendsOk(y.s, y.g) && CapOk(y.s)
  }

  lemma StepOwners(s: State, e: Event)
    requires Shaped(s) && OneOwner(s)
    ensures OneOwner(Step(s, e))
  {
    forall b: Buf ensures Owned(Step(s, e), b) { StepOwned(s, e, b); }
  }

  lemma StepChannels(y: Sys, e: Event)
    requires Shaped(y.s) && LogShaped(y.g) && OneOwner(y.s) && Channels(y)
    ensures Channels(Advance(y, e))
  {
    forall c: Chan ensures Channel(Step(y.s, e), Note(y.s, y.g, e), c) { StepChannel(y.s, y.g, e, c); }
  }

  lemma StepAccounts(y: Sys, e: Event)
    requires Shaped(y.s) && LogShaped(y.g) && HoldOk(y.s) && TableOk(y.s.table) && Accounts(y)
    ensures Accounts(Advance(y, e))
  {
    forall key: Key, f: Fd ensures Accounted(Step(y.s, e), Note(y.s, y.g, e), key, f) {
      StepAccounted(y.s, y.g, e, key, f);
    }
  }

  lemma StepInv(y: Sys, e: Event)
    requires Inv(y)
    ensures Inv(Advance(y, e))
  {
    StepOwners(y.s, e);
    StepChannels(y, e);
    StepAccounts(y, e);
    StepCount(y.s, e);
    StepHold(y.s, e);
    StepTableOk(y.s, e);
    StepSends(y.s, y.g, e);
    StepCaps(y.s, e);
  }

  lemma InitTimes(bufs: seq<Buf>, b: Buf)
    requires forall i, j | 0 <= i < j < |bufs| :: bufs[i] != bufs[j]
    ensures Times(bufs, b) == One(b in bufs)
  {
    if bufs != [] {
      var n := |bufs| - 1;
      assert bufs == bufs[..n] + [bufs[n]];
      InitTimes(bufs[..n], b);
    }
  }

  lemma InitSize(bufs: seq<Buf>, junk: Record)
    requires forall i, j | 0 <= i < j < |bufs| :: bufs[i] != bufs[j]
    ensures |map b | b in bufs :: junk| == |bufs|
  {
    var m := map b | b in bufs :: junk;
    if bufs != [] {
      var n := |bufs| - 1;
      InitSize(bufs[..n], junk);
      assert m == (map b | b in bufs[..n] :: junk)[bufs[n] := junk];
    }
  }

  lemma InitInv(bufs: seq<Buf>, junk: Record)
    requires InitOk(bufs)
    ensures Inv(Sys(Init(bufs, junk), EmptyLog()))
  {
    var s := Init(bufs, junk);
    InitSize(bufs, junk);
    forall b: Buf ensures Owned(s, b) { InitTimes(bufs, b); }
  }

  lemma {:induction false} PlayInv(y: Sys, run: seq<Event>)
    requires Inv(y)
    ensures Inv(Play(y, run))
    decreases |run|
  {
    if run != [] {
      StepInv(y, run[0]);
      PlayInv(Advance(y, run[0]), run[1..]);
    }
  }

  lemma {:induction false} PlaySnoc(y: Sys, run: seq<Event>, e: Event)
    requires Shaped(y.s) && LogShaped(y.g)
    ensures Play(y, run + [e]) == Advance(Play(y, run), e)
    decreases |run|
  {
    if run == [] {
      assert ([e])[1..] == [];
    } else {
      assert (run + [e])[1..] == run[1..] + [e];
      PlaySnoc(Advance(y, run[0]), run[1..], e);
    }
  }

  lemma RunInv(bufs: seq<Buf>, junk: Record, run: seq<Event>)
    requires InitOk(bufs)
    ensures Inv(After(bufs, junk, run))
  {
    InitInv(bufs, junk);
    PlayInv(Sys(Init(bufs, junk), EmptyLog()), run);
  }

  // ---- Main results ----

  /** The places a buffer can be in: listed as free, lost, in a queue or with a reader. */
  datatype Place = Free | Dropped | InQueue(c: Chan) | InHand(c: Chan)

  function CountAt(s: State, p: Place, b: Buf): nat
    requires Shaped(s)
  {
    match p
    case Free => Times(s.free, b)
    case Dropped => Times(s.dropped, b)
    case InQueue(c) => Times(s.queue[c], b)
    case InHand(c) => HeldAs(s.hold[c], b)
  }

  function PlaceIn(s: State, c: Chan, b: Buf): Place
    requires Shaped(s)
  {
    if HeldAs(s.hold[c], b) > 0 then InHand(c) else InQueue(c)
  }

  function PlaceOf(s: State, b: Buf): Place
    requires Shaped(s)
  {
    if Times(s.free, b) > 0 then Free
    else if Times(s.dropped, b) > 0 then Dropped
    else if Placed(s, RealToSimInterest, b) > 0 then PlaceIn(s, RealToSimInterest, b)
    else if Placed(s, SimToRealInterest, b) > 0 then PlaceIn(s, SimToRealInterest, b)
    else if Placed(s, SimToRealData, b) > 0 then PlaceIn(s, SimToRealData, b)
    else PlaceIn(s, RealToSimData, b)
  }

  lemma OwnedPlace(s: State, b: Buf, p: Place)
    requires Shaped(s) && Owned(s, b)
    ensures CountAt(s, p, b) == if b in s.mem && p == PlaceOf(s, b) then 1 else 0
  {
    assert Owners(s, b) == One(b in s.mem);
    if p.InQueue? || p.InHand? {
      match p.c
      case RealToSimInterest =>
      case SimToRealInterest =>
      case SimToRealData =>
      case RealToSimData =>
    }
  }

  /** An allocated buffer is in one place, once, and nowhere else; any other address is nowhere. */
  lemma OnePlace(bufs: seq<Buf>, junk: Record, run: seq<Event>, b: Buf, p: Place)
    requires InitOk(bufs)
    ensures var s := After(bufs, junk, run).s;
            CountAt(s, p, b) == if b in s.mem && p == PlaceOf(s, b) then 1 else 0
  {
    RunInv(bufs, junk, run);
    OwnedPlace(After(bufs, junk, run).s, b, p);
  }

  /** Allocated buffers are free, queued, held or lost. */
  lemma BufferAccount(bufs: seq<Buf>, junk: Record, run: seq<Event>)
    requires InitOk(bufs)
    ensures var s := After(bufs, junk, run).s; |s.mem| == |s.free| + Queued(s) + Hands(s) + |s.dropped|
  {
    RunInv(bufs, junk, run);
  }

  lemma AfterSnoc(bufs: seq<Buf>, junk: Record, run: seq<Event>, e: Event)
    ensures After(bufs, junk, run + [e]) == Advance(After(bufs, junk, run), e)
  {
    PlaySnoc(Sys(Init(bufs, junk), EmptyLog()), run, e);
  }

  /** Event i of a run loses buffer b. */
  predicate LosesAt(bufs: seq<Buf>, junk: Record, run: seq<Event>, i: nat, b: Buf)
    requires i < |run|
  {
    Loses(After(bufs, junk, run[..i]).s, run[i], b)
  }

  ghost predicate EverLoses(bufs: seq<Buf>, junk: Record, run: seq<Event>, b: Buf) {
    exists i | 0 <= i < |run| :: LosesAt(bufs, junk, run, i, b)
  }

  lemma EverLosesSnoc(bufs: seq<Buf>, junk: Record, rest: seq<Event>, e: Event, b: Buf)
    ensures EverLoses(bufs, junk, rest + [e], b)
            <==> EverLoses(bufs, junk, rest, b) || Loses(After(bufs, junk, rest).s, e, b)
  {
    var run := rest + [e];
    forall i | 0 <= i < |rest| ensures LosesAt(bufs, junk, run, i, b) == LosesAt(bufs, junk, rest, i, b) {
      assert run[..i] == rest[..i];
    }
    assert run[..|rest|] == rest;
    assert LosesAt(bufs, junk, run, |rest|, b) == Loses(After(bufs, junk, rest).s, e, b);
    if EverLoses(bufs, junk, rest, b) {
      var i :| 0 <= i < |rest| && LosesAt(bufs, junk, rest, i, b);
      assert LosesAt(bufs, junk, run, i, b);
    }
  }

  lemma {:induction false} DroppedExactly(bufs: seq<Buf>, junk: Record, run: seq<Event>, b: Buf)
    ensures b in After(bufs, junk, run).s.dropped <==> exists i | 0 <= i < |run| :: LosesAt(bufs, junk, run, i, b)
    decreases |run|
  {
    if run != [] {
      var rest, e := run[..|run| - 1], run[|run| - 1];
      assert run == rest + [e];
      AfterSnoc(bufs, junk, rest, e);
      StepLost(After(bufs, junk, rest).s, e, b);
      DroppedExactly(bufs, junk, rest, b);
      EverLosesSnoc(bufs, junk, rest, e, b);
      assert EverLoses(bufs, junk, run, b)
        <==> EverLoses(bufs, junk, rest, b) || Loses(After(bufs, junk, rest).s, e, b);
    }
  }

  /** No list, queue or coroutine has the buffer. */
  predicate Unplaced(s: State, b: Buf)
    requires Shaped(s)
  {
    b !in s.free && forall c: Chan :: b !in s.queue[c] && (s.hold[c] != Nothing ==> s.hold[c].b != b)
  }

  lemma UnplacedDropped(s: State, b: Buf)
    requires Shaped(s) && Owned(s, b)
    ensures b in s.mem && Unplaced(s, b) <==> b in s.dropped
  {
    TimesIn(s.free, b);
    TimesIn(s.dropped, b);
    forall c: Chan
      ensures Placed(s, c, b) > 0 <==> b in s.queue[c] || (s.hold[c] != Nothing && s.hold[c].b == b)
      ensures Placed(s, c, b) <= Owners(s, b) - Times(s.free, b) - Times(s.dropped, b)
    {
      TimesIn(s.queue[c], b);
      match c
      case RealToSimInterest =>
      case SimToRealInterest =>
      case SimToRealData =>
      case RealToSimData =>
    }
  }

  /**
   An allocated buffer that is neither free, queued nor held is one that some event of the run lost: a
   refused interest or unmatched data.  No others are lost.
   */
  lemma LostExactly(bufs: seq<Buf>, junk: Record, run: seq<Event>, b: Buf)
    requires InitOk(bufs)
    ensures var s := After(bufs, junk, run).s;
            b in s.mem && Unplaced(s, b) <==> exists i | 0 <= i < |run| :: LosesAt(bufs, junk, run, i, b)
  {
    RunInv(bufs, junk, run);
    UnplacedDropped(After(bufs, junk, run).s, b);
    DroppedExactly(bufs, junk, run, b);
  }

  /** Each direction delivers the messages put into it, unchanged and in order; the rest are still inside. */
  lemma FifoChannel(bufs: seq<Buf>, junk: Record, run: seq<Event>, c: Chan)
    requires InitOk(bufs)
    ensures var y := After(bufs, junk, run);
            y.g.got[c] <= y.g.put[c] && y.g.put[c][|y.g.got[c]|..] == InFlight(y.s, c)
  {
    RunInv(bufs, junk, run);
    assert Channel(After(bufs, junk, run).s, After(bufs, junk, run).g, c);
  }

  /** A client is sent data for a name as often as its interest was accepted, less one if it is still waiting. */
  lemma AnsweredOnce(bufs: seq<Buf>, junk: Record, run: seq<Event>, key: Key, f: Fd)
    requires InitOk(bufs)
    ensures var y := After(bufs, junk, run);
            y.g.accepted[(key, f)] == Answered(y.g.sends)[(key, f)] + if Waiting(y.s, key, f) then 1 else 0
  {
    RunInv(bufs, junk, run);
    assert Accounted(After(bufs, junk, run).s, After(bufs, junk, run).g, key, f);
  }

  /** No client gets data it did not ask for, and with no name pending every accepted interest is answered. */
  lemma NothingUnasked(bufs: seq<Buf>, junk: Record, run: seq<Event>)
    requires InitOk(bufs)
    ensures var y := After(bufs, junk, run);
            && Answered(y.g.sends) <= y.g.accepted
            && (y.s.table == map[] ==> Answered(y.g.sends) == y.g.accepted)
  {
    var y := After(bufs, junk, run);
    forall k: (Key, Fd)
      ensures Answered(y.g.sends)[k] <= y.g.accepted[k] <= Answered(y.g.sends)[k] + One(y.s.table != map[])
    {
      AnsweredOnce(bufs, junk, run, k.0, k.1);
    }
  }

  /** What a client is sent, across the yields of the send loop, is the message put in at the place it came from. */
  lemma SentAsReceived(bufs: seq<Buf>, junk: Record, run: seq<Event>, i: nat)
    requires InitOk(bufs) && i < |After(bufs, junk, run).g.sends|
    ensures var g := After(bufs, junk, run).g;
            && 1 <= g.sends[i].n <= |g.got[RealToSimData]| <= |g.put[RealToSimData]|
            && g.sends[i].m == g.put[RealToSimData][g.sends[i].n - 1]
  {
    RunInv(bufs, junk, run);
    FifoChannel(bufs, junk, run, RealToSimData);
    var g := After(bufs, junk, run).g;
    assert SentOk(g.got[RealToSimData], g.sends[i]);
  }

  // ---- The pointer of the send loop ----

  /** A run in which no stale pointer is around: whatever comes next, its guard tells whether the send loop fails. */
  lemma StaleNext(bufs: seq<Buf>, junk: Record, run: seq<Event>, e: Event)
    requires InitOk(bufs) && !Broken(After(bufs, junk, run).s)
    ensures After(bufs, junk, run + [e] + [Serve]).s.fault <==> Overruns(After(bufs, junk, run).s, e)
  {
    RunInv(bufs, junk, run);
    RunInv(bufs, junk, run + [e]);
    AfterSnoc(bufs, junk, run, e);
    AfterSnoc(bufs, junk, run + [e], Serve);
    StepCaps(After(bufs, junk, run).s, e);
    ServeFaults(After(bufs, junk, run + [e]).s);
  }

  lemma ServeFaults(s: State)
    requires Shaped(s) && HoldOk(s)
    ensures Step(s, Serve).fault <==> Broken(s)
  {
  }

  predicate OverrunsAt(bufs: seq<Buf>, junk: Record, run: seq<Event>, i: nat)
    requires i < |run|
  {
    Overruns(After(bufs, junk, run[..i]).s, run[i])
  }

  ghost predicate EverOverruns(bufs: seq<Buf>, junk: Record, run: seq<Event>) {
    exists i | 0 <= i < |run| :: OverrunsAt(bufs, junk, run, i)
  }

  lemma EverOverrunsSnoc(bufs: seq<Buf>, junk: Record, rest: seq<Event>, e: Event)
    ensures EverOverruns(bufs, junk, rest + [e])
            <==> EverOverruns(bufs, junk, rest) || Overruns(After(bufs, junk, rest).s, e)
  {
    var run := rest + [e];
    forall i | 0 <= i < |rest| ensures OverrunsAt(bufs, junk, run, i) == OverrunsAt(bufs, junk, rest, i) {
      assert run[..i] == rest[..i];
    }
    assert run[..|rest|] == rest;
    assert OverrunsAt(bufs, junk, run, |rest|) == Overruns(After(bufs, junk, rest).s, e);
    if EverOverruns(bufs, junk, rest) {
      var i :| 0 <= i < |rest| && OverrunsAt(bufs, junk, rest, i);
      assert OverrunsAt(bufs, junk, run, i);
    }
  }

  lemma {:induction false} BrokenExactly(bufs: seq<Buf>, junk: Record, run: seq<Event>)
    requires InitOk(bufs)
    ensures Broken(After(bufs, junk, run).s) <==> EverOverruns(bufs, junk, run)
    decreases |run|
  {
    if run != [] {
      var rest, e := run[..|run| - 1], run[|run| - 1];
      assert run == rest + [e];
      BrokenExactly(bufs, junk, rest);
      BrokenSnoc(bufs, junk, rest, e);
      EverOverrunsSnoc(bufs, junk, rest, e);
    }
  }

  lemma BrokenSnoc(bufs: seq<Buf>, junk: Record, rest: seq<Event>, e: Event)
    requires InitOk(bufs)
    ensures var s := After(bufs, junk, rest).s;
            Broken(After(bufs, junk, rest + [e]).s) <==> Broken(s) || Overruns(s, e)
  {
    RunInv(bufs, junk, rest);
    AfterSnoc(bufs, junk, rest, e);
    StepCaps(After(bufs, junk, rest).s, e);
  }

  /**
   The next turn of the send loop uses a nut_entry pointer into freed memory, or one before did, exactly
   if some interest with a new name came inside a send loop while every place of the table was taken.
   */
  lemma FaultExactly(bufs: seq<Buf>, junk: Record, run: seq<Event>)
    requires InitOk(bufs)
    ensures After(bufs, junk, run + [Serve]).s.fault <==> exists i | 0 <= i < |run| :: OverrunsAt(bufs, junk, run, i)
  {
    RunInv(bufs, junk, run);
    AfterSnoc(bufs, junk, run, Serve);
    ServeFaults(After(bufs, junk, run).s);
    BrokenExactly(bufs, junk, run);
  }

  /** While no more than 32 names were ever pending at once, no pointer goes stale. */
  lemma SmallTableSafe(bufs: seq<Buf>, junk: Record, run: seq<Event>)
    requires InitOk(bufs) && After(bufs, junk, run).s.peak <= INITCAP
    ensures !Broken(After(bufs, junk, run).s) && After(bufs, junk, run).s.cap == INITCAP
  {
    RunInv(bufs, junk, run);
  }

  // ---- What goes out ----

  function Pairs(sends: seq<Delivery>): seq<(Fd, Msg)> {
    seq(|sends|, i requires 0 <= i < |sends| => (sends[i].to, sends[i].m))
  }

  /** The log says what went out, in order: messages of direction c that were sent, and data to clients. */
  predicate Logged(g: Log, outs: seq<Output>)
    requires LogShaped(g)
  {
    && Pairs(g.sends) == ToClients(outs) && g.got[RealToSimInterest] == Went(outs, RealToSimInterest)
    && g.got[SimToRealInterest] == Went(outs, SimToRealInterest) && g.got[SimToRealData] == Went(outs, SimToRealData)
  }

  lemma WentSnoc(outs: seq<Output>, o: Output, c: Chan)
    ensures Went(outs + [o], c) == Went(outs, c) + if o.Gone? && o.c == c then [o.m] else []
    ensures ToClients(outs + [o]) == ToClients(outs) + if o.Served? then [(FdOf(o.to), o.m)] else []
  {
    assert (outs + [o])[..|outs|] == outs;
  }

  lemma NoteOut(s: State, g: Log, e: Event, c: Chan)
    requires Shaped(s) && LogShaped(g)
    ensures var o, g' := Out(s, e), Note(s, g, e);
            && (c != RealToSimData ==> g'.got[c] == g.got[c] + if o.Gone? && o.c == c then [o.m] else [])
            && Pairs(g'.sends) == Pairs(g.sends) + if o.Served? then [(FdOf(o.to), o.m)] else []
  {
  }

  lemma StepLogged(y: Sys, e: Event, outs: seq<Output>)
    requires Shaped(y.s) && LogShaped(y.g) && Logged(y.g, outs)
    ensures Logged(Advance(y, e).g, outs + [Out(y.s, e)])
  {
    var o := Out(y.s, e);
    WentSnoc(outs, o, RealToSimInterest);
    WentSnoc(outs, o, SimToRealInterest);
    WentSnoc(outs, o, SimToRealData);
    NoteOut(y.s, y.g, e, RealToSimInterest);
    NoteOut(y.s, y.g, e, SimToRealInterest);
    NoteOut(y.s, y.g, e, SimToRealData);
  }

  /** What has gone out: in each direction the messages that were put in, in order; to clients, data put in. */
  lemma OutsAsReceived(bufs: seq<Buf>, junk: Record, run: seq<Event>, outs: seq<Output>, c: Chan, i: nat)
    requires InitOk(bufs) && Logged(After(bufs, junk, run).g, outs)
    ensures c != RealToSimData ==> Went(outs, c) <= After(bufs, junk, run).g.put[c]
    ensures i < |ToClients(outs)| ==> ToClients(outs)[i].1 in After(bufs, junk, run).g.put[RealToSimData]
  {
    FifoChannel(bufs, junk, run, c);
    var g := After(bufs, junk, run).g;
    if i < |ToClients(outs)| {
      assert Pairs(g.sends)[i].1 == g.sends[i].m;
      SentAsReceived(bufs, junk, run, i);
    }
  }

  // ---- Runs, event by event ----

  lemma AfterNone(bufs: seq<Buf>, junk: Record, run: seq<Event>)
    ensures var y := After(bufs, junk, run[..0]); y.s == Init(bufs, junk) && Logged(y.g, [])
  {
    assert run[..0] == [];
  }

  lemma AfterNext(bufs: seq<Buf>, junk: Record, run: seq<Event>, i: nat)
    requires i < |run|
    ensures After(bufs, junk, run[..i + 1]) == Advance(After(bufs, junk, run[..i]), run[i])
  {
    assert run[..i + 1] == run[..i] + [run[i]];
    AfterSnoc(bufs, junk, run[..i], run[i]);
  }

  /** A fault stays. */
  lemma {:induction false} FaultStays(bufs: seq<Buf>, junk: Record, run: seq<Event>, i: nat)
    requires i <= |run| && After(bufs, junk, run[..i]).s.fault
    ensures After(bufs, junk, run).s.fault
    decreases |run| - i
  {
    if i == |run| {
      assert run[..i] == run;
    } else {
      AfterNext(bufs, junk, run, i);
      FaultStays(bufs, junk, run, i + 1);
    }
  }

  /** Where a run ends without a fault, no turn of the send loop met a stale pointer. */
  lemma NeverStale(bufs: seq<Buf>, junk: Record, run: seq<Event>, i: nat)
    requires InitOk(bufs) && i < |run| && !After(bufs, junk, run).s.fault
    ensures run[i].Serve? ==> !Stale(After(bufs, junk, run[..i]).s)
  {
    RunInv(bufs, junk, run[..i]);
    AfterNext(bufs, junk, run, i);
    if run[i].Serve? && Stale(After(bufs, junk, run[..i]).s) {
      ServeFaults(After(bufs, junk, run[..i]).s);
      FaultStays(bufs, junk, run, i + 1);
    }
  }

  // ---- The send loop on its own ----

  function Serves(y: Sys, n: nat): (y': Sys)
    requires Shaped(y.s) && LogShaped(y.g)
    ensures Shaped(y'.s) && LogShaped(y'.g)
    decreases n
  {
    if n == 0 then y else Serves(Advance(y, Serve), n - 1)
  }

  /** One answer to every address from place i on. */
  function Answers(n: nat, addrs: seq<SockAddr>, i: nat, m: Msg): seq<Delivery>
    decreases |addrs| - i
  {
    if i < |addrs| then [Delivery(n, FdOf(addrs[i]), m)] + Answers(n, addrs, i + 1, m) else []
  }

  /** One turn: the next client is answered, or the name is forgotten and the buffer freed. */
  lemma TurnEffect(y: Sys)
    requires Inv(y) && y.s.hold[RealToSimData].Serving? && !Broken(y.s)
    ensures var h, y' := y.s.hold[RealToSimData], Advance(y, Serve);
            var addrs, n, m := y.s.table[h.key], |y.g.got[RealToSimData]|, Content(y.s.mem, RealToSimData, h.b);
            && Inv(y') && !Broken(y'.s) && y'.g.got == y.g.got && y'.s.mem == y.s.mem
            && y'.s.hold == y.s.hold[RealToSimData := if h.i < |addrs| then h.(i := h.i + 1) else Nothing]
            && y'.s.table == (if h.i < |addrs| then y.s.table else y.s.table - {h.key})
            && y'.s.free == (if h.i < |addrs| then y.s.free else y.s.free + [h.b])
            && y'.g.sends == y.g.sends + if h.i < |addrs| then [Delivery(n, FdOf(addrs[h.i]), m)] else []
  {
    StepInv(y, Serve);
  }

  predicate Finished(y: Sys, y': Sys, h: Hold, addrs: seq<SockAddr>, n: nat, m: Msg)
    requires h.Serving?
  {
    && y'.s.table == y.s.table - {h.key} && y'.s.free == y.s.free + [h.b]
    && y'.s.hold == y.s.hold[RealToSimData := Nothing]
    && y'.g.sends == y.g.sends + Answers(n, addrs, h.i, m)
  }

  lemma TurnsAdd(y: Sys, y1: Sys, y': Sys, h: Hold, addrs: seq<SockAddr>, n: nat, m: Msg)
    requires h.Serving? && h.i < |addrs| && y1.s.table == y.s.table && y1.s.free == y.s.free
    requires y1.s.hold == y.s.hold[RealToSimData := h.(i := h.i + 1)]
    requires y1.g.sends == y.g.sends + [Delivery(n, FdOf(addrs[h.i]), m)]
    requires Finished(y1, y', h.(i := h.i + 1), addrs, n, m)
    ensures Finished(y, y', h, addrs, n, m)
  {
    assert y.g.sends + [Delivery(n, FdOf(addrs[h.i]), m)] + Answers(n, addrs, h.i + 1, m)
        == y.g.sends + ([Delivery(n, FdOf(addrs[h.i]), m)] + Answers(n, addrs, h.i + 1, m));
  }

  /** Run to its end, the send loop answers the remaining clients, forgets the name and frees the buffer. */
  lemma {:induction false} ServesAll(y: Sys)
    requires Inv(y) && y.s.hold[RealToSimData].Serving? && !Broken(y.s)
    ensures var h := y.s.hold[RealToSimData];
            var addrs, n, m := y.s.table[h.key], |y.g.got[RealToSimData]|, Content(y.s.mem, RealToSimData, h.b);
            Finished(y, Serves(y, |addrs| - h.i + 1), h, addrs, n, m)
    decreases |y.s.table[y.s.hold[RealToSimData].key]| - y.s.hold[RealToSimData].i
  {
    var h := y.s.hold[RealToSimData];
    var addrs, n, m := y.s.table[h.key], |y.g.got[RealToSimData]|, Content(y.s.mem, RealToSimData, h.b);
    var y1 := Advance(y, Serve);
    TurnEffect(y);
    if h.i < |addrs| {
      ServesAll(y1);
      TurnsAdd(y, y1, Serves(y1, |addrs| - h.i), h, addrs, n, m);
    } else {
      assert Serves(y1, 0) == y1;
    }
  }
}
