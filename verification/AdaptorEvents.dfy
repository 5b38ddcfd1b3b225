/**
 The laws of the adaptor in terms of what comes in: every message that goes out is traced to the NIP message
 or the datagram that brought it, an interest to its place in the table, and what waits can be delivered.
 */
module AdaptorEvents {
  import opened NameTable
  import opened AdaptorModel
  import opened AdaptorProofs
  import opened AdaptorAccounts
  import opened AdaptorTheorems

  // ---- What an arrival puts into its queue ----

  /** The log with one more message put into direction c. */
  predicate PutOne(g: Log, g': Log, c: Chan, m: Msg)
    requires LogShaped(g) && LogShaped(g')
  {
    && g'.put[c] == g.put[c] + [m] && (forall d: Chan | d != c :: g'.put[d] == g.put[d])
    && g'.got == g.got && g'.sends == g.sends
  }

  /**
   A NIP message that fits a buffer is put into its queue: data as it is, and an interest or a nack as a
   name without data.
   */
  lemma NipArrives(bufs: seq<Buf>, junk: Record, run: seq<Event>, c: Chan, m: Msg, nack: bool, spare: Malloc)
    requires c == RealToSimData || c == RealToSimInterest
    requires var s := After(bufs, junk, run).s; !s.fault && spare.b !in s.mem
    requires |m.name| + (if c == RealToSimData && !nack then |m.data| else 0) <= BUFSIZE
    ensures var g, g' := After(bufs, junk, run).g, After(bufs, junk, run + [NipIn(c, m, nack, spare)]).g;
            && g'.accepted == g.accepted
            && (c == RealToSimData && !nack ==> PutOne(g, g', c, m))
            && (c == RealToSimData && nack ==> PutOne(g, g', c, Msg(m.name, [])))
            && (c == RealToSimInterest ==> PutOne(g, g', c, Msg(m.name, [])))
  {
    hide After, Step;
    AfterSnoc(bufs, junk, run, NipIn(c, m, nack, spare));
  }

  /** A data datagram is put into its queue as the name and the data that it holds. */
  lemma DataArrives(bufs: seq<Buf>, junk: Record, run: seq<Event>, d: Datagram, spare: Malloc)
    requires var s := After(bufs, junk, run).s; !s.fault && spare.b !in s.mem
    requires d.nlen + d.dlen <= |d.bytes| <= BUFSIZE
    ensures var g, g' := After(bufs, junk, run).g, After(bufs, junk, run + [UdpDataIn(d, spare)]).g;
            && PutOne(g, g', SimToRealData, Msg(d.bytes[..d.nlen], d.bytes[d.nlen..d.nlen + d.dlen]))
            && g'.accepted == g.accepted
  {
    hide After, Step;
    AfterSnoc(bufs, junk, run, UdpDataIn(d, spare));
  }

  // ---- What an interest does ----

  /** The client is listed for the name, at a place from lo on and before hi. */
  ghost predicate ListedIn(t: Table, key: Key, lo: nat, hi: nat, a: SockAddr) {
    key in t && exists i | lo <= i < hi && i < |t[key]| :: t[key][i].ip == a.ip && t[key][i].port == a.port
  }

  /** Eight others are listed for the name. */
  ghost predicate Crowded(t: Table, key: Key, a: SockAddr) {
    && key in t && |t[key]| == MAX_ADDR_PERNAME
    && forall i | 0 <= i < |t[key]| :: t[key][i].ip != a.ip || t[key][i].port != a.port
  }

  /** How many of the clients of a name the send loop has served. */
  function ServedOf(s: State, key: Key): nat
    requires Shaped(s)
  {
    var h := s.hold[RealToSimData];
    if h.Serving? && h.key == key then h.i else 0
  }

  /** What is known once an interest has come in, for the states and logs before and after. */
  ghost predicate Asks(y: Sys, y': Sys, key: Key, a: SockAddr, m: Msg)
    requires Shaped(y.s) && LogShaped(y.g) && Shaped(y'.s) && LogShaped(y'.g)
  {
    var known := key in y.s.table && ListedIn(y.s.table, key, 0, |y.s.table[key]|, a);
    && y'.s.hold == y.s.hold
    && (!known && !Crowded(y.s.table, key, a) ==>
          && PutOne(y.g, y'.g, SimToRealInterest, m)
          && y'.g.accepted == y.g.accepted + multiset{(key, (a.ip, a.port))}
          && key in y'.s.table && y'.s.table[key] == (if key in y.s.table then y.s.table[key] else []) + [a])
    && (known || Crowded(y.s.table, key, a) ==> y'.g == y.g && y'.s.table == y.s.table)
    && (forall k | k != key ::
          (k in y'.s.table <==> k in y.s.table) && (k in y.s.table ==> y'.s.table[k] == y.s.table[k]))
  }

  lemma InterestState(s: State, d: Datagram, a: SockAddr, spare: Malloc)
    requires Shaped(s) && !s.fault && spare.b !in s.mem && WellFormed(d)
    ensures var s' := Step(s, UdpInterestIn(d, a, spare));
            s'.table == SetTable(s.table, KeyOf(d.bytes[..d.nlen]), a) && s'.hold == s.hold
  {
    hide SetAnswer, SetTable, KeyOf, Copied, Was;
  }

  lemma InterestNote(s: State, g: Log, d: Datagram, a: SockAddr, spare: Malloc)
    requires Shaped(s) && LogShaped(g) && !s.fault && spare.b !in s.mem && WellFormed(d)
    ensures var g', key := Note(s, g, UdpInterestIn(d, a, spare)), KeyOf(d.bytes[..d.nlen]);
            if SetAnswer(s.table, key, a) == 1
            then PutOne(g, g', SimToRealInterest, Msg(d.bytes[..d.nlen], []))
                 && g'.accepted == g.accepted + multiset{(key, (a.ip, a.port))}
            else g' == g
  {
    hide SetAnswer, KeyOf;
  }

  lemma AnswersOne(t: Table, key: Key, a: SockAddr)
    ensures SetAnswer(t, key, a) == 1 <==> !(key in t && ListedIn(t, key, 0, |t[key]|, a)) && !Crowded(t, key, a)
  {
    SetIsRight(t, key, a);
    hide SetAnswer, SetTable;
  }

  lemma InterestAsks(y: Sys, d: Datagram, a: SockAddr, spare: Malloc)
    requires Shaped(y.s) && LogShaped(y.g) && !y.s.fault && spare.b !in y.s.mem && WellFormed(d)
    ensures Asks(y, Advance(y, UdpInterestIn(d, a, spare)), KeyOf(d.bytes[..d.nlen]), a, Msg(d.bytes[..d.nlen], []))
  {
    hide Step, Note, SetAnswer, SetTable, KeyOf, ListedIn, Crowded, PutOne;
    var key := KeyOf(d.bytes[..d.nlen]);
    InterestState(y.s, d, a, spare);
    InterestNote(y.s, y.g, d, a, spare);
    AnswersOne(y.s.table, key, a);
    SetIsRight(y.s.table, key, a);
  }

  lemma AskedPlace(y: Sys, y': Sys, key: Key, a: SockAddr, m: Msg)
    requires Inv(y) && Shaped(y'.s) && LogShaped(y'.g) && Asks(y, y', key, a, m)
    ensures var t', n := y'.s.table, ServedOf(y'.s, key);
            key in t' && (ListedIn(t', key, n, |t'[key]|, a) || ListedIn(t', key, 0, n, a) || Crowded(t', key, a))
  {
    var t, t', n := y.s.table, y'.s.table, ServedOf(y.s, key);
    if key in t && ListedIn(t, key, 0, |t[key]|, a) {
      var i :| 0 <= i < |t[key]| && t[key][i].ip == a.ip && t[key][i].port == a.port;
      assert ListedIn(t', key, n, |t'[key]|, a) || ListedIn(t', key, 0, n, a);
    } else if !Crowded(t, key, a) {
      assert ServeOk(y.s, y.s.hold[RealToSimData]);
      assert t'[key][|t'[key]| - 1] == a;
      assert ListedIn(t', key, n, |t'[key]|, a);
    }
  }

  /**
   An interest that comes in is accepted, its client listed for the name and the name passed on without data,
   exactly if the client is not listed yet and fewer than eight are; else nothing changes.  Afterwards the
   client waits for the name, or the running send loop has just served it, or eight others are listed.
   */
  lemma InterestArrives(bufs: seq<Buf>, junk: Record, run: seq<Event>, d: Datagram, a: SockAddr, spare: Malloc)
    requires InitOk(bufs) && d.nlen + d.dlen <= |d.bytes| <= BUFSIZE
    requires var s := After(bufs, junk, run).s; !s.fault && spare.b !in s.mem
    ensures var y, y' := After(bufs, junk, run), After(bufs, junk, run + [UdpInterestIn(d, a, spare)]);
            var key, t', n := KeyOf(d.bytes[..d.nlen]), y'.s.table, ServedOf(y'.s, KeyOf(d.bytes[..d.nlen]));
            && Asks(y, y', key, a, Msg(d.bytes[..d.nlen], [])) && key in t'
            && (ListedIn(t', key, n, |t'[key]|, a) || ListedIn(t', key, 0, n, a) || Crowded(t', key, a))
  {
    var y, e := After(bufs, junk, run), UdpInterestIn(d, a, spare);
    hide After, Inv, Asks, Advance, KeyOf, ServedOf, ListedIn, Crowded;
    RunInv(bufs, junk, run);
    AfterSnoc(bufs, junk, run, e);
    InterestAsks(y, d, a, spare);
    AskedPlace(y, Advance(y, e), KeyOf(d.bytes[..d.nlen]), a, Msg(d.bytes[..d.nlen], []));
  }

  // ---- Every message came in ----

  /** Event e, let in in state s, brings message m of direction c. */
  predicate Brings(s: State, e: Event, c: Chan, m: Msg) {
    && !s.fault && Admitted(s.mem, e)
    && match e
       case NipIn(k, x, nack, _) =>
         && k == c
         && if c == RealToSimData && !nack then m == x
            else (c == RealToSimData || c == RealToSimInterest) && m == Msg(x.name, [])
       case UdpDataIn(d, _) => c == SimToRealData && m == Msg(d.bytes[..d.nlen], d.bytes[d.nlen..d.nlen + d.dlen])
       case UdpInterestIn(d, _, _) => c == SimToRealInterest && m == Msg(d.bytes[..d.nlen], [])
       case _ => false
  }

  lemma NotePuts(s: State, g: Log, e: Event, c: Chan)
    requires Shaped(s) && LogShaped(g)
    ensures var p, p' := g.put[c], Note(s, g, e).put[c];
            p' == p || (|p'| == |p| + 1 && p' == p + [p'[|p|]] && Brings(s, e, c, p'[|p|]))
  {
  }

  /** After the first j events k messages had been put into direction c, and event j brings m as the next. */
  predicate BringsAt(bufs: seq<Buf>, junk: Record, run: seq<Event>, c: Chan, j: nat, k: nat, m: Msg)
    requires j < |run|
  {
    var y := After(bufs, junk, run[..j]);
    |y.g.put[c]| == k && Brings(y.s, run[j], c, m)
  }

  /** The k-th message put into a direction is the one that the k-th event to bring one there brought. */
  lemma {:induction false} PutFrom(bufs: seq<Buf>, junk: Record, run: seq<Event>, c: Chan, k: nat) returns (j: nat)
    requires k < |After(bufs, junk, run).g.put[c]|
    ensures j < |run| && BringsAt(bufs, junk, run, c, j, k, After(bufs, junk, run).g.put[c][k])
    decreases |run|
  {
    hide After, Step, Note, Brings;
    if run == [] {
      NothingYet(bufs, junk, c);
      assert false;
    } else {
      var rest, e := run[..|run| - 1], run[|run| - 1];
      assert run == rest + [e];
      AfterSnoc(bufs, junk, rest, e);
      var y := After(bufs, junk, rest);
      NotePuts(y.s, y.g, e, c);
      if k < |y.g.put[c]| {
        j := PutFrom(bufs, junk, rest, c, k);
        assert run[..j] == rest[..j];
      } else {
        j := |rest|;
        assert run[..j] == rest;
      }
    }
  }

  lemma NothingYet(bufs: seq<Buf>, junk: Record, c: Chan)
    ensures After(bufs, junk, []).g.put[c] == []
  {
  }

  /**
   What a client is sent, across the yields of the send loop, is byte for byte the data message that an event
   of the run brought from the real network, and has no content only if that was a nack or had none.
   */
  lemma SentAsBrought(bufs: seq<Buf>, junk: Record, run: seq<Event>, i: nat) returns (j: nat)
    requires InitOk(bufs) && i < |After(bufs, junk, run).g.sends|
    ensures var x := After(bufs, junk, run).g.sends[i];
            && j < |run| && run[j].NipIn? && run[j].c == RealToSimData && 1 <= x.n
            && |After(bufs, junk, run[..j]).g.put[RealToSimData]| == x.n - 1
            && x.m == if run[j].nack then Msg(run[j].m.name, []) else run[j].m
  {
    hide After;
    SentAsReceived(bufs, junk, run, i);
    j := PutFrom(bufs, junk, run, RealToSimData, After(bufs, junk, run).g.sends[i].n - 1);
  }

  /**
   The k-th message that leaves in one of the other directions is the k-th that came in there: the name and
   data of a datagram, or the name alone of an interest from either network.
   */
  lemma GoneAsBrought(bufs: seq<Buf>, junk: Record, run: seq<Event>, outs: seq<Output>, c: Chan, k: nat)
      returns (j: nat)
    requires InitOk(bufs) && Logged(After(bufs, junk, run).g, outs) && c != RealToSimData && k < |Went(outs, c)|
    ensures j < |run| && BringsAt(bufs, junk, run, c, j, k, Went(outs, c)[k])
  {
    hide After, Went, BringsAt;
    OutsAsReceived(bufs, junk, run, outs, c, 0);
    j := PutFrom(bufs, junk, run, c, k);
  }

  // ---- What waits can be delivered ----

  /** One direction with a message waiting and an idle reader. */
  predicate Ready(s: State, c: Chan)
    requires Shaped(s)
  {
    !s.fault && s.hold[c] == Nothing && s.queue[c] != []
  }

  /** The oldest message in a direction is in the buffer at the front of its queue. */
  lemma OldestWaits(y: Sys, c: Chan)
    requires Inv(y) && Ready(y.s, c)
    ensures |y.g.got[c]| < |y.g.put[c]| && Content(y.s.mem, c, y.s.queue[c][0]) == y.g.put[c][|y.g.got[c]|]
  {
    hide Content;
    assert Channel(y.s, y.g, c);
  }

  lemma SendReturn(y: Sys, c: Chan, b: Buf)
    requires Shaped(y.s) && LogShaped(y.g) && !y.s.fault && y.s.hold[c] == Loaded(b)
    ensures var y1, m := Advance(y, Send(c)), Content(y.s.mem, c, b);
            var y2 := Advance(y1, Return(c));
            && Out(y.s, Send(c)) == Gone(c, m)
            && y2.g == y.g.(got := y.g.got[c := y.g.got[c] + [m]])
            && y2.s == y.s.(hold := y.s.hold[c := Nothing], free := y.s.free + [b])
  {
    hide Content;
    assert Advance(y, Send(c)).s == y.s.(hold := y.s.hold[c := Sent(b)]);
    assert y.s.hold[c := Sent(b)][c := Nothing] == y.s.hold[c := Nothing];
  }

  lemma TakesOther(y: Sys, c: Chan)
    requires Shaped(y.s) && LogShaped(y.g) && Ready(y.s, c) && c != RealToSimData
    ensures var q := y.s.queue[c];
            Advance(y, Take(c)) == Sys(y.s.(queue := y.s.queue[c := q[1..]], hold := y.s.hold[c := Loaded(q[0])]), y.g)
  {
  }

  lemma TakeSendReturn(y: Sys, c: Chan)
    requires Shaped(y.s) && LogShaped(y.g) && Ready(y.s, c) && c != RealToSimData
    ensures var b := y.s.queue[c][0];
            var y1, m := Advance(y, Take(c)), Content(y.s.mem, c, b);
            var y2 := Advance(y1, Send(c));
            var y3 := Advance(y2, Return(c));
            && Out(y1.s, Send(c)) == Gone(c, m)
            && y3.g == y.g.(got := y.g.got[c := y.g.got[c] + [m]])
            && y3.s == y.s.(queue := y.s.queue[c := y.s.queue[c][1..]], free := y.s.free + [b])
  {
    var b := y.s.queue[c][0];
    TakesOther(y, c);
    hide Step, Note, Out, Content;
    SendReturn(Advance(y, Take(c)), c, b);
    assert y.s.hold[c := Loaded(b)][c := Nothing] == y.s.hold;
  }

  /**
   A waiting message can be delivered.  In the directions other than to the clients, Take, Send and Return by
   an idle reader send the oldest message that was not sent yet, free its buffer and leave the reader idle.
   */
  lemma Delivers(bufs: seq<Buf>, junk: Record, run: seq<Event>, c: Chan)
    requires InitOk(bufs) && Ready(After(bufs, junk, run).s, c) && c != RealToSimData
    ensures var y, y' := After(bufs, junk, run), After(bufs, junk, run + [Take(c)] + [Send(c)] + [Return(c)]);
            && |y.g.got[c]| < |y.g.put[c]|
            && Out(After(bufs, junk, run + [Take(c)]).s, Send(c)) == Gone(c, y.g.put[c][|y.g.got[c]|])
            && y'.g == y.g.(got := y.g.got[c := y.g.got[c] + [y.g.put[c][|y.g.got[c]|]]])
            && y'.s == y.s.(queue := y.s.queue[c := y.s.queue[c][1..]], free := y.s.free + [y.s.queue[c][0]])
  {
    hide After, Inv, Advance, Out, Content;
    RunInv(bufs, junk, run);
    OldestWaits(After(bufs, junk, run), c);
    TakeSendReturn(After(bufs, junk, run), c);
    AfterSnoc(bufs, junk, run, Take(c));
    AfterSnoc(bufs, junk, run + [Take(c)], Send(c));
    AfterSnoc(bufs, junk, run + [Take(c)] + [Send(c)], Return(c));
  }

  lemma {:induction false} AnswersAt(n: nat, addrs: seq<SockAddr>, i: nat, m: Msg)
    requires i <= |addrs|
    ensures var r := Answers(n, addrs, i, m);
            |r| == |addrs| - i && forall j | 0 <= j < |r| :: r[j] == Delivery(n, FdOf(addrs[i + j]), m)
    decreases |addrs| - i
  {
    if i < |addrs| { AnswersAt(n, addrs, i + 1, m); }
  }

  /** A send loop is started on the oldest data message, or the message is given up as nobody waits for it. */
  lemma TakesData(y: Sys)
    requires Shaped(y.s) && LogShaped(y.g) && Ready(y.s, RealToSimData)
    ensures var b, y' := y.s.queue[RealToSimData][0], Advance(y, Take(RealToSimData));
            var m := Content(y.s.mem, RealToSimData, b);
            var key, s1 := KeyOf(m.name), y.s.(queue := y.s.queue[RealToSimData := y.s.queue[RealToSimData][1..]]);
            && y'.g == y.g.(got := y.g.got[RealToSimData := y.g.got[RealToSimData] + [m]])
            && y'.s == if key in y.s.table
                       then s1.(hold := y.s.hold[RealToSimData := Serving(b, key, y.s.cap, 0)])
                       else s1.(dropped := y.s.dropped + [b])
  {
    hide Content, KeyOf;
  }

  /** What it comes to when the reader of data takes message m out of buffer b and serves it to the end. */
  predicate ServedToAll(y: Sys, y': Sys, b: Buf, m: Msg)
    requires Shaped(y.s) && LogShaped(y.g)
  {
    var key, n := KeyOf(m.name), |y.g.sends|;
    && key in y.s.table && y'.s.table == y.s.table - {key} && y'.s.free == y.s.free + [b] && y'.s.hold == y.s.hold
    && |y'.g.sends| == n + |y.s.table[key]| && y'.g.sends[..n] == y.g.sends
    && forall i | 0 <= i < |y.s.table[key]| ::
         && y'.g.sends[n + i].to == (y.s.table[key][i].ip, y.s.table[key][i].port)
         && y'.g.sends[n + i].m == m
  }

  lemma FinishedAll(y: Sys, y1: Sys, y': Sys, b: Buf, key: Key, n: nat, m: Msg)
    requires Shaped(y.s) && LogShaped(y.g) && key in y.s.table && key == KeyOf(m.name)
    requires y1.s.table == y.s.table && y1.s.free == y.s.free && y1.g.sends == y.g.sends
    requires y1.s.hold == y.s.hold[RealToSimData := Serving(b, key, y.s.cap, 0)]
    requires y.s.hold[RealToSimData] == Nothing
    requires Finished(y1, y', Serving(b, key, y.s.cap, 0), y.s.table[key], n, m)
    ensures ServedToAll(y, y', b, m)
  {
    AnswersAt(n, y.s.table[key], 0, m);
    assert y.s.hold[RealToSimData := Serving(b, key, y.s.cap, 0)][RealToSimData := Nothing] == y.s.hold;
  }

  /**
   Data for a name that clients wait for can be delivered: with the reader idle, a Take and as many turns of
   the loop as there are clients, and one, send the oldest message once to each client, in the order of their
   interests, forget the name and free the buffer.
   */
  lemma DeliversData(bufs: seq<Buf>, junk: Record, run: seq<Event>)
    requires InitOk(bufs) && Ready(After(bufs, junk, run).s, RealToSimData)
    ensures var y, y1 := After(bufs, junk, run), After(bufs, junk, run + [Take(RealToSimData)]);
            && |y.g.got[RealToSimData]| < |y.g.put[RealToSimData]|
            && var m := y.g.put[RealToSimData][|y.g.got[RealToSimData]|];
               if KeyOf(m.name) in y.s.table
               then ServedToAll(y, Serves(y1, |y.s.table[KeyOf(m.name)]| + 1), y.s.queue[RealToSimData][0], m)
               else y1.g.sends == y.g.sends && y1.s.dropped == y.s.dropped + [y.s.queue[RealToSimData][0]]
  {
    var y, y1 := After(bufs, junk, run), After(bufs, junk, run + [Take(RealToSimData)]);
    hide After, Inv, Advance, Content, KeyOf, ServedToAll, Finished;
    RunInv(bufs, junk, run);
    RunInv(bufs, junk, run + [Take(RealToSimData)]);
    OldestWaits(y, RealToSimData);
    AfterSnoc(bufs, junk, run, Take(RealToSimData));
    TakesData(y);
    var b, m := y.s.queue[RealToSimData][0], y.g.put[RealToSimData][|y.g.got[RealToSimData]|];
    if KeyOf(m.name) in y.s.table {
      ServesAll(y1);
      var n := |y.s.table[KeyOf(m.name)]|;
      FinishedAll(y, y1, Serves(y1, n + 1), b, KeyOf(m.name), |y1.g.got[RealToSimData]|, m);
    }
  }

  // ---- How many buffers are allocated ----

  /** The buffers that are queued, held or lost. */
  function InUse(s: State): nat
    requires Shaped(s)
  {
    Queued(s) + Hands(s) + |s.dropped|
  }

  lemma StepFrugal(s: State, e: Event)
    requires Shaped(s) && OneOwner(s)
    ensures var s' := Step(s, e); s'.mem.Keys == s.mem.Keys || s'.free == []
  {
    if s.free != [] {
      TimesIn(s.free, s.free[0]);
      assert Owned(s, s.free[0]);
      hide OneOwner;
    }
  }

  /** malloc is called only when no buffer is free: never more are allocated than once were in use, or 16. */
  lemma {:induction false} PoolBound(bufs: seq<Buf>, junk: Record, run: seq<Event>, most: nat)
    requires InitOk(bufs) && POOLED <= most
    requires forall i | 0 <= i <= |run| :: InUse(After(bufs, junk, run[..i]).s) <= most
    ensures |After(bufs, junk, run).s.mem| <= most
    decreases |run|
  {
    hide After, Step, Queued, Hands;
    assert run[..|run|] == run;
    RunAllocated(bufs, junk, run);
    if run == [] {
      StartAllocated(bufs, junk);
    } else {
      var rest, e := run[..|run| - 1], run[|run| - 1];
      assert run == rest + [e];
      forall i | 0 <= i <= |rest| ensures rest[..i] == run[..i] {}
      PoolBound(bufs, junk, rest, most);
      AfterSnoc(bufs, junk, rest, e);
      RunInv(bufs, junk, rest);
      StepFrugal(After(bufs, junk, rest).s, e);
      var m, m' := After(bufs, junk, rest).s.mem, After(bufs, junk, run).s.mem;
      assert m'.Keys == m.Keys ==> |m'| == |m.Keys| == |m|;
    }
  }

  lemma RunAllocated(bufs: seq<Buf>, junk: Record, run: seq<Event>)
    requires InitOk(bufs)
    ensures var s := After(bufs, junk, run).s; |s.mem| == |s.free| + InUse(s)
  {
    BufferAccount(bufs, junk, run);
  }

  lemma StartAllocated(bufs: seq<Buf>, junk: Record)
    requires InitOk(bufs)
    ensures |After(bufs, junk, []).s.mem| == POOLED
  {
    BufferAccount(bufs, junk, []);
  }
}
