/** A run of the adaptor in which udp_data_out uses a nut_entry pointer after nut_grow has freed the entry. */
module AdaptorFault {
  import opened NameTable
  import opened AdaptorModel
  import opened AdaptorProofs
  import opened AdaptorAccounts
  import opened AdaptorTheorems

  const CLIENT: SockAddr := SockAddr(1, 1, 0)

  /** A one-byte name. */
  function Name(i: nat): Key
    requires i < 256
  {
    [i as Byte]
  }

  /** An interest for it. */
  function Interest(i: nat): (d: Datagram)
    requires i < 256
    ensures WellFormed(d) && KeyOf(Meaning(d).name) == Name(i)
  {
    var d := Datagram(1, 0, Name(i));
    assert d.bytes[..1] == Name(i);
    d
  }

  lemma {:induction false} Above(used: set<Buf>) returns (b: Buf)
    ensures forall x | x in used :: x < b
    decreases used
  {
    b := 0;
    if x: Buf :| x in used {
      var c := Above(used - {x});
      b := if c <= x then x + 1 else c;
      forall y | y in used ensures y < b { assert y == x || y in used - {x}; }
    }
  }

  /** An address that malloc may return. */
  lemma SomeSpare(s: State, junk: Record) returns (spare: Malloc)
    ensures spare.b !in s.mem
  {
    var b := Above(s.mem.Keys);
    spare := Malloc(b, junk);
  }

  /** The names 0 to n - 1 are pending, and udp_data_out is idle. */
  predicate Filled(s: State, n: nat) {
    && Shaped(s) && !s.fault && s.hold[RealToSimData] == Nothing && s.queue[RealToSimData] == []
    && |s.table| == n == s.peak && s.cap == INITCAP
    && forall i: nat | i < 256 :: Name(i) in s.table <==> i < n
  }

  lemma FillStep(s: State, n: nat, spare: Malloc)
    requires Filled(s, n) && n < INITCAP && spare.b !in s.mem
    ensures Filled(Step(s, UdpInterestIn(Interest(n), CLIENT, spare)), n + 1)
  {
  }

  lemma {:induction false} Fill(bufs: seq<Buf>, junk: Record, n: nat) returns (run: seq<Event>)
    requires n <= INITCAP
    ensures Filled(After(bufs, junk, run).s, n)
  {
    if n == 0 {
      run := [];
    } else {
      run := Fill(bufs, junk, n - 1);
      var s := After(bufs, junk, run).s;
      var spare := SomeSpare(s, junk);
      var e := UdpInterestIn(Interest(n - 1), CLIENT, spare);
      FillStep(s, n - 1, spare);
      AfterSnoc(bufs, junk, run, e);
      run := run + [e];
    }
  }

  /** The table is full, and udp_data_out is in its send loop. */
  predicate Primed(s: State) {
    && Shaped(s) && !Broken(s) && s.hold[RealToSimData].Serving?
    && |s.table| == s.cap && Name(INITCAP) !in s.table
  }

  /** Data for the name 0 is queued. */
  predicate Arrived(s: State, b: Buf) {
    && Shaped(s) && !s.fault && s.hold[RealToSimData] == Nothing && s.queue[RealToSimData] == [b]
    && DataKey(s.mem, b) == Name(0) && Name(0) in s.table && |s.table| == s.cap && Name(INITCAP) !in s.table
  }

  lemma DataArrives(s: State, m: Msg, spare: Malloc)
    requires Filled(s, INITCAP) && spare.b !in s.mem && m == Msg(Name(0), [])
    ensures Arrived(Step(s, NipIn(RealToSimData, m, false, spare)), Obtained(s, spare))
  {
    PackUnpack(Was(s, spare), m);
  }

  lemma TakePrimes(s: State, b: Buf)
    requires Arrived(s, b)
    ensures Primed(Step(s, Take(RealToSimData)))
  {
  }

  /** 32 interests for different names, and data for one of them that udp_data_out has taken. */
  lemma Prime(bufs: seq<Buf>, junk: Record) returns (run: seq<Event>)
    ensures Primed(After(bufs, junk, run).s)
  {
    run := Fill(bufs, junk, INITCAP);
    var s := After(bufs, junk, run).s;
    var spare := SomeSpare(s, junk);
    var e := NipIn(RealToSimData, Msg(Name(0), []), false, spare);
    DataArrives(s, Msg(Name(0), []), spare);
    AfterSnoc(bufs, junk, run, e);
    TakePrimes(Step(s, e), Obtained(s, spare));
    AfterSnoc(bufs, junk, run + [e], Take(RealToSimData));
    run := run + [e] + [Take(RealToSimData)];
  }

  /** From any init_adaptor: a 33rd name arrives during the send loop, and its next turn uses freed memory. */
  lemma PointerFault(bufs: seq<Buf>, junk: Record) returns (run: seq<Event>, e: Event)
    requires InitOk(bufs)
    ensures !Broken(After(bufs, junk, run).s) && Overruns(After(bufs, junk, run).s, e)
    ensures After(bufs, junk, run + [e] + [Serve]).s.fault
  {
    run := Prime(bufs, junk);
    var s := After(bufs, junk, run).s;
    var spare := SomeSpare(s, junk);
    e := UdpInterestIn(Interest(INITCAP), CLIENT, spare);
    StaleNext(bufs, junk, run, e);
  }
}
