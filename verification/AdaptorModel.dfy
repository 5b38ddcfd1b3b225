/**
 The adaptor (adaptor/adaptor.c, udp_adaptor.c, nip_adaptor.c): eight coroutines around five queues,
 a recycled pool of message buffers and the pending-interest table.  A step is what one coroutine does
 between two points where it may yield.  The queues and the table appear as the sequences and the map
 they are proved to be in LfqContext and NameTableArray.
 */
module AdaptorModel {
  import opened NameTable

  type Buf = int

  const BUFSIZE: nat := 2040
  const POOLED: nat := 16
  const INITCAP: nat := 32   // what nut_create makes of 64

  /** simple_name_data */
  datatype RawRecord = Record(nlen: nat, dlen: nat, buf: seq<Byte>)

  type Record = r: RawRecord | |r.buf| == BUFSIZE witness Record(0, 0, seq(BUFSIZE, _ => 0))

  datatype Msg = Msg(name: seq<Byte>, data: seq<Byte>)

  /** memcpy to offset at of a buffer */
  function Overwrite(buf: seq<Byte>, at: nat, bytes: seq<Byte>): (r: seq<Byte>)
    requires at + |bytes| <= |buf|
    ensures |r| == |buf|
  {
    buf[..at] + bytes + buf[at + |bytes|..]
  }

  /** What nip_interest_in and nip_data_in write into a buffer that held was. */
  function Pack(was: Record, m: Msg): (r: Record)
    requires |m.name| + |m.data| <= BUFSIZE
  {
    var named := Overwrite(was.buf, 0, m.name);
    Record(|m.name|, |m.data|, Overwrite(named, |m.name|, m.data))
  }

  /** What the sending coroutines read out of a buffer. */
  function Unpack(r: Record): Msg {
    if r.nlen + r.dlen <= BUFSIZE then Msg(r.buf[..r.nlen], r.buf[r.nlen..r.nlen + r.dlen]) else Msg([], [])
  }

  lemma PackUnpack(was: Record, m: Msg)
    requires |m.name| + |m.data| <= BUFSIZE
    ensures Unpack(Pack(was, m)) == m
  {
    var named := Overwrite(was.buf, 0, m.name);
    assert named[..|m.name|] == m.name;
    assert Pack(was, m).buf[..|m.name|] == m.name;
  }

  /** What arrives over NIP and is kept: an interest or a nack has no content. */
  function Kept(c: Chan, m: Msg, nack: bool): Msg {
    if c == RealToSimInterest || nack then Msg(m.name, []) else m
  }

  /** A datagram from a UDP socket: the front of a simple_name_data, copied over the buffer. */
  datatype Datagram = Datagram(nlen: nat, dlen: nat, bytes: seq<Byte>)

  predicate WellFormed(d: Datagram) {
    d.nlen + d.dlen <= |d.bytes| <= BUFSIZE
  }

  function Copied(was: Record, d: Datagram): (r: Record)
    requires WellFormed(d)
  {
    Record(d.nlen, d.dlen, Overwrite(was.buf, 0, d.bytes))
  }

  function Meaning(d: Datagram): Msg
    requires WellFormed(d)
  {
    Msg(d.bytes[..d.nlen], d.bytes[d.nlen..d.nlen + d.dlen])
  }

  lemma CopiedMeaning(was: Record, d: Datagram)
    requires WellFormed(d)
    ensures Unpack(Copied(was, d)) == Meaning(d)
  {
    assert Copied(was, d).buf[..|d.bytes|] == d.bytes;
    assert Copied(was, d).buf[..d.nlen] == d.bytes[..d.nlen];
  }

  // ---- State ----

  /** The four message directions, each a queue with one reader. */
  datatype Chan = RealToSimInterest | SimToRealInterest | SimToRealData | RealToSimData

  /** The buffer a sending coroutine holds across its yields. */
  datatype Hold =
    | Nothing
    | Loaded(b: Buf)                                  // dequeued, not sent
    | Sent(b: Buf)                                    // sent, not yet back in the free list
    | Serving(b: Buf, key: Key, cap: nat, i: nat)     // udp_data_out in its send loop, i addresses done

  datatype State = State(
    mem: map<Buf, Record>,            // every buffer ever allocated
    free: seq<Buf>,
    queue: map<Chan, seq<Buf>>,
    hold: map<Chan, Hold>,
    table: Table,
    peak: nat,                        // largest number of keys so far
    cap: nat,                         // capacity of the table: a nut_entry pointer is good until it changes
    dropped: seq<Buf>,
    fault: bool)                      // a nut_entry pointer was used after a nut_grow

  /** A client address as the table compares it. */
  type Fd = (int, int)

  function FdOf(a: SockAddr): Fd { (a.ip, a.port) }

  const CHANS: set<Chan> := {RealToSimInterest, SimToRealInterest, SimToRealData, RealToSimData}

  lemma AllChans(c: Chan)
    ensures c in CHANS
  {
    match c
    case _ =>
  }

  /** A map with one value for every direction. */
  function Each<T>(v: T): (m: map<Chan, T>)
    ensures forall c: Chan :: c in m && m[c] == v
  {
    assert forall c: Chan :: c in CHANS by { forall c: Chan ensures c in CHANS { AllChans(c); } }
    map c | c in CHANS :: v
  }

  predicate Total<T>(m: map<Chan, T>) { forall c: Chan :: c in m }

  predicate Shaped(s: State) { Total(s.queue) && Total(s.hold) }

  /** init_adaptor: sixteen buffers in the free list, empty queues, an empty table of nut_create(64). */
  function Init(bufs: seq<Buf>, junk: Record): (s: State)
    ensures Shaped(s)
  {
    State(map b | b in bufs :: junk, bufs, Each([]), Each(Nothing), map[], 0, INITCAP, [], false)
  }

  predicate InitOk(bufs: seq<Buf>) {
    |bufs| == POOLED && forall i, j | 0 <= i < j < |bufs| :: bufs[i] != bufs[j]
  }

  // ---- Steps ----

  /** What malloc returns when the free list is empty: an address, with any content. */
  datatype Malloc = Malloc(b: Buf, junk: Record)

  datatype Event =
    | NipIn(c: Chan, m: Msg, nack: bool, spare: Malloc)           // nip_interest_in, nip_data_in
    | UdpDataIn(d: Datagram, spare: Malloc)                       // udp_data_in
    | UdpInterestIn(d: Datagram, a: SockAddr, spare: Malloc)      // udp_interest_in
    | Take(c: Chan)                                               // lfq_dequeue by the reader of c
    | Send(c: Chan)                                               // its send call
    | Return(c: Chan)                                             // its lfq_enqueue to the free list
    | Serve                                                       // one turn of udp_data_out's loop

  /** Well-formed records, and an address from malloc that is not in use.  Nothing else is let in. */
  predicate Admitted(mem: map<Buf, Record>, e: Event) {
    match e
    case NipIn(c, m, nack, spare) =>
      && (c == RealToSimInterest || c == RealToSimData) && spare.b !in mem
      && |Kept(c, m, nack).name| + |Kept(c, m, nack).data| <= BUFSIZE
    case UdpDataIn(d, spare) => WellFormed(d) && spare.b !in mem
    case UdpInterestIn(d, _, spare) => WellFormed(d) && spare.b !in mem
    case _ => true
  }

  predicate Allowed(s: State, e: Event) { Admitted(s.mem, e) }

  /** The buffer that lfq_dequeue(&freebuf_list) or, when that answers NULL, malloc gives. */
  function Obtained(s: State, spare: Malloc): Buf {
    if s.free != [] then s.free[0] else spare.b
  }

  /** What that buffer holds. */
  function Was(s: State, spare: Malloc): Record {
    if s.free != [] && s.free[0] in s.mem then s.mem[s.free[0]] else spare.junk
  }

  /** The state with that buffer out of the free list and r written to it. */
  function Stored(s: State, spare: Malloc, r: Record): State {
    s.(free := if s.free != [] then s.free[1..] else [], mem := s.mem[Obtained(s, spare) := r])
  }

  /** lfq_enqueue to the queue of c */
  function Append(s: State, c: Chan, b: Buf): State
    requires c in s.queue
  {
    s.(queue := s.queue[c := s.queue[c] + [b]])
  }

  function Drop(s: State, b: Buf): State { s.(dropped := s.dropped + [b]) }

  /** nut_set */
  function Asked(s: State, key: Key, a: SockAddr): State {
    s.(table := SetTable(s.table, key, a),
       peak := Max(s.peak, |SetTable(s.table, key, a)|),
       cap := if Grows(s.table, s.peak, s.cap, key) then GrownCap(s.cap) else s.cap)
  }

  /** A message as the reader of c sends it: nip_interest_out leaves the data behind. */
  function OnWire(c: Chan, m: Msg): Msg {
    if c == SimToRealInterest then Msg(m.name, []) else m
  }

  function Content(mem: map<Buf, Record>, c: Chan, b: Buf): Msg {
    if b in mem then OnWire(c, Unpack(mem[b])) else Msg([], [])
  }

  function DataKey(mem: map<Buf, Record>, b: Buf): Key {
    KeyOf(Content(mem, RealToSimData, b).name)
  }

  function InterestIn(s: State, d: Datagram, a: SockAddr, spare: Malloc): State
    requires Shaped(s) && WellFormed(d)
  {
    var key, b := KeyOf(Meaning(d).name), Obtained(s, spare);
    var s1 := Asked(Stored(s, spare, Copied(Was(s, spare), d)), key, a);
    if SetAnswer(s.table, key, a) == 1 then Append(s1, SimToRealInterest, b) else Drop(s1, b)
  }

  function TakeStep(s: State, c: Chan): State
    requires Shaped(s) && s.queue[c] != []
  {
    var b, s1 := s.queue[c][0], s.(queue := s.queue[c := s.queue[c][1..]]);
    var key := DataKey(s.mem, b);
    if c != RealToSimData then s1.(hold := s.hold[c := Loaded(b)])
    else if key in s.table then s1.(hold := s.hold[c := Serving(b, key, s.cap, 0)])
    else Drop(s1, b)
  }

  /** The turn of the send loop, or nut_del and the return of the buffer after the last one. */
  function ServeStep(s: State, h: Hold): State
    requires h.Serving?
  {
    if h.cap != s.cap || h.key !in s.table then s.(fault := true)
    else if h.i < |s.table[h.key]| then s.(hold := s.hold[RealToSimData := h.(i := h.i + 1)])
    else s.(hold := s.hold[RealToSimData := Nothing], table := s.table - {h.key}, free := s.free + [h.b])
  }

  /** A received record goes into the queue of c. */
  function Receive(s: State, c: Chan, spare: Malloc, r: Record): State
    requires Shaped(s)
  {
    Append(Stored(s, spare, r), c, Obtained(s, spare))
  }

  function NipRecord(s: State, c: Chan, m: Msg, nack: bool, spare: Malloc): Record
    requires |Kept(c, m, nack).name| + |Kept(c, m, nack).data| <= BUFSIZE
  {
    Pack(Was(s, spare), Kept(c, m, nack))
  }

  /** A dequeue that may find nothing. */
  function TryTake(s: State, c: Chan): State
    requires Shaped(s)
  {
    if s.hold[c] == Nothing && s.queue[c] != [] then TakeStep(s, c) else s
  }

  function SendStep(s: State, c: Chan): State
    requires Shaped(s)
  {
    if s.hold[c].Loaded? then s.(hold := s.hold[c := Sent(s.hold[c].b)]) else s
  }

  function ReturnStep(s: State, c: Chan): State
    requires Shaped(s)
  {
    if s.hold[c].Sent? then s.(hold := s.hold[c := Nothing], free := s.free + [s.hold[c].b]) else s
  }

  /** One step; what cannot happen changes nothing, and after a fault nothing is said. */
  function Step(s: State, e: Event): (s': State)
    requires Shaped(s)
    ensures Shaped(s')
  {
    if s.fault || !Allowed(s, e) then s else
    match e
    case NipIn(c, m, nack, spare) => Receive(s, c, spare, NipRecord(s, c, m, nack, spare))
    case UdpDataIn(d, spare) => Receive(s, SimToRealData, spare, Copied(Was(s, spare), d))
    case UdpInterestIn(d, a, spare) => InterestIn(s, d, a, spare)
    case Take(c) => TryTake(s, c)
    case Send(c) => SendStep(s, c)
    case Return(c) => ReturnStep(s, c)
    case Serve => if s.hold[RealToSimData].Serving? then ServeStep(s, s.hold[RealToSimData]) else s
  }

  // ---- What goes out ----

  /** What leaves the adaptor at a step: nothing, a message of its direction, or data to one client. */
  datatype Output = Quiet | Gone(c: Chan, m: Msg) | Served(to: SockAddr, m: Msg)

  function Out(s: State, e: Event): Output
    requires Shaped(s)
  {
    if s.fault || !Allowed(s, e) then Quiet else
    match e
    case Send(c) => if s.hold[c].Loaded? then Gone(c, Content(s.mem, c, s.hold[c].b)) else Quiet
    case Serve => OutServe(s, s.hold[RealToSimData])
    case _ => Quiet
  }

  function OutServe(s: State, h: Hold): Output {
    if h.Serving? && h.cap == s.cap && h.key in s.table && h.i < |s.table[h.key]|
    then Served(s.table[h.key][h.i], Content(s.mem, RealToSimData, h.b))
    else Quiet
  }

  /** The messages of direction c among what went out, and the data to clients. */
  function Went(outs: seq<Output>, c: Chan): seq<Msg> {
    if outs == [] then [] else
      var last := outs[|outs| - 1];
      Went(outs[..|outs| - 1], c) + if last.Gone? && last.c == c then [last.m] else []
  }

  function ToClients(outs: seq<Output>): seq<(Fd, Msg)> {
    if outs == [] then [] else
      var last := outs[|outs| - 1];
      ToClients(outs[..|outs| - 1]) + if last.Served? then [(FdOf(last.to), last.m)] else []
  }

  // ---- What happened ----

  /** A data message as it was sent to a client; it is the n-th that left the queue. */
  datatype Delivery = Delivery(n: nat, to: Fd, m: Msg)

  /** Messages put into and taken out of each direction; interests accepted, per client, and data sent to clients. */
  datatype Log = Log(
    put: map<Chan, seq<Msg>>,
    got: map<Chan, seq<Msg>>,
    accepted: multiset<(Key, Fd)>,
    sends: seq<Delivery>)

  /** Under which name, and to whom, a message was sent. */
  function Filing(x: Delivery): (Key, Fd) { (KeyOf(x.m.name), x.to) }

  function Filings(sends: seq<Delivery>): (r: seq<(Key, Fd)>)
    ensures |r| == |sends| && forall i | 0 <= i < |sends| :: r[i] == Filing(sends[i])
  {
    seq(|sends|, i requires 0 <= i < |sends| => Filing(sends[i]))
  }

  /** How often each client was sent data for each name. */
  function Answered(sends: seq<Delivery>): multiset<(Key, Fd)> { multiset(Filings(sends)) }

  predicate LogShaped(g: Log) { Total(g.put) && Total(g.got) }

  function EmptyLog(): (g: Log)
    ensures LogShaped(g)
  {
    Log(Each([]), Each([]), multiset{}, [])
  }

  function Put(g: Log, c: Chan, m: Msg): Log
    requires LogShaped(g)
  {
    g.(put := g.put[c := g.put[c] + [m]])
  }

  function Get(g: Log, c: Chan, m: Msg): Log
    requires LogShaped(g)
  {
    g.(got := g.got[c := g.got[c] + [m]])
  }

  function NoteInterest(s: State, g: Log, d: Datagram, a: SockAddr): Log
    requires Shaped(s) && LogShaped(g) && WellFormed(d)
  {
    var key := KeyOf(Meaning(d).name);
    if SetAnswer(s.table, key, a) == 1
    then
      var g1 := g.(accepted := g.accepted + multiset{(key, FdOf(a))});
      Put(g1, SimToRealInterest, OnWire(SimToRealInterest, Meaning(d)))
    else g
  }

  /** Data count as taken when they leave the queue, other messages when they are sent. */
  function NoteTake(s: State, g: Log, c: Chan): Log
    requires Shaped(s) && LogShaped(g) && s.queue[c] != []
  {
    if c == RealToSimData then Get(g, c, Content(s.mem, c, s.queue[c][0])) else g
  }

  /** What is sent is what the buffer holds at that moment. */
  function NoteServe(s: State, g: Log, h: Hold): Log
    requires LogShaped(g) && h.Serving?
  {
    if h.cap == s.cap && h.key in s.table && h.i < |s.table[h.key]|
    then
      var to := FdOf(s.table[h.key][h.i]);
      g.(sends := g.sends + [Delivery(|g.got[RealToSimData]|, to, Content(s.mem, RealToSimData, h.b))])
    else g
  }

  function Note(s: State, g: Log, e: Event): (g': Log)
    requires Shaped(s) && LogShaped(g)
    ensures LogShaped(g')
  {
    if s.fault || !Allowed(s, e) then g else
    match e
    case NipIn(c, m, nack, _) => Put(g, c, Kept(c, m, nack))
    case UdpDataIn(d, _) => Put(g, SimToRealData, Meaning(d))
    case UdpInterestIn(d, a, _) => NoteInterest(s, g, d, a)
    case Take(c) => if s.hold[c] == Nothing && s.queue[c] != [] then NoteTake(s, g, c) else g
    case Send(c) => if s.hold[c].Loaded? then Get(g, c, Content(s.mem, c, s.hold[c].b)) else g
    case Serve =>
      var h := s.hold[RealToSimData];
      if h.Serving? then NoteServe(s, g, h) else g
    case _ => g
  }

  datatype Sys = Sys(s: State, g: Log)

  function Advance(y: Sys, e: Event): (r: Sys)
    requires Shaped(y.s) && LogShaped(y.g)
    ensures Shaped(r.s) && LogShaped(r.g)
  {
    Sys(Step(y.s, e), Note(y.s, y.g, e))
  }

  function Play(y: Sys, run: seq<Event>): (r: Sys)
    requires Shaped(y.s) && LogShaped(y.g)
    ensures Shaped(r.s) && LogShaped(r.g)
    decreases |run|
  {
    if run == [] then y else Play(Advance(y, run[0]), run[1..])
  }

  /** The state and the log after a run from init_adaptor. */
  function After(bufs: seq<Buf>, junk: Record, run: seq<Event>): (y: Sys)
    ensures Shaped(y.s) && LogShaped(y.g)
  {
    Play(Sys(Init(bufs, junk), EmptyLog()), run)
  }
}
