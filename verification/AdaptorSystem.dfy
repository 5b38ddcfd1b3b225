/**
 The whole adaptor as one object: the free list, the four queues, the table, and what the coroutines hold.
 What a coroutine does between two yields is a method.  Each is proved to take an object that is in state s
 of AdaptorModel to one that is in the state AdaptorModel.Step makes of s; so the laws of AdaptorTheorems
 are laws of this object.
 */
module AdaptorSystem {
  import opened NameTable
  import opened NameTableArray
  import opened AdaptorModel
  import opened AdaptorProofs
  import opened AdaptorAccounts
  import opened AdaptorTheorems
  import opened AdaptorContext
  import LfqModel

  /** What every run keeps and the turns of the coroutines rely on. */
  ghost predicate Good(s: State) {
    Shaped(s) && !s.fault && OneOwner(s) && HoldOk(s)
  }

  lemma GoodInit(blocks: seq<Buf>, junk: Record)
    requires AdaptorModel.InitOk(blocks)
    ensures Good(Init(blocks, junk))
  {
    InitInv(blocks, junk);
  }

  lemma GoodStep(s: State, e: Event)
    requires Good(s) && (e.Serve? ==> !Stale(s))
    ensures Good(Step(s, e))
  {
    StepOwners(s, e);
    StepHold(s, e);
  }

  /** After any run, unless a stale pointer was used. */
  lemma GoodRun(blocks: seq<Buf>, junk: Record, run: seq<Event>)
    requires AdaptorModel.InitOk(blocks)
    ensures Good(After(blocks, junk, run).s) <==> !After(blocks, junk, run).s.fault
  {
    RunInv(blocks, junk, run);
  }

  /** A buffer that is free, queued or held is allocated. */
  lemma GoodBuffer(s: State, c: Chan, b: Buf)
    requires Good(s) && (b in s.free || b in s.queue[c] || (s.hold[c] != Nothing && b == s.hold[c].b))
    ensures b in s.mem
  {
    assert Owned(s, b);
    TimesIn(s.free, b);
    TimesIn(s.queue[c], b);
    match c
    case RealToSimInterest =>
    case SimToRealInterest =>
    case SimToRealData =>
    case RealToSimData =>
  }

  lemma GoodFree(s: State)
    requires Good(s)
    ensures s.free != [] ==> s.free[0] in s.mem
  {
    if s.free != [] { GoodBuffer(s, RealToSimData, s.free[0]); }
  }

  lemma GoodCap(s: State)
    requires Good(s)
    ensures s.hold[RealToSimData].Serving? ==> s.hold[RealToSimData].cap <= s.cap
  {
  }

  lemma PulledNothing(s: State, c: Chan)
    requires Shaped(s) && s.queue[c] == []
    ensures s.(queue := s.queue[c := Rest(s.queue[c])]) == s
  {
    assert s.queue[c := Rest(s.queue[c])] == s.queue;
  }

  /** Writing to the buffer that was obtained. */
  lemma StoredTwice(s: State, spare: Malloc, r: Record)
    ensures var s1 := Stored(s, spare, Was(s, spare));
            s1.(mem := s1.mem[Obtained(s, spare) := r]) == Stored(s, spare, r)
  {
    var b := Obtained(s, spare);
    assert s.mem[b := Was(s, spare)][b := r] == s.mem[b := r];
  }

  /** What the objects show, with the name that the pointer of udp_data_out points to. */
  datatype Image = Image(
    mem: map<Buf, Record>, free: seq<Buf>, table: Table, peak: nat, cap: nat, hold: map<Chan, Hold>,
    at: Abstraction<Key>)

  function Picture(s: State, at: Abstraction<Key>): Image {
    Image(s.mem, s.free, s.table, s.peak, s.cap, s.hold, at)
  }

  /** The pointer of udp_data_out is good, unless it is stale. */
  predicate Points(s: State, at: Abstraction<Key>)
    requires Shaped(s)
  {
    var h := s.hold[RealToSimData];
    h.Serving? && h.cap == s.cap ==> at == Shows(h.key)
  }

  /** A pointer that was good is good or stale after nut_set. */
  lemma AskedPoints(s: State, key: Key, addr: SockAddr, at: Abstraction<Key>, at': Abstraction<Key>)
    requires Shaped(s) && 0 < s.cap && Points(s, at)
    requires s.hold[RealToSimData].Serving? ==> s.hold[RealToSimData].cap <= s.cap
    requires var h := s.hold[RealToSimData];
             h.Serving? && at == Shows(h.key) && !Grows(s.table, s.peak, s.cap, key) ==> at' == Shows(h.key)
    ensures Points(Asked(s, key, addr), at')
  {
  }

  /** calloc, which may answer at its n-th call with any address that is not in use. */
  type Calloc = (nat, map<Ptr, LfqModel.Node>) -> Ptr

  ghost predicate Allocates(calloc: Calloc) {
    forall n: nat, heap: map<Ptr, LfqModel.Node> :: 0 < calloc(n, heap) && calloc(n, heap) !in heap
  }

  ghost function Past(used: set<Ptr>): (a: Ptr)
    ensures 0 < a && forall p | p in used :: p < a
  {
    if p :| p in used then
      var past := Past(used - {p});
      assert used == (used - {p}) + {p};
      if p < past then past else p + 1
    else 1
  }

  /** There is always such an address. */
  lemma CallocExists() returns (calloc: Calloc)
    ensures Allocates(calloc)
  {
    calloc := (n: nat, heap: map<Ptr, LfqModel.Node>) => Past(heap.Keys);
  }

  class Adaptor {
    const bufs: Buffers
    const lines: Lines
    const nut: Nut
    var hold: map<Chan, Hold>     // what the sending coroutines keep across their yields
    var entry: EntryPtr           // the nut_entry pointer of udp_data_out

    /** The parts share no memory. */
    ghost predicate Apart()
      reads nut
    {
      && bufs.foot !! lines.repr && bufs !in lines.repr
      && this !in bufs.foot && this !in lines.repr
      && nut !in bufs.foot && nut !in lines.repr && nut.entries !in bufs.foot && nut.entries !in lines.repr
    }

    /** What the objects but the queues show. */
    ghost function Seen(): Abstraction<Image>
      reads `hold, `entry, bufs, bufs.foot, nut, nut.entries
    {
      match (bufs.Held(), Tabled(nut))
      case (Shows(b), Shows(t)) =>
        if Apart() then Shows(Image(b.0, b.1, t.0, t.1, t.2, hold, Pointed(entry, nut))) else Invalid
      case _ => Invalid
    }

    /** The objects are those of s. */
    ghost predicate Shown(s: State)
      reads `hold, `entry, bufs, bufs.foot, lines.repr, nut, nut.entries
    {
      && Shaped(s) && lines.Queued(s.queue)
      && Seen() == Shows(Picture(s, Pointed(entry, nut))) && Points(s, Pointed(entry, nut))
    }

    /** The adaptor is in state s, between two turns. */
    ghost predicate Valid(s: State)
      reads `hold, `entry, bufs, bufs.foot, lines.repr, nut, nut.entries
    {
      Good(s) && Shown(s)
    }

    /** The object of parts that share no memory, with nothing in hand. */
    constructor (bufs: Buffers, lines: Lines, nut: Nut)
      requires bufs.Held() != Invalid && Tabled(nut) != Invalid
      requires bufs.foot !! lines.repr && bufs !in lines.repr && nut !in bufs.foot && nut !in lines.repr
      requires nut.entries !in bufs.foot && nut.entries !in lines.repr
      ensures this.bufs == bufs && this.lines == lines && this.nut == nut && hold == Each(Nothing) && entry == Null
      ensures Apart()
    {
      this.bufs, this.lines, this.nut := bufs, lines, nut;
      hold, entry := Each(Nothing), Null;
    }

    /** All memory of the adaptor. */
    ghost function Memory(): set<object>
      reads nut
    {
      {this, bufs, nut, nut.entries} + bufs.foot + lines.repr
    }

    /** What the real fields are. */
    lemma Fields(s: State)
      requires Shown(s)
      ensures bufs.mem == s.mem && hold == s.hold && Tabled(nut) == Shows((s.table, s.peak, s.cap)) && 0 < s.cap
      ensures Points(s, Pointed(entry, nut)) && nut.tableCap == s.cap
    {
      hide Listed;
    }

    /** What a turn may look at before it starts. */
    lemma Open(s: State)
      requires Valid(s)
      ensures Shaped(s) && !s.fault && bufs.mem == s.mem && hold == s.hold && Total(lines.queue) && Apart()
    {
      Fields(s);
    }

    // ---- What the turns are made of ----

    /** A buffer from the free list, or a new one; was is what it holds.  The queue of c is left alone. */
    method Obtain(ghost s: State, spare: Malloc, ghost c: Chan) returns (b: Buf, was: Record)
      requires Shown(s) && spare.b !in s.mem && (s.free != [] ==> s.free[0] in s.mem)
      modifies bufs`mem, bufs.foot
      ensures b == Obtained(s, spare) && was == Was(s, spare) && Shown(Stored(s, spare, was))
      ensures lines.queue[c].heap == old(lines.queue[c].heap) && nut.entries == old(nut.entries)
    {
      hide Listed, Nut.Valid;
      lines.Inside(s.queue, c);
      b := bufs.Obtain(spare, s.mem, s.free);
      assert Stored(s, spare, Was(s, spare)).mem == if s.free == [] then s.mem[spare.b := spare.junk] else s.mem;
      was := bufs.mem[b];
    }

    /** memcpy into that buffer */
    method Write(ghost s: State, ghost spare: Malloc, b: Buf, r: Record)
      requires Shown(Stored(s, spare, Was(s, spare))) && b == Obtained(s, spare)
      modifies bufs`mem
      ensures Shown(Stored(s, spare, r))
    {
      hide Listed, Nut.Valid, Overwrite;
      ghost var s1 := Stored(s, spare, Was(s, spare));
      StoredTwice(s, spare, r);
      bufs.Write(b, r, s1.mem, s1.free);
    }

    /** lfq_enqueue to the queue of c */
    method Join(ghost s: State, c: Chan, b: Buf, a: Ptr)
      requires Shown(s) && 0 < a && a !in lines.queue[c].heap
      modifies lines.repr
      ensures Shown(Append(s, c, b)) && nut.entries == old(nut.entries)
    {
      lines.Push(c, b, a, s.queue);
      assert Pointed(entry, nut) == old(Pointed(entry, nut));
      assert Seen() == old(Seen());
    }

    /** lfq_dequeue from the queue of c */
    method Pull(ghost s: State, c: Chan) returns (ret: LfqModel.Ret)
      requires Shown(s)
      modifies lines.repr
      ensures ret == if s.queue[c] == [] then LfqModel.Empty else LfqModel.Got(s.queue[c][0])
      ensures Shown(s.(queue := s.queue[c := Rest(s.queue[c])]))
    {
      ret := lines.Pull(c, s.queue);
      assert Pointed(entry, nut) == old(Pointed(entry, nut));
      assert Seen() == old(Seen());
    }

    /** lfq_enqueue of b to the free list */
    method GiveBack(ghost s: State, b: Buf, a: Ptr)
      requires Shown(s) && 0 < a && a !in bufs.list.heap
      modifies bufs.foot
      ensures Shown(s.(free := s.free + [b]))
    {
      bufs.GiveBack(b, a, s.mem, s.free);
    }

    /** nut_set */
    method Ask(ghost s: State, name: seq<Byte>, addr: SockAddr, ghost c: Chan) returns (r: int)
      requires Shown(s) && 0 < s.cap && (s.hold[RealToSimData].Serving? ==> s.hold[RealToSimData].cap <= s.cap)
      modifies nut, nut.entries
      ensures r == SetAnswer(s.table, KeyOf(name), addr) && Shown(Asked(s, KeyOf(name), addr))
      ensures nut.entries == old(nut.entries) || fresh(nut.entries)
      ensures lines.queue[c].heap == old(lines.queue[c].heap)
    {
      hide Listed, Nut.Valid, Buffers.Held, Tabled, Pointed, SetTable, SetAnswer, Grows;
      lines.Inside(s.queue, c);
      ghost var h, at := s.hold[RealToSimData], Pointed(entry, nut);
      r := SetName(nut, name, addr, s.table, s.peak, s.cap, entry, if h.Serving? then h.key else KeyOf(name));
      AskedPoints(s, KeyOf(name), addr, at, Pointed(entry, nut));
    }

    /** A sending coroutine keeps h across its next yield. */
    method Keep(ghost s: State, c: Chan, h: Hold)
      requires Shown(s) && (c == RealToSimData && h.Serving? && h.cap == s.cap ==> Pointed(entry, nut) == Shows(h.key))
      modifies `hold
      ensures Shown(s.(hold := s.hold[c := h]))
    {
      hide Listed, Nut.Valid;
      hold := hold[c := h];
    }

    /** udp_data_out keeps the pointer that nut_get gave. */
    method PointTo(ghost s: State, p: EntryPtr)
      requires Shown(s) && s.hold[RealToSimData] == Nothing
      modifies `entry
      ensures Shown(s) && entry == p
    {
      hide Listed, Nut.Valid;
      entry := p;
    }

    /** nut_del of the entry of udp_data_out */
    method Delete(ghost s: State, ghost key: Key)
      requires Shown(s) && s.hold[RealToSimData] == Nothing && Pointed(entry, nut) == Shows(key)
      modifies nut`contents, nut.entries
      ensures Shown(s.(table := s.table - {key})) && bufs.list.heap == old(bufs.list.heap)
    {
      hide Listed, Nut.Valid;
      Forget(nut, entry, key, s.table, s.peak, s.cap);
    }

    // ---- The turns ----

    /** nip_interest_in and nip_data_in, from irecv to lfq_enqueue */
    method NipIn(ghost s: State, c: Chan, m: Msg, nack: bool, spare: Malloc, a: Ptr)
      requires Valid(s) && Allowed(s, Event.NipIn(c, m, nack, spare)) && 0 < a && a !in lines.queue[c].heap
      modifies bufs`mem, bufs.foot, lines.repr
      ensures Valid(Step(s, Event.NipIn(c, m, nack, spare)))
    {
      hide Listed, Nut.Valid, OneOwner, HoldOk, Adaptor.Seen;
      GoodStep(s, Event.NipIn(c, m, nack, spare));
      GoodFree(s);
      var b, was := Obtain(s, spare, c);
      var r := Pack(was, Kept(c, m, nack));
      Write(s, spare, b, r);
      Join(Stored(s, spare, r), c, b, a);
    }

    /** udp_data_in, from dyco_recv to lfq_enqueue */
    method UdpDataIn(ghost s: State, d: Datagram, spare: Malloc, a: Ptr)
      requires Valid(s) && Allowed(s, Event.UdpDataIn(d, spare)) && 0 < a && a !in lines.queue[SimToRealData].heap
      modifies bufs`mem, bufs.foot, lines.repr
      ensures Valid(Step(s, Event.UdpDataIn(d, spare)))
    {
      hide Listed, Nut.Valid, OneOwner, HoldOk, Adaptor.Seen;
      GoodStep(s, Event.UdpDataIn(d, spare));
      GoodFree(s);
      var b, was := Obtain(s, spare, SimToRealData);
      var r := Copied(was, d);
      Write(s, spare, b, r);
      Join(Stored(s, spare, r), SimToRealData, b, a);
    }

    /** udp_interest_in, from dyco_recvfrom to the end of its turn; a refused interest's buffer is not kept. */
    method UdpInterestIn(ghost s: State, d: Datagram, addr: SockAddr, spare: Malloc, a: Ptr)
      requires Valid(s) && Allowed(s, Event.UdpInterestIn(d, addr, spare))
      requires 0 < a && a !in lines.queue[SimToRealInterest].heap
      modifies bufs`mem, bufs.foot, lines.repr, nut, nut.entries
      ensures Valid(Step(s, Event.UdpInterestIn(d, addr, spare)))
      ensures nut.entries == old(nut.entries) || fresh(nut.entries)
    {
      hide Listed, Nut.Valid, OneOwner, HoldOk, Adaptor.Seen, SetTable, SetAnswer, Grows;
      GoodStep(s, Event.UdpInterestIn(d, addr, spare));
      GoodFree(s);
      GoodCap(s);
      Fields(s);
      var b, was := Obtain(s, spare, SimToRealInterest);
      var r := Copied(was, d);
      Write(s, spare, b, r);
      CopiedMeaning(was, d);
      File(Stored(s, spare, r), b, Unpack(r).name, addr, a);
    }

    /** From its nut_set on. */
    method File(ghost s: State, b: Buf, name: seq<Byte>, addr: SockAddr, a: Ptr)
      requires Shown(s) && 0 < s.cap && (s.hold[RealToSimData].Serving? ==> s.hold[RealToSimData].cap <= s.cap)
      requires 0 < a && a !in lines.queue[SimToRealInterest].heap
      modifies lines.repr, nut, nut.entries
      ensures var s1, key := Asked(s, KeyOf(name), addr), KeyOf(name);
              Shown(if SetAnswer(s.table, key, addr) == 1 then Append(s1, SimToRealInterest, b) else Drop(s1, b))
      ensures nut.entries == old(nut.entries) || fresh(nut.entries)
    {
      hide Listed, Nut.Valid, OneOwner, HoldOk, Adaptor.Seen;
      var answer := Ask(s, name, addr, SimToRealInterest);
      if answer == 1 { Join(Asked(s, KeyOf(name), addr), SimToRealInterest, b, a); }
    }

    /** The turn of udp_interest_out, nip_data_out or nip_interest_out up to its send. */
    method Take(ghost s: State, c: Chan)
      requires Valid(s) && s.hold[c] == Nothing && c != RealToSimData
      modifies lines.repr, `hold
      ensures Valid(Step(s, Event.Take(c)))
    {
      hide Listed, Nut.Valid, OneOwner, HoldOk, Adaptor.Seen;
      GoodStep(s, Event.Take(c));
      var ret := Pull(s, c);
      match ret
      case Empty =>
        PulledNothing(s, c);
      case Got(b) =>
        Keep(s.(queue := s.queue[c := Rest(s.queue[c])]), c, Loaded(b));
    }

    /** Its send; m is the message as it goes out. */
    method Send(ghost s: State, c: Chan) returns (m: Msg)
      requires Valid(s) && s.hold[c].Loaded?
      modifies `hold
      ensures m == Content(s.mem, c, s.hold[c].b) && Valid(Step(s, Event.Send(c)))
    {
      hide Listed, Nut.Valid, OneOwner, HoldOk, Adaptor.Seen;
      GoodStep(s, Event.Send(c));
      GoodBuffer(s, c, s.hold[c].b);
      Fields(s);
      m := OnWire(c, Unpack(bufs.mem[hold[c].b]));
      Keep(s, c, Sent(hold[c].b));
    }

    /** Its lfq_enqueue of the sent buffer to the free list. */
    method Return(ghost s: State, c: Chan, a: Ptr)
      requires Valid(s) && s.hold[c].Sent? && 0 < a && a !in bufs.list.heap
      modifies bufs.foot, `hold
      ensures Valid(Step(s, Event.Return(c)))
    {
      hide Listed, Nut.Valid, OneOwner, HoldOk, Adaptor.Seen;
      GoodStep(s, Event.Return(c));
      Fields(s);
      var b := hold[c].b;
      Keep(s, c, Nothing);
      GiveBack(s.(hold := s.hold[c := Nothing]), b, a);
    }

    /** The turn of udp_data_out up to its send loop; data that nobody asked for is not kept. */
    method TakeData(ghost s: State)
      requires Valid(s) && s.hold[RealToSimData] == Nothing
      modifies lines.repr, `hold, `entry
      ensures Valid(Step(s, Event.Take(RealToSimData)))
    {
      hide Listed, Nut.Valid, OneOwner, HoldOk, Adaptor.Seen;
      GoodStep(s, Event.Take(RealToSimData));
      Fields(s);
      var ret := Pull(s, RealToSimData);
      match ret
      case Empty =>
        PulledNothing(s, RealToSimData);
      case Got(b) =>
        ghost var s1 := s.(queue := s.queue[RealToSimData := Rest(s.queue[RealToSimData])]);
        GoodBuffer(s, RealToSimData, b);
        Fields(s1);
        var name := Unpack(bufs.mem[b]).name;
        Match(s1, b, name);
    }

    /** nut_get and what follows: udp_data_out starts to serve the name, or gives the buffer up. */
    method Match(ghost s: State, b: Buf, name: seq<Byte>)
      requires Shown(s) && s.hold[RealToSimData] == Nothing
      modifies `hold, `entry
      ensures Shown(if KeyOf(name) in s.table
                    then s.(hold := s.hold[RealToSimData := Serving(b, KeyOf(name), s.cap, 0)]) else Drop(s, b))
    {
      hide Listed, Nut.Valid, OneOwner, HoldOk, Adaptor.Seen;
      Fields(s);
      var p := Look(nut, name, s.table, s.peak, s.cap);
      if p != Null {
        PointTo(s, p);
        Keep(s, RealToSimData, Serving(b, KeyOf(name), nut.tableCap, 0));
      }
    }

    /**
     A turn of the send loop of udp_data_out on a pointer that is not stale: to is where it sends m, or the
     entry is deleted and the buffer goes back.
     */
    method Serve(ghost s: State, a: Ptr) returns (to: seq<SockAddr>, m: Msg)
      requires Valid(s) && s.hold[RealToSimData].Serving? && !Stale(s) && 0 < a && a !in bufs.list.heap
      modifies bufs.foot, nut`contents, nut.entries, `hold
      ensures Valid(Step(s, Event.Serve)) && m == Content(s.mem, RealToSimData, s.hold[RealToSimData].b)
      ensures var h := s.hold[RealToSimData];
              h.key in s.table && to == if h.i < |s.table[h.key]| then [s.table[h.key][h.i]] else []
    {
      hide Listed, Nut.Valid, OneOwner, HoldOk, Adaptor.Seen;
      GoodStep(s, Event.Serve);
      Fields(s);
      var h := hold[RealToSimData];
      GoodBuffer(s, RealToSimData, h.b);
      m := Unpack(bufs.mem[h.b]);
      to := NextAddress(nut, entry, h.i, h.key, s.table, s.peak, s.cap);
      if to != [] {
        Keep(s, RealToSimData, h.(i := h.i + 1));
      } else {
        Finish(s, h, a);
      }
    }

    /** After the loop: nut_del, and lfq_enqueue to the free list. */
    method Finish(ghost s: State, h: Hold, a: Ptr)
      requires Shown(s) && h == s.hold[RealToSimData] && h.Serving? && h.cap == s.cap && 0 < a && a !in bufs.list.heap
      modifies bufs.foot, nut`contents, nut.entries, `hold
      ensures Shown(s.(hold := s.hold[RealToSimData := Nothing], table := s.table - {h.key}, free := s.free + [h.b]))
    {
      hide Listed, Nut.Valid, OneOwner, HoldOk, Adaptor.Seen;
      Fields(s);
      ghost var s1 := s.(hold := s.hold[RealToSimData := Nothing]);
      Keep(s, RealToSimData, Nothing);
      assert Pointed(entry, nut) == Shows(h.key);
      assert bufs.list.heap == old(bufs.list.heap);
      Delete(s1, h.key);
      GiveBack(s1.(table := s.table - {h.key}), h.b, a);
    }

    // ---- Any turn ----

    /** A turn of a receiving coroutine, if what arrives is let in. */
    method Arrival(ghost s: State, e: Event, calloc: Calloc, n: nat)
      requires Valid(s) && Allocates(calloc) && (e.NipIn? || e.UdpDataIn? || e.UdpInterestIn?)
      modifies Memory()
      ensures Valid(Step(s, e)) && Out(s, e) == Quiet && fresh(Memory() - old(Memory()))
    {
      hide Adaptor.Valid, Good;
      Open(s);
      if Admitted(bufs.mem, e) {
        match e
        case NipIn(c, m, nack, spare) => NipIn(s, c, m, nack, spare, calloc(n, lines.queue[c].heap));
        case UdpDataIn(d, spare) => UdpDataIn(s, d, spare, calloc(n, lines.queue[SimToRealData].heap));
        case UdpInterestIn(d, addr, spare) =>
          UdpInterestIn(s, d, addr, spare, calloc(n, lines.queue[SimToRealInterest].heap));
        case _ =>
      }
    }

    /** A turn of a coroutine that takes messages out, if there is anything to do. */
    method Departure(ghost s: State, e: Event, calloc: Calloc, n: nat) returns (out: Output)
      requires Valid(s) && Allocates(calloc) && (e.Take? || e.Send? || e.Return?)
      modifies Memory()
      ensures Valid(Step(s, e)) && out == Out(s, e) && fresh(Memory() - old(Memory()))
    {
      hide Adaptor.Valid, Good;
      Open(s);
      out := Quiet;
      match e
      case Take(c) =>
        if hold[c] == Nothing {
          if c == RealToSimData { TakeData(s); } else { Take(s, c); }
        }
      case Send(c) =>
        if hold[c].Loaded? {
          var m := Send(s, c);
          out := Gone(c, m);
        }
      case Return(c) => if hold[c].Sent? { Return(s, c, calloc(n, bufs.list.heap)); }
      case _ =>
    }

    /** A turn of the send loop, if it is running. */
    method Loop(ghost s: State, calloc: Calloc, n: nat) returns (out: Output)
      requires Valid(s) && Allocates(calloc) && !Stale(s)
      modifies Memory()
      ensures Valid(Step(s, Event.Serve)) && out == Out(s, Event.Serve) && fresh(Memory() - old(Memory()))
    {
      hide Adaptor.Valid, Good;
      Open(s);
      out := Quiet;
      if hold[RealToSimData].Serving? {
        var to, m := Serve(s, calloc(n, bufs.list.heap));
        if to != [] { out := Served(to[0], m); }
      }
    }

    /** Any turn but one on a stale pointer: the step of the model, and what goes out of the adaptor. */
    method Turn(ghost s: State, e: Event, calloc: Calloc, n: nat) returns (out: Output)
      requires Valid(s) && Allocates(calloc) && (e.Serve? ==> !Stale(s))
      modifies Memory()
      ensures Valid(Step(s, e)) && out == Out(s, e) && fresh(Memory() - old(Memory()))
    {
      hide Adaptor.Valid, Good;
      if e.NipIn? || e.UdpDataIn? || e.UdpInterestIn? {
        Arrival(s, e, calloc, n);
        out := Quiet;
      } else if e.Serve? {
        out := Loop(s, calloc, n);
      } else {
        out := Departure(s, e, calloc, n);
      }
    }
  }

  /** init_adaptor; calloc and nodes are the list nodes that lfq_init and lfq_enqueue allocate. */
  method InitParts(blocks: seq<Buf>, junk: Record, calloc: seq<Ptr>, nodes: map<Chan, (Ptr, Ptr)>)
    returns (adaptor: Adaptor)
    requires AdaptorModel.InitOk(blocks) && |calloc| == 2 + POOLED && (forall i | 0 <= i < |calloc| :: 0 < calloc[i])
    requires forall i, j | 0 <= i < j < |calloc| :: calloc[i] != calloc[j]
    requires Total(nodes) && forall c: Chan :: 0 < nodes[c].0 && 0 < nodes[c].1 && nodes[c].0 != nodes[c].1
    ensures adaptor.Shown(Init(blocks, junk)) && fresh(adaptor.Memory())
  {
    hide Listed, Nut.Valid, Buffers.Held, Tabled;
    var lines := NewLines(nodes);
    var bufs := new Buffers(blocks, junk, calloc);
    var nut := NewTable();
    adaptor := new Adaptor(bufs, lines, nut);
    ghost var s := Init(blocks, junk);
    assert bufs.Held() == Shows((s.mem, s.free)) && Tabled(nut) == Shows((s.table, s.peak, s.cap));
    assert adaptor.Seen() == Shows(Picture(s, Pointed(adaptor.entry, nut)));
  }

  method InitAdaptor(blocks: seq<Buf>, junk: Record, calloc: seq<Ptr>, nodes: map<Chan, (Ptr, Ptr)>)
    returns (adaptor: Adaptor)
    requires AdaptorModel.InitOk(blocks) && |calloc| == 2 + POOLED && (forall i | 0 <= i < |calloc| :: 0 < calloc[i])
    requires forall i, j | 0 <= i < j < |calloc| :: calloc[i] != calloc[j]
    requires Total(nodes) && forall c: Chan :: 0 < nodes[c].0 && 0 < nodes[c].1 && nodes[c].0 != nodes[c].1
    ensures adaptor.Valid(Init(blocks, junk)) && fresh(adaptor.Memory())
  {
    adaptor := InitParts(blocks, junk, calloc, nodes);
    GoodInit(blocks, junk);
  }

  /**
   The adaptor from init_adaptor through a run in whatever order the coroutines take turns: as long as no
   turn of the send loop meets a stale pointer, the object ends in the state of the model, and what has
   gone out is what the log of the model says.
   */
  method RunAdaptor(blocks: seq<Buf>, junk: Record, first: seq<Ptr>, nodes: map<Chan, (Ptr, Ptr)>, calloc: Calloc,
          run: seq<Event>)
    returns (adaptor: Adaptor, outs: seq<Output>)
    requires AdaptorModel.InitOk(blocks) && |first| == 2 + POOLED && (forall i | 0 <= i < |first| :: 0 < first[i])
    requires forall i, j | 0 <= i < j < |first| :: first[i] != first[j]
    requires Total(nodes) && forall c: Chan :: 0 < nodes[c].0 && 0 < nodes[c].1 && nodes[c].0 != nodes[c].1
    requires Allocates(calloc) && !After(blocks, junk, run).s.fault
    ensures adaptor.Valid(After(blocks, junk, run).s) && fresh(adaptor.Memory())
    ensures Logged(After(blocks, junk, run).g, outs)
  {
    hide Adaptor.Valid, Good, After, Init, Logged, Step, Note;
    adaptor := InitAdaptor(blocks, junk, first, nodes);
    outs := [];
    AfterNone(blocks, junk, run);
    ghost var y := After(blocks, junk, run[..0]);
    for i := 0 to |run|
      invariant y == After(blocks, junk, run[..i]) && adaptor.Valid(y.s) && fresh(adaptor.Memory())
      invariant Logged(y.g, outs)
    {
      NeverStale(blocks, junk, run, i);
      AfterNext(blocks, junk, run, i);
      var out := adaptor.Turn(y.s, run[i], calloc, i);
      StepLogged(y, run[i], outs);
      y, outs := Advance(y, run[i]), outs + [out];
    }
    assert run[..|run|] == run;
  }
}
