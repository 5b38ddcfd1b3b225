/**
 The objects that the coroutines of the adaptor share: the message buffers with their free list, the four
 message queues, and the table as the coroutines use it.  Each is proved against what it stands for in
 AdaptorModel.
 */
module AdaptorContext {
  import opened NameTable
  import opened NameTableArray
  import opened AdaptorModel
  import opened LfqContext
  import LfqLists
  import LfqModel

  type Ptr = LfqModel.Ptr

  /** What an object stands for, if it is valid. */
  datatype Abstraction<T> = Invalid | Shows(v: T)

  function Rest<T>(list: seq<T>): seq<T> { if list == [] then [] else list[1..] }

  // ---- One queue ----

  /** What a queue holds, if it is valid and has no other memory than foot. */
  ghost function Listed(queue: LfqCtx, foot: set<object>): Abstraction<seq<Buf>>
    reads foot
  {
    if queue in foot && queue.hp in foot && queue.tidMap in foot && queue.Valid() then Shows(queue.unread) else Invalid
  }

  method Enqueue(queue: LfqCtx, b: Buf, a: Ptr, ghost foot: set<object>, ghost unread: seq<Buf>)
    requires Listed(queue, foot) == Shows(unread) && 0 < a && a !in queue.heap
    modifies foot
    ensures Listed(queue, foot) == Shows(unread + [b])
  {
    queue.Enqueue(b, a);
  }

  /** lfq_dequeue by the one coroutine that reads the queue: it never answers "no slot". */
  method Dequeue(queue: LfqCtx, ghost foot: set<object>, ghost unread: seq<Buf>) returns (ret: LfqModel.Ret)
    requires Listed(queue, foot) == Shows(unread)
    modifies foot
    ensures ret == if unread == [] then LfqModel.Empty else LfqModel.Got(unread[0])
    ensures Listed(queue, foot) == Shows(Rest(unread))
  {
    ret := queue.DequeueAlone();
  }

  /** lfq_init for one consumer */
  method NewQueue(nodes: (Ptr, Ptr)) returns (queue: LfqCtx, foot: set<object>)
    requires 0 < nodes.0 && 0 < nodes.1 && nodes.0 != nodes.1
    ensures Listed(queue, foot) == Shows([]) && fresh(foot)
  {
    queue := new LfqCtx(1, nodes.0, nodes.1);
    foot := {queue, queue.hp, queue.tidMap};
  }

  method NewPair(m: (Ptr, Ptr), n: (Ptr, Ptr)) returns (p: LfqCtx, q: LfqCtx, f: set<object>, g: set<object>)
    requires 0 < m.0 && 0 < m.1 && m.0 != m.1 && 0 < n.0 && 0 < n.1 && n.0 != n.1
    ensures Listed(p, f) == Listed(q, g) == Shows([]) && f !! g && fresh(f) && fresh(g)
  {
    p, f := NewQueue(m);
    q, g := NewQueue(n);
    assert f !! g;
  }

  // ---- The buffers ----

  lemma NewAddress(calloc: seq<Ptr>, i: nat)
    requires 2 + i < |calloc| && forall i, j | 0 <= i < j < |calloc| :: calloc[i] != calloc[j]
    ensures calloc[2 + i] !in [calloc[0]] + calloc[2..2 + i] && calloc[2 + i] !in [calloc[1]]
  {
  }

  /** freebuf_list together with the malloced buffers. */
  class Buffers {
    const list: LfqCtx
    ghost const foot: set<object>   // its memory
    var mem: map<Buf, Record>

    ghost function Held(): Abstraction<(map<Buf, Record>, seq<Buf>)>
      reads this, foot
    {
      if this !in foot && Listed(list, foot) != Invalid then Shows((mem, Listed(list, foot).v)) else Invalid
    }

    /** The part of init_adaptor that fills the list; bufs are its blocks, calloc what calloc returns. */
    constructor (bufs: seq<Buf>, junk: Record, calloc: seq<Ptr>)
      requires |calloc| == 2 + |bufs| && (forall i | 0 <= i < |calloc| :: 0 < calloc[i])
      requires forall i, j | 0 <= i < j < |calloc| :: calloc[i] != calloc[j]
      ensures Held() == Shows((map b | b in bufs :: junk, bufs)) && fresh(foot)
    {
      var l := new LfqCtx(1, calloc[0], calloc[1]);
      list, foot := l, l.Repr();
      mem := map b | b in bufs :: junk;
      new;
      Fill(bufs, calloc);
    }

    /** Its loop. */
    method Fill(blocks: seq<Buf>, calloc: seq<Ptr>)
      requires list.Valid() && |calloc| == 2 + |blocks| && (forall i | 0 <= i < |calloc| :: 0 < calloc[i])
      requires forall i, j | 0 <= i < j < |calloc| :: calloc[i] != calloc[j]
      requires list.unread == [] && list.queue == [calloc[0]] && list.pool == [calloc[1]]
      modifies list`heap, list`tail, list`queue, list`unread
      ensures list.Valid() && list.unread == blocks
    {
      for i := 0 to |blocks|
        invariant list.Valid()
        invariant list.unread == blocks[..i]
        invariant list.queue == [calloc[0]] + calloc[2..2 + i] && list.pool == [calloc[1]]
      {
        NewAddress(calloc, i);
        LfqLists.ElemsIn(list.queue, calloc[2 + i]);
        LfqLists.ElemsIn(list.pool, calloc[2 + i]);
        list.Unused(calloc[2 + i]);
        list.Enqueue(blocks[i], calloc[2 + i]);
        assert blocks[..i + 1] == blocks[..i] + [blocks[i]];
        assert calloc[2..2 + (i + 1)] == calloc[2..2 + i] + [calloc[2 + i]];
      }
    }

    /** lfq_dequeue(&freebuf_list), or malloc */
    method Obtain(spare: Malloc, ghost m: map<Buf, Record>, ghost free: seq<Buf>) returns (b: Buf)
      requires Held() == Shows((m, free))
      modifies `mem, foot
      ensures b == if free == [] then spare.b else free[0]
      ensures Held() == Shows((if free == [] then m[spare.b := spare.junk] else m, Rest(free)))
    {
      var ret := Dequeue(list, foot, free);
      match ret
      case Empty =>
        mem := mem[spare.b := spare.junk];
        b := spare.b;
      case Got(v) =>
        b := v;
    }

    /** memcpy into a buffer */
    method Write(b: Buf, r: Record, ghost m: map<Buf, Record>, ghost free: seq<Buf>)
      requires Held() == Shows((m, free))
      modifies `mem
      ensures Held() == Shows((m[b := r], free))
    {
      mem := mem[b := r];
    }

    /** lfq_enqueue(&freebuf_list, b) */
    method GiveBack(b: Buf, a: Ptr, ghost m: map<Buf, Record>, ghost free: seq<Buf>)
      requires Held() == Shows((m, free)) && 0 < a && a !in list.heap
      modifies foot
      ensures Held() == Shows((m, free + [b]))
    {
      Enqueue(list, b, a, foot, free);
    }
  }

  // ---- The message queues ----

  function PerChan<T>(a: T, b: T, c: T, d: T): (m: map<Chan, T>)
    ensures Total(m) && m[RealToSimInterest] == a && m[SimToRealInterest] == b && m[SimToRealData] == c
    ensures m[RealToSimData] == d
  {
    var m := map[RealToSimInterest := a, SimToRealInterest := b, SimToRealData := c, RealToSimData := d];
    assert Total(m) by { forall x: Chan ensures x in m { AllChans(x); } }
    m
  }

  lemma FeetApart(a: set<object>, b: set<object>, c: set<object>, d: set<object>)
    requires a !! b && a !! c && a !! d && b !! c && b !! d && c !! d
    ensures var m := PerChan(a, b, c, d);
            && (forall x: Chan :: m[x] <= a + b + c + d)
            && (forall x: Chan, y: Chan | x != y :: m[x] !! m[y])
  {
  }

  /** The four message queues, and whose memory is what. */
  datatype Lines = Lines(queue: map<Chan, LfqCtx>, foot: map<Chan, set<object>>, repr: set<object>) {

    /** They share no memory. */
    ghost predicate Apart() {
      && Total(queue) && Total(foot) && (forall c: Chan :: foot[c] <= repr)
      && (forall c: Chan, d: Chan | c != d :: foot[c] !! foot[d])
    }

    /** What they hold. */
    ghost predicate Queued(q: map<Chan, seq<Buf>>)
      reads repr
    {
      Apart() && Total(q) && forall c: Chan :: Listed(queue[c], foot[c]) == Shows(q[c])
    }

    lemma Inside(q: map<Chan, seq<Buf>>, c: Chan)
      requires Queued(q)
      ensures queue[c] in repr
    {
      assert Listed(queue[c], foot[c]) == Shows(q[c]);
    }

    /** lfq_enqueue to the queue of c */
    method Push(c: Chan, b: Buf, a: Ptr, ghost q: map<Chan, seq<Buf>>)
      requires Queued(q) && 0 < a && a !in queue[c].heap
      modifies repr
      ensures Queued(q[c := q[c] + [b]])
    {
      hide LfqCtx.Valid;
      assert Listed(queue[c], foot[c]) == Shows(q[c]);
      Enqueue(queue[c], b, a, foot[c], q[c]);
      forall d: Chan | d != c ensures Listed(queue[d], foot[d]) == Shows(q[d]) {
        assert foot[d] !! foot[c] && old(Listed(queue[d], foot[d])) == Shows(q[d]);
      }
    }

    /** lfq_dequeue from the queue of c */
    method Pull(c: Chan, ghost q: map<Chan, seq<Buf>>) returns (ret: LfqModel.Ret)
      requires Queued(q)
      modifies repr
      ensures ret == if q[c] == [] then LfqModel.Empty else LfqModel.Got(q[c][0])
      ensures Queued(q[c := Rest(q[c])])
    {
      hide LfqCtx.Valid;
      assert Listed(queue[c], foot[c]) == Shows(q[c]);
      ret := Dequeue(queue[c], foot[c], q[c]);
      forall d: Chan | d != c ensures Listed(queue[d], foot[d]) == Shows(q[d]) {
        assert foot[d] !! foot[c] && old(Listed(queue[d], foot[d])) == Shows(q[d]);
      }
    }
  }

  /** lfq_init of the four; nodes are the two nodes that each allocates. */
  method NewLines(nodes: map<Chan, (Ptr, Ptr)>) returns (lines: Lines)
    requires Total(nodes) && forall c: Chan :: 0 < nodes[c].0 && 0 < nodes[c].1 && nodes[c].0 != nodes[c].1
    ensures lines.Queued(Each([])) && fresh(lines.repr)
  {
    hide Listed;
    var q0, q1, f0, f1 := NewPair(nodes[RealToSimInterest], nodes[SimToRealInterest]);
    var q2, q3, f2, f3 := NewPair(nodes[SimToRealData], nodes[RealToSimData]);
    assert f0 !! f2 && f0 !! f3 && f1 !! f2 && f1 !! f3;
    FeetApart(f0, f1, f2, f3);
    lines := Lines(PerChan(q0, q1, q2, q3), PerChan(f0, f1, f2, f3), f0 + f1 + f2 + f3);
    forall c: Chan ensures Listed(lines.queue[c], lines.foot[c]) == Shows([]) {
      match c
      case RealToSimInterest =>
      case SimToRealInterest =>
      case SimToRealData =>
      case RealToSimData =>
    }
  }

  // ---- The table ----

  /** The map, the largest number of names so far, and the capacity. */
  ghost function Tabled(nut: Nut): Abstraction<(Table, nat, nat)>
    reads nut, nut.entries
  {
    if nut.Valid() then Shows((nut.contents, nut.peak, nut.tableCap)) else Invalid
  }

  /** nut_create(64), as init_adaptor calls it */
  method NewTable() returns (nut: Nut)
    ensures Tabled(nut) == Shows((map[], 0, INITCAP)) && fresh(nut) && fresh(nut.entries)
  {
    nut := new Nut(64);
  }

  /** The name whose live entry in the current array a pointer points to. */
  ghost function Pointed(p: EntryPtr, nut: Nut): Abstraction<Key>
    reads nut, nut.entries
  {
    if p.At? && p.buf == nut.entries && p.idx < nut.entryNum <= nut.entries.Length && Live(nut.entries[p.idx])
    then Shows(EntryKey(nut.entries[p.idx]))
    else Invalid
  }

  /** A pointer of udp_data_out is good. */
  ghost predicate Pointing(p: EntryPtr, nut: Nut, key: Key)
    reads nut, nut.entries
  {
    Pointed(p, nut) == Shows(key)
  }

  /** nut_set, as udp_interest_in calls it: a pointer into the table stays good unless the array grows. */
  method SetName(nut: Nut, name: seq<Byte>, addr: SockAddr, ghost t: Table, ghost peak: nat, ghost cap: nat,
          ghost p: EntryPtr, ghost key: Key)
    returns (r: int)
    requires Tabled(nut) == Shows((t, peak, cap))
    modifies nut, nut.entries
    ensures r == SetAnswer(t, KeyOf(name), addr) && (nut.entries == old(nut.entries) || fresh(nut.entries))
    ensures var t' := SetTable(t, KeyOf(name), addr);
            Tabled(nut) == Shows((t', Max(peak, |t'|), if Grows(t, peak, cap, KeyOf(name)) then GrownCap(cap) else cap))
    ensures old(Pointing(p, nut, key)) && !Grows(t, peak, cap, KeyOf(name)) ==> Pointing(p, nut, key)
  {
    ghost var es, n := nut.entries[..nut.entryNum], nut.entryNum;
    r := nut.Set(name, addr);
    if p.At? && p.idx < n && nut.entries == old(nut.entries) {
      assert es[p.idx] == old(nut.entries[p.idx]);
      assert nut.entries[..nut.entryNum][p.idx] == nut.entries[p.idx];
    }
  }

  /** nut_get, as udp_data_out calls it */
  method Look(nut: Nut, name: seq<Byte>, ghost t: Table, ghost peak: nat, ghost cap: nat) returns (p: EntryPtr)
    requires Tabled(nut) == Shows((t, peak, cap))
    ensures p == Null <==> KeyOf(name) !in t
    ensures p != Null ==> Pointing(p, nut, KeyOf(name))
  {
    p := nut.Get(name);
  }

  /** What a good pointer shows. */
  lemma PointsAt(nut: Nut, p: EntryPtr, key: Key)
    requires nut.Valid() && Pointing(p, nut, key)
    ensures key in nut.contents && nut.contents[key] == EntryAddrs(p.buf[p.idx]) && EntryOk(p.buf[p.idx])
  {
    var es := nut.entries[..nut.entryNum];
    ViewAt(es, p.idx);
    assert es[p.idx] == p.buf[p.idx];
  }

  /** One turn of the loop of udp_data_out: the next address of the entry, if there is one. */
  method NextAddress(nut: Nut, p: EntryPtr, i: nat, ghost key: Key, ghost t: Table, ghost peak: nat, ghost cap: nat)
    returns (to: seq<SockAddr>)
    requires Tabled(nut) == Shows((t, peak, cap)) && Pointing(p, nut, key)
    ensures key in t && to == if i < |t[key]| then [t[key][i]] else []
  {
    PointsAt(nut, p, key);
    to := if i < p.buf[p.idx].addrNum then [p.buf[p.idx].addr[i]] else [];
  }

  /** nut_del, as udp_data_out calls it */
  method Forget(nut: Nut, p: EntryPtr, ghost key: Key, ghost t: Table, ghost peak: nat, ghost cap: nat)
    requires Tabled(nut) == Shows((t, peak, cap)) && Pointing(p, nut, key)
    modifies nut`contents, nut.entries
    ensures Tabled(nut) == Shows((t - {key}, peak, cap))
  {
    nut.Del(p);
  }
}
