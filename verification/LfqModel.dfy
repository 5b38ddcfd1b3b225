/**
 The lock-free queue of adaptor/lfq.c as a state machine.

 Every shared read, write, CAS and XCHG of lfq_enqueue, lfq_dequeue, safe_free, enpool and
 free_pool is one step of one thread, under sequential consistency.  A state holds the heap
 (the nodes that are allocated right now), the queue context and one program counter per thread.
 calloc may return any address that is not allocated, including one that was freed before.
 */
module LfqModel {

  type Ptr = int
  type Val = int

  const NULL: Ptr := 0
  const POISON: Ptr := -1   // written over `next` just before a direct free
  const MAXFREE: nat := 150

  /** A node; `next` and `free_next` share one field. */
  datatype Node = Node(data: Val, next: Ptr, canFree: bool)

  datatype Ret = Empty | Got(v: Val)

  /** Where a thread stands.  Each constructor names the access its next step makes. */
  datatype Pc =
    | Idle
    // lfq_enqueue
    | EnqData(a: Ptr, d: Val)
    | EnqXchg(a: Ptr, d: Val)
    | EnqLink(ot: Ptr, a: Ptr)
    // alloc_tid
    | TidRead(i: nat)
    | TidCas(i: nat)
    // lfq_dequeue_tid and free_tid, holding slot tid
    | Run(tid: nat, op: Op)

  datatype Op =
    | ReadHead
    | Publish(oh: Ptr)
    | Validate(oh: Ptr)
    | ReadNext(oh: Ptr)
    | ClearEmpty(oh: Ptr)
    | CasHead(oh: Ptr, nh: Ptr)
    | ClearHp(oh: Ptr, nh: Ptr)
    | ReadData(oh: Ptr, nh: Ptr)
    | SetCanFree(oh: Ptr, nh: Ptr, v: Val)
    | Freeing(v: Val, f: FreeOp)
    | Release(ret: Ret)

  /** safe_free (Sf), enpool (Ep) and free_pool (Fp). */
  datatype FreeOp =
    | SfCheck(x: Ptr)
    | SfScan(x: Ptr, j: nat)
    | SfLock(x: Ptr)
    | SfPoison(x: Ptr)
    | SfFree(x: Ptr)
    | SfUnlock
    | EpNull(x: Ptr)
    | EpXchg(x: Ptr)
    | EpLink(ot: Ptr, x: Ptr)
    | FpLock
    | FpHead(n: nat)
    | FpCanFree(n: nat, p: Ptr)
    | FpNext(n: nat, p: Ptr)
    | FpScan(n: nat, p: Ptr, j: nat)
    | FpReload(n: nat, p: Ptr)
    | FpStore(n: nat, p: Ptr, q: Ptr)
    | FpFree(n: nat, p: Ptr)
    | FpUnlock

  datatype State = State(
    heap: map<Ptr, Node>,
    head: Ptr, tail: Ptr,
    fph: Ptr, fpt: Ptr,
    isFreeing: bool,
    hp: seq<Ptr>, tidMap: seq<bool>,
    pcs: seq<Pc>,
    fault: bool)   // set by a step that touches memory that is not allocated

  /** What the environment decides at a step: an idle thread may start a call. */
  datatype Choice = Go | StartEnq(d: Val, a: Ptr) | StartDeq

  /** lfq_init with `slots` consumer slots, seen by `threads` threads. */
  function Init(dummy: Ptr, pool: Ptr, slots: nat, threads: nat): State {
    State(map[dummy := Node(0, NULL, true), pool := Node(0, NULL, true)],
          dummy, dummy, pool, pool, false,
          seq(slots, _ => NULL), seq(slots, _ => false),
          seq(threads, _ => Idle), false)
  }

  predicate InitOk(dummy: Ptr, pool: Ptr, slots: nat) {
    0 < dummy && 0 < pool && dummy != pool && 0 < slots
  }

  datatype Access = Nothing | Addr(a: Ptr)

  function FreeAccess(f: FreeOp): Access {
    match f
    case SfCheck(x) => Addr(x)
    case SfPoison(x) => Addr(x)
    case SfFree(x) => Addr(x)
    case EpNull(x) => Addr(x)
    case EpLink(ot, _) => Addr(ot)
    case FpCanFree(_, p) => Addr(p)
    case FpNext(_, p) => Addr(p)
    case FpReload(_, p) => Addr(p)
    case FpFree(_, p) => Addr(p)
    case _ => Nothing
  }

  /** The node the next step of a thread reads, writes or frees. */
  function Accesses(pc: Pc): Access {
    match pc
    case EnqData(a, _) => Addr(a)
    case EnqLink(ot, _) => Addr(ot)
    case Run(_, ReadNext(oh)) => Addr(oh)
    case Run(_, ReadData(_, nh)) => Addr(nh)
    case Run(_, SetCanFree(_, nh, _)) => Addr(nh)
    case Run(_, Freeing(_, f)) => FreeAccess(f)
    case _ => Nothing
  }

  /** The next step of pc would touch unallocated memory or a slot that does not exist. */
  predicate Dangling(s: State, pc: Pc) {
    || (Accesses(pc).Addr? && Accesses(pc).a !in s.heap)
    || (pc.TidCas? && (pc.i >= |s.tidMap|))
    || (pc.Run? && (pc.tid >= |s.hp| || pc.tid >= |s.tidMap|))
  }

  /** The one thing a step does to shared memory. */
  datatype Event =
    | Silent                              // reads only
    | Alloc(a: Ptr)
    | WriteData(a: Ptr, d: Val)
    | XchgTail(a: Ptr, d: Val)
    | Link(ot: Ptr, a: Ptr)
    | TakeSlot(i: nat)
    | See                                 // reads head
    | Hazard(i: nat, a: Ptr)              // writes HP[i]
    | Recheck(same: bool)                 // reads head again
    | Win(oh: Ptr, nh: Ptr)               // CAS on head succeeds
    | Lose                                // CAS on head fails
    | Mark(a: Ptr)                        // sets can_free
    | Acquire                             // CAS on is_freeing succeeds
    | Unlock
    | Poison(a: Ptr)
    | FreeNode(a: Ptr)
    | Reset(a: Ptr)                       // free_next = NULL
    | XchgPool(a: Ptr)
    | PoolLink(ot: Ptr, a: Ptr)
    | Unpool(a: Ptr, q: Ptr)              // fph = q
    | Leave(i: nat, ret: Ret)             // gives slot i back

  function SetNext(heap: map<Ptr, Node>, a: Ptr, v: Ptr): map<Ptr, Node> {
    if a in heap then heap[a := heap[a].(next := v)] else heap
  }

  /** The nodes after an event. */
  function HeapAfter(heap: map<Ptr, Node>, e: Event): map<Ptr, Node> {
    match e
    case Alloc(a) => heap[a := Node(0, NULL, false)]
    case WriteData(a, d) => if a in heap then heap[a := heap[a].(data := d)] else heap
    case Link(ot, a) => SetNext(heap, ot, a)
    case Mark(a) => if a in heap then heap[a := heap[a].(canFree := true)] else heap
    case Poison(a) => SetNext(heap, a, POISON)
    case FreeNode(a) => heap - {a}
    case Reset(a) => SetNext(heap, a, NULL)
    case PoolLink(ot, a) => SetNext(heap, ot, a)
    case _ => heap
  }

  /** Shared memory after an event. */
  function Mem(s: State, e: Event): State {
    s.(heap := HeapAfter(s.heap, e),
       head := if e.Win? then e.nh else s.head,
       tail := if e.XchgTail? then e.a else s.tail,
       fph := if e.Unpool? then e.q else s.fph,
       fpt := if e.XchgPool? then e.a else s.fpt,
       isFreeing := if e.Acquire? then true else if e.Unlock? then false else s.isFreeing,
       hp := if e.Hazard? && e.i < |s.hp| then s.hp[e.i := e.a] else s.hp,
       tidMap := if (e.TakeSlot? || e.Leave?) && e.i < |s.tidMap| then s.tidMap[e.i := e.TakeSlot?] else s.tidMap)
  }

  datatype Step = Step(e: Event, pc: Pc)

  /** What a thread at pc does next, and where it stands afterwards. */
  function Next(s: State, pc: Pc, c: Choice): Step
    requires !Dangling(s, pc)
  {
    match pc
    case Idle =>
      (match c
       case Go => Step(Silent, Idle)
       case StartEnq(d, a) =>
         if 0 < a && a !in s.heap then Step(Alloc(a), EnqData(a, d)) else Step(Silent, Idle)
       case StartDeq => Step(Silent, TidRead(0)))
    case EnqData(a, d) => Step(WriteData(a, d), EnqXchg(a, d))
    case EnqXchg(a, d) => Step(XchgTail(a, d), EnqLink(s.tail, a))
    case EnqLink(ot, a) => Step(Link(ot, a), Idle)
    case TidRead(i) =>
      if i >= |s.tidMap| then Step(Silent, Idle)          // lfq_dequeue returns -1
      else if s.tidMap[i] then Step(Silent, TidRead(i + 1))
      else Step(Silent, TidCas(i))
    case TidCas(i) =>
      if s.tidMap[i] then Step(Silent, TidRead(i + 1)) else Step(TakeSlot(i), Run(i, ReadHead))
    case Run(tid, Release(ret)) => Step(Leave(tid, ret), Idle)
    case Run(tid, Freeing(v, f)) => NextFree(s, tid, v, f)
    case Run(tid, op) => NextOp(s, tid, op)
  }

  /** lfq_dequeue_tid up to its call of safe_free. */
  function NextOp(s: State, tid: nat, op: Op): Step
    requires !Dangling(s, Run(tid, op)) && !op.Release? && !op.Freeing?
  {
    match op
    case ReadHead => Step(See, Run(tid, Publish(s.head)))
    case Publish(oh) => Step(Hazard(tid, oh), Run(tid, Validate(oh)))
    case Validate(oh) =>
      if oh != s.head then Step(Recheck(false), Run(tid, ReadHead)) else Step(Recheck(true), Run(tid, ReadNext(oh)))
    case ReadNext(oh) =>
      var nh := s.heap[oh].next;
      Step(Silent, Run(tid, if nh == NULL then ClearEmpty(oh) else CasHead(oh, nh)))
    case ClearEmpty(oh) => Step(Hazard(tid, NULL), Run(tid, Release(Empty)))
    case CasHead(oh, nh) =>
      if s.head == oh then Step(Win(oh, nh), Run(tid, ClearHp(oh, nh))) else Step(Lose, Run(tid, ReadHead))
    case ClearHp(oh, nh) => Step(Hazard(tid, NULL), Run(tid, ReadData(oh, nh)))
    case ReadData(oh, nh) => Step(Silent, Run(tid, SetCanFree(oh, nh, s.heap[nh].data)))
    case SetCanFree(oh, nh, v) => Step(Mark(nh), Run(tid, Freeing(v, SfCheck(oh))))
  }

  /** safe_free, enpool and free_pool. */
  function NextFree(s: State, tid: nat, v: Val, f: FreeOp): Step
    requires !Dangling(s, Run(tid, Freeing(v, f)))
  {
    match f
    case SfCheck(x) => Step(Silent, At(tid, v, if s.heap[x].canFree then SfScan(x, 0) else EpNull(x)))
    case SfScan(x, j) =>
      Step(Silent, At(tid, v, if j >= |s.hp| then SfLock(x) else if s.hp[j] == x then EpNull(x) else SfScan(x, j + 1)))
    case SfLock(x) =>
      if s.isFreeing then Step(Silent, At(tid, v, EpNull(x))) else Step(Acquire, At(tid, v, SfPoison(x)))
    case SfPoison(x) => Step(Poison(x), At(tid, v, SfFree(x)))
    case SfFree(x) => Step(FreeNode(x), At(tid, v, SfUnlock))
    case SfUnlock => Step(Unlock, At(tid, v, FpLock))
    case EpNull(x) => Step(Reset(x), At(tid, v, EpXchg(x)))
    case EpXchg(x) => Step(XchgPool(x), At(tid, v, EpLink(s.fpt, x)))
    case EpLink(ot, x) => Step(PoolLink(ot, x), At(tid, v, FpLock))
    case FpLock =>
      if s.isFreeing then Step(Silent, Run(tid, Release(Got(v)))) else Step(Acquire, At(tid, v, FpHead(0)))
    case FpHead(n) => Step(Silent, At(tid, v, if n < MAXFREE then FpCanFree(n, s.fph) else FpUnlock))
    case FpCanFree(n, p) => Step(Silent, At(tid, v, if s.heap[p].canFree then FpNext(n, p) else FpUnlock))
    case FpNext(n, p) => Step(Silent, At(tid, v, if s.heap[p].next != NULL then FpScan(n, p, 0) else FpUnlock))
    case FpScan(n, p, j) =>
      Step(Silent, At(tid, v,
        if j >= |s.hp| then FpReload(n, p) else if s.hp[j] == p then FpUnlock else FpScan(n, p, j + 1)))
    case FpReload(n, p) => Step(Silent, At(tid, v, FpStore(n, p, s.heap[p].next)))
    case FpStore(n, p, q) => Step(Unpool(p, q), At(tid, v, FpFree(n, p)))
    case FpFree(n, p) => Step(FreeNode(p), At(tid, v, FpHead(n + 1)))
    case FpUnlock => Step(Unlock, Run(tid, Release(Got(v))))
  }

  function At(tid: nat, v: Val, f: FreeOp): Pc { Run(tid, Freeing(v, f)) }

  function After(s: State, t: nat, e: Event, pc: Pc): State
    requires t < |s.pcs|
  {
    Mem(s, e).(pcs := s.pcs[t := pc])
  }

  /** One step of thread t. */
  function Exec(s: State, t: nat, c: Choice): State {
    if t >= |s.pcs| then s
    else if Dangling(s, s.pcs[t]) then s.(fault := true)
    else var st := Next(s, s.pcs[t], c); After(s, t, st.e, st.pc)
  }

  /** Whose turn it is, and what it decides; a run follows a schedule of such moves. */
  datatype Move = Move(t: nat, c: Choice)

  function RunFrom(s: State, sched: seq<Move>): State {
    if sched == [] then s
    else
      var last := sched[|sched| - 1];
      Exec(RunFrom(s, sched[..|sched| - 1]), last.t, last.c)
  }
}
