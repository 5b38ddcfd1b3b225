/**
 What the later steps of a call rest on.  A call of lfq_dequeue is cut into steps, between which anything
 may happen; these theorems say of every schedule which readings, made earlier in the same call, led it to
 the answer "empty", to the answer -1, to retire a node or to free it, and to the end of free_pool.
 */
module LfqAnswers {
  import opened LfqModel
  import opened LfqTheorems

  /** A queue made by lfq_init, and the threads that share it. */
  datatype Setup = Setup(dummy: Ptr, pool: Ptr, slots: nat, threads: nat) {
    predicate Ok() { InitOk(dummy, pool, slots) }
  }

  /** Shared memory and threads after the first k moves. */
  function StateAt(q: Setup, sched: seq<Move>, k: nat): State
    requires q.Ok() && k <= |sched|
  {
    Reach(q.dummy, q.pool, q.slots, q.threads, sched[..k]).s
  }

  /** Where thread t stands after the first k moves. */
  function PcAt(q: Setup, sched: seq<Move>, k: nat, t: nat): Pc
    requires q.Ok() && k <= |sched|
  {
    var s := StateAt(q, sched, k);
    if t < |s.pcs| then s.pcs[t] else Idle
  }

  /** From the k-th to the n-th state thread t is in one and the same call. */
  ghost predicate SameCall(q: Setup, sched: seq<Move>, t: nat, k: nat, n: nat)
    requires q.Ok() && n <= |sched|
  {
    forall j | k <= j <= n :: PcAt(q, sched, j, t) != Idle
  }

  /** A reading that decides how a call goes on. */
  datatype Sight =
    | NullBehind(tid: nat, oh: Ptr)         // old_head has no successor
    | NullSomewhere(tid: nat)               // so has some old_head
    | Taken(i: nat)                         // slot i is not free, or the CAS for it fails
    | Unfit(tid: nat, x: Ptr)               // safe_free must not free x itself
    | Marked(tid: nat, x: Ptr)              // x has can_free set
    | Unnamed(tid: nat, x: Ptr, j: nat)     // hazard pointer j does not name x
    | Unlocked(tid: nat, x: Ptr)            // safe_free gets is_freeing
    | PassOver(tid: nat)                    // free_pool has a reason to stop
    | PassFreed(tid: nat, m: nat)           // free_pool frees its m-th node
    | PassGoesOn(tid: nat, m: nat)          // free_pool has freed m nodes, fewer than 150

  predicate UnfitAt(s: State, f: FreeOp, x: Ptr) {
    || (f == SfCheck(x) && x in s.heap && !s.heap[x].canFree)
    || (f.SfScan? && f.x == x && f.j < |s.hp| && s.hp[f.j] == x)
    || (f == SfLock(x) && s.isFreeing)
  }

  /** is_freeing is taken, or 150 nodes are freed, or the first node is unmarked, the last, or in use. */
  predicate PassOverAt(s: State, f: FreeOp) {
    || (f.FpLock? && s.isFreeing)
    || (f.FpHead? && f.n >= MAXFREE)
    || (f.FpCanFree? && f.p in s.heap && !s.heap[f.p].canFree)
    || (f.FpNext? && f.p in s.heap && s.heap[f.p].next == NULL)
    || (f.FpScan? && f.j < |s.hp| && s.hp[f.j] == f.p)
  }

  /** The next step of a thread at pc makes that reading. */
  predicate Seen(s: State, pc: Pc, w: Sight) {
    match w
    case NullBehind(tid, oh) => pc == Run(tid, ReadNext(oh)) && oh in s.heap && s.heap[oh].next == NULL
    case NullSomewhere(tid) =>
      pc.Run? && pc.tid == tid && pc.op.ReadNext? && pc.op.oh in s.heap && s.heap[pc.op.oh].next == NULL
    case Taken(i) => (pc == TidRead(i) || pc == TidCas(i)) && i < |s.tidMap| && s.tidMap[i]
    case Unfit(tid, x) => pc.Run? && pc.tid == tid && pc.op.Freeing? && UnfitAt(s, pc.op.f, x)
    case Marked(tid, x) =>
      pc.Run? && pc.tid == tid && pc.op.Freeing? && pc.op.f == SfCheck(x) && x in s.heap && s.heap[x].canFree
    case Unnamed(tid, x, j) =>
      pc.Run? && pc.tid == tid && pc.op.Freeing? && pc.op.f == SfScan(x, j) && j < |s.hp| && s.hp[j] != x
    case Unlocked(tid, x) =>
      pc.Run? && pc.tid == tid && pc.op.Freeing? && pc.op.f == SfLock(x) && !s.isFreeing
    case PassOver(tid) => pc.Run? && pc.tid == tid && pc.op.Freeing? && PassOverAt(s, pc.op.f)
    case PassFreed(tid, m) =>
      pc.Run? && pc.tid == tid && pc.op.Freeing? && pc.op.f.FpFree? && pc.op.f.n == m && pc.op.f.p in s.heap
    case PassGoesOn(tid, m) =>
      pc.Run? && pc.tid == tid && pc.op.Freeing? && pc.op.f == FpHead(m) && m < MAXFREE
  }

  predicate Retiring(f: FreeOp, x: Ptr) { f == EpNull(x) || f == EpXchg(x) || (f.EpLink? && f.x == x) }

  /** safe_free has looked at can_free and at the first j hazard pointers. */
  predicate Scanned(f: FreeOp, x: Ptr, j: nat) {
    (f.SfScan? && f.x == x && j <= f.j) || f == SfLock(x) || f == SfPoison(x) || f == SfFree(x)
  }

  /** free_pool is past its m-th node. */
  predicate Past(f: FreeOp, m: nat) {
    match f
    case FpHead(n) => m < n
    case FpCanFree(n, _) => m < n
    case FpNext(n, _) => m < n
    case FpScan(n, _, _) => m < n
    case FpReload(n, _) => m < n
    case FpStore(n, _, _) => m < n
    case FpFree(n, _) => m < n
    case _ => false
  }

  /** free_pool considers its m-th node. */
  predicate Considers(f: FreeOp, m: nat) {
    match f
    case FpCanFree(n, _) => m == n
    case FpNext(n, _) => m == n
    case FpScan(n, _, _) => m == n
    case FpReload(n, _) => m == n
    case FpStore(n, _, _) => m == n
    case FpFree(n, _) => m == n
    case _ => false
  }

  predicate SaysEmpty(pc: Pc, tid: nat) {
    pc.Run? && pc.tid == tid && (pc.op.ClearEmpty? || pc.op == Release(Empty))
  }

  /** A thread can only be at pc because it made that reading. */
  predicate RestsOn(pc: Pc, w: Sight, slots: nat) {
    match w
    case NullBehind(tid, oh) => pc == Run(tid, ClearEmpty(oh))
    case NullSomewhere(tid) => SaysEmpty(pc, tid)
    case Taken(i) => (pc.TidRead? && i < pc.i) || (pc.TidCas? && i < pc.i) || (pc.Run? && i < pc.tid)
    case Unfit(tid, x) => pc.Run? && pc.tid == tid && pc.op.Freeing? && Retiring(pc.op.f, x)
    case Marked(tid, x) => pc.Run? && pc.tid == tid && pc.op.Freeing? && Scanned(pc.op.f, x, 0)
    case Unnamed(tid, x, j) =>
      pc.Run? && pc.tid == tid && pc.op.Freeing? && j < slots && Scanned(pc.op.f, x, j + 1)
    case Unlocked(tid, x) =>
      pc.Run? && pc.tid == tid && pc.op.Freeing? && (pc.op.f == SfPoison(x) || pc.op.f == SfFree(x))
    case PassOver(tid) =>
      pc.Run? && pc.tid == tid && ((pc.op.Release? && pc.op.ret.Got?) || (pc.op.Freeing? && pc.op.f.FpUnlock?))
    case PassFreed(tid, m) => pc.Run? && pc.tid == tid && pc.op.Freeing? && Past(pc.op.f, m)
    case PassGoesOn(tid, m) => pc.Run? && pc.tid == tid && pc.op.Freeing? && Considers(pc.op.f, m)
  }

  lemma OpRests(s: State, tid: nat, op: Op, w: Sight)
    requires !Dangling(s, Run(tid, op)) && !op.Release? && !op.Freeing?
    requires RestsOn(NextOp(s, tid, op).pc, w, |s.hp|)
    ensures RestsOn(Run(tid, op), w, |s.hp|) || Seen(s, Run(tid, op), w)
  {
  }

  lemma FreeRests(s: State, tid: nat, v: Val, f: FreeOp, w: Sight)
    requires !Dangling(s, Run(tid, Freeing(v, f))) && RestsOn(NextFree(s, tid, v, f).pc, w, |s.hp|)
    ensures RestsOn(Run(tid, Freeing(v, f)), w, |s.hp|) || Seen(s, Run(tid, Freeing(v, f)), w)
  {
  }

  /** Where a step leads to what rests on a reading, the step makes it or the thread rested on it before. */
  lemma NextRests(s: State, pc: Pc, c: Choice, w: Sight)
    requires !Dangling(s, pc) && RestsOn(Next(s, pc, c).pc, w, |s.hp|)
    ensures pc != Idle && (RestsOn(pc, w, |s.hp|) || Seen(s, pc, w))
  {
    hide NextOp, NextFree;
    if pc.Run? && pc.op.Freeing? {
      hide RestsOn, Seen;
      FreeRests(s, pc.tid, pc.op.v, pc.op.f, w);
    } else if pc.Run? && !pc.op.Release? {
      hide RestsOn, Seen;
      OpRests(s, pc.tid, pc.op, w);
    }
  }

  // ---- Schedules ----

  lemma RestsRunning(pc: Pc, w: Sight, slots: nat)
    requires RestsOn(pc, w, slots)
    ensures pc != Idle
  {
  }

  /** The numbers of slots and threads never change. */
  ghost predicate Sized(q: Setup, s: State) { |s.hp| == |s.tidMap| == q.slots && |s.pcs| == q.threads }

  lemma ExecSized(s: State, m: Move)
    ensures var s' := Exec(s, m.t, m.c); |s'.hp| == |s.hp| && |s'.tidMap| == |s.tidMap| && |s'.pcs| == |s.pcs|
  {
  }

  /** The state after k + 1 moves is the k-th after one step. */
  lemma StepAt(q: Setup, sched: seq<Move>, k: nat)
    requires q.Ok() && k < |sched|
    ensures StateAt(q, sched, k + 1) == Exec(StateAt(q, sched, k), sched[k].t, sched[k].c)
    ensures var s := StateAt(q, sched, k); sched[k].t < |s.pcs| ==> !Dangling(s, s.pcs[sched[k].t])
  {
    assert sched[..k + 1] == sched[..k] + [sched[k]];
    ReachNext(q.dummy, q.pool, q.slots, q.threads, sched[..k], sched[k]);
  }

  lemma {:induction false} SizedAt(q: Setup, sched: seq<Move>, k: nat)
    requires q.Ok() && k <= |sched|
    ensures Sized(q, StateAt(q, sched, k))
  {
    if k > 0 {
      hide Exec;
      SizedAt(q, sched, k - 1);
      StepAt(q, sched, k - 1);
      ExecSized(StateAt(q, sched, k - 1), sched[k - 1]);
    } else {
      assert sched[..0] == [];
    }
  }

  /** One move: its thread takes a step, the others stay. */
  lemma MovedPc(q: Setup, sched: seq<Move>, k: nat, t: nat)
    requires q.Ok() && k < |sched|
    ensures var s, m, pc := StateAt(q, sched, k), sched[k], PcAt(q, sched, k, t);
            if m.t == t < |s.pcs| then !Dangling(s, pc) && PcAt(q, sched, k + 1, t) == Next(s, pc, m.c).pc
            else PcAt(q, sched, k + 1, t) == pc
  {
    StepAt(q, sched, k);
    var s, m := StateAt(q, sched, k), sched[k];
    if m.t < |s.pcs| { ExecShape(s, m.t, m.c); }
  }

  lemma StartsIdle(q: Setup, sched: seq<Move>, t: nat)
    requires q.Ok()
    ensures PcAt(q, sched, 0, t) == Idle
  {
    assert sched[..0] == [];
  }

  /** The k-th state shows thread t about to make that reading, in the call it is in after n moves. */
  ghost predicate SeenAt(q: Setup, sched: seq<Move>, n: nat, t: nat, k: nat, w: Sight)
    requires q.Ok() && n <= |sched|
  {
    k < n && Seen(StateAt(q, sched, k), PcAt(q, sched, k, t), w) && SameCall(q, sched, t, k, n)
  }

  lemma RestedBefore(q: Setup, sched: seq<Move>, n: nat, t: nat, w: Sight)
    requires q.Ok() && n < |sched| && RestsOn(PcAt(q, sched, n + 1, t), w, q.slots)
    ensures PcAt(q, sched, n + 1, t) != Idle && PcAt(q, sched, n, t) != Idle
    ensures RestsOn(PcAt(q, sched, n, t), w, q.slots) || Seen(StateAt(q, sched, n), PcAt(q, sched, n, t), w)
  {
    hide Next, Seen, RestsOn, StateAt;
    var s, pc := StateAt(q, sched, n), PcAt(q, sched, n, t);
    SizedAt(q, sched, n);
    MovedPc(q, sched, n, t);
    RestsRunning(PcAt(q, sched, n + 1, t), w, q.slots);
    if sched[n].t == t < |s.pcs| { NextRests(s, pc, sched[n].c, w); }
  }

  /** What a thread rests on, it has read earlier in the same call. */
  lemma {:induction false} Traced(q: Setup, sched: seq<Move>, n: nat, t: nat, w: Sight) returns (k: nat)
    requires q.Ok() && n <= |sched| && RestsOn(PcAt(q, sched, n, t), w, q.slots)
    ensures SeenAt(q, sched, n, t, k, w)
  {
    hide Seen, RestsOn, PcAt, StateAt;
    if n == 0 {
      StartsIdle(q, sched, t);
      RestsRunning(PcAt(q, sched, 0, t), w, q.slots);
      assert false;
    } else {
      RestedBefore(q, sched, n - 1, t, w);
      if RestsOn(PcAt(q, sched, n - 1, t), w, q.slots) {
        k := Traced(q, sched, n - 1, t, w);
      } else {
        k := n - 1;
      }
    }
  }

  // ---- The answer "empty" ----

  /** A dequeuer reads NULL behind the node it has validated, for one of the three causes there are. */
  ghost predicate FindsNothing(s: State, pc: Pc, tid: nat, oh: Ptr) {
    && pc == Run(tid, ReadNext(oh)) && oh in s.heap && s.heap[oh].next == NULL
    && (NothingFollows(s, oh) || FollowerUnlinked(s, oh) || BeingRetired(s, oh))
  }

  lemma FoundNothing(q: Setup, sched: seq<Move>, k: nat, t: nat, tid: nat, oh: Ptr)
    requires q.Ok() && k <= |sched| && Seen(StateAt(q, sched, k), PcAt(q, sched, k, t), NullBehind(tid, oh))
    ensures FindsNothing(StateAt(q, sched, k), PcAt(q, sched, k, t), tid, oh)
  {
    var y := Reach(q.dummy, q.pool, q.slots, q.threads, sched[..k]);
    assert Reachable(y.s, y.g);
    EmptyMeans(y.s, y.g, t, tid, oh);
  }

  /**
   A call that is about to answer "empty" (lines 190-191) has read NULL behind a validated head, in the same
   call, for one of the three causes; no failed re-validation and no lost CAS leads there.
   */
  lemma EmptyBecause(q: Setup, sched: seq<Move>, n: nat, t: nat, tid: nat) returns (k: nat, oh: Ptr)
    requires q.Ok() && n <= |sched| && SaysEmpty(PcAt(q, sched, n, t), tid)
    ensures k < n && SameCall(q, sched, t, k, n)
    ensures FindsNothing(StateAt(q, sched, k), PcAt(q, sched, k, t), tid, oh)
    ensures PcAt(q, sched, n, t).op.ClearEmpty? ==> PcAt(q, sched, n, t).op.oh == oh
  {
    var pc := PcAt(q, sched, n, t);
    hide PcAt, StateAt;
    if pc.op.ClearEmpty? {
      oh := pc.op.oh;
      k := Traced(q, sched, n, t, NullBehind(tid, oh));
    } else {
      k := Traced(q, sched, n, t, NullSomewhere(tid));
      oh := PcAt(q, sched, k, t).op.oh;
    }
    FoundNothing(q, sched, k, t, tid, oh);
  }

  /** What the n-th move does to shared memory. */
  function EventAt(q: Setup, sched: seq<Move>, n: nat): Event
    requires q.Ok() && n < |sched|
  {
    var s, m := StateAt(q, sched, n), sched[n];
    if m.t < |s.pcs| && !Dangling(s, s.pcs[m.t]) then Next(s, s.pcs[m.t], m.c).e else Silent
  }

  lemma LeavesFrom(s: State, pc: Pc, c: Choice, tid: nat)
    requires !Dangling(s, pc) && Next(s, pc, c).e == Leave(tid, Empty)
    ensures pc == Run(tid, Release(Empty))
  {
  }

  /** Every move that gives a slot back with the answer "empty" rests on such a reading of the same call. */
  lemma EmptyAnswer(q: Setup, sched: seq<Move>, n: nat, tid: nat) returns (k: nat, oh: Ptr)
    requires q.Ok() && n < |sched| && EventAt(q, sched, n) == Leave(tid, Empty)
    ensures k < n && SameCall(q, sched, sched[n].t, k, n)
    ensures FindsNothing(StateAt(q, sched, k), PcAt(q, sched, k, sched[n].t), tid, oh)
  {
    var s, m := StateAt(q, sched, n), sched[n];
    LeavesFrom(s, s.pcs[m.t], m.c, tid);
    k, oh := EmptyBecause(q, sched, n, m.t, tid);
  }

  // ---- The answer -1 ----

  /** Thread t finds slot i taken: it reads that, or its CAS for the slot fails. */
  predicate FindsTaken(s: State, pc: Pc, i: nat) {
    (pc == TidRead(i) || pc == TidCas(i)) && i < |s.tidMap| && s.tidMap[i]
  }

  predicate Searching(pc: Pc) { pc.TidRead? || pc.TidCas? }

  lemma SearchEnds(s: State, pc: Pc, c: Choice)
    requires !Dangling(s, pc) && Searching(pc) && Next(s, pc, c).pc == Idle
    ensures pc.TidRead? && pc.i >= |s.tidMap|
  {
  }

  lemma GivesUpAt(q: Setup, sched: seq<Move>, n: nat, t: nat)
    requires q.Ok() && n < |sched| && Searching(PcAt(q, sched, n, t)) && PcAt(q, sched, n + 1, t) == Idle
    ensures PcAt(q, sched, n, t).TidRead? && PcAt(q, sched, n, t).i >= q.slots
  {
    hide Next;
    MovedPc(q, sched, n, t);
    SizedAt(q, sched, n);
    SearchEnds(StateAt(q, sched, n), PcAt(q, sched, n, t), sched[n].c);
  }

  /** A call answers -1 only after it found each slot taken when it was there. */
  lemma NoSlotBecause(q: Setup, sched: seq<Move>, n: nat, t: nat, i: nat) returns (k: nat)
    requires q.Ok() && n < |sched| && Searching(PcAt(q, sched, n, t)) && PcAt(q, sched, n + 1, t) == Idle
    requires i < q.slots
    ensures k < n && SameCall(q, sched, t, k, n) && FindsTaken(StateAt(q, sched, k), PcAt(q, sched, k, t), i)
  {
    GivesUpAt(q, sched, n, t);
    k := Traced(q, sched, n, t, Taken(i));
  }

  /** A call that holds a slot found each one before it taken. */
  lemma SlotBecause(q: Setup, sched: seq<Move>, n: nat, t: nat, i: nat) returns (k: nat)
    requires q.Ok() && n <= |sched| && PcAt(q, sched, n, t).Run? && i < PcAt(q, sched, n, t).tid
    ensures k < n && SameCall(q, sched, t, k, n) && FindsTaken(StateAt(q, sched, k), PcAt(q, sched, k, t), i)
  {
    k := Traced(q, sched, n, t, Taken(i));
  }

  /** With never more threads in lfq_dequeue than slots, no call answers -1. */
  lemma NoSlotNever(q: Setup, sched: seq<Move>, n: nat, t: nat)
    requires q.Ok() && FewAtOnce(q.dummy, q.pool, q.slots, q.threads, sched)
    requires n < |sched| && Searching(PcAt(q, sched, n, t))
    ensures PcAt(q, sched, n + 1, t) != Idle
  {
    if PcAt(q, sched, n + 1, t) == Idle {
      GivesUpAt(q, sched, n, t);
      SizedAt(q, sched, n);
      assert forall k | 0 <= k <= n :: sched[..n][..k] == sched[..k];
      SlotsSuffice(q.dummy, q.pool, q.slots, q.threads, sched[..n], t);
    }
  }

  // ---- safe_free and free_pool ----

  /** A node goes to the retired list (lines 67 and 69) only if it was unmarked or named, or the lock taken. */
  lemma RetiredBecause(q: Setup, sched: seq<Move>, n: nat, t: nat, tid: nat, v: Val, x: Ptr) returns (k: nat)
    requires q.Ok() && n <= |sched| && PcAt(q, sched, n, t) == Run(tid, Freeing(v, EpNull(x)))
    ensures SeenAt(q, sched, n, t, k, Unfit(tid, x))
  {
    k := Traced(q, sched, n, t, Unfit(tid, x));
  }

  lemma FreeRestsOn(tid: nat, v: Val, x: Ptr, j: nat, slots: nat)
    requires j < slots
    ensures var pc := Run(tid, Freeing(v, SfFree(x)));
            RestsOn(pc, Marked(tid, x), slots) && RestsOn(pc, Unnamed(tid, x, j), slots)
            && RestsOn(pc, Unlocked(tid, x), slots)
  {
  }

  /** safe_free frees a node itself only after it saw the mark, each hazard pointer elsewhere, and the lock open. */
  lemma FreedBecause(q: Setup, sched: seq<Move>, n: nat, t: nat, tid: nat, v: Val, x: Ptr, j: nat)
      returns (k0: nat, k1: nat, k2: nat)
    requires q.Ok() && n <= |sched| && PcAt(q, sched, n, t) == Run(tid, Freeing(v, SfFree(x))) && j < q.slots
    ensures SeenAt(q, sched, n, t, k0, Marked(tid, x))
    ensures SeenAt(q, sched, n, t, k1, Unnamed(tid, x, j))
    ensures SeenAt(q, sched, n, t, k2, Unlocked(tid, x))
  {
    FreeRestsOn(tid, v, x, j, q.slots);
    hide PcAt, Seen, RestsOn;
    k0 := Traced(q, sched, n, t, Marked(tid, x));
    k1 := Traced(q, sched, n, t, Unnamed(tid, x, j));
    k2 := Traced(q, sched, n, t, Unlocked(tid, x));
  }

  /** A dequeue returns its value only after its free_pool had a reason to stop. */
  lemma PassBecause(q: Setup, sched: seq<Move>, n: nat, t: nat, tid: nat, v: Val) returns (k: nat)
    requires q.Ok() && n <= |sched| && PcAt(q, sched, n, t) == Run(tid, Release(Got(v)))
    ensures SeenAt(q, sched, n, t, k, PassOver(tid))
  {
    k := Traced(q, sched, n, t, PassOver(tid));
  }

  lemma CounterRests(tid: nat, v: Val, i: nat, m: nat, slots: nat)
    requires m < i
    ensures RestsOn(Run(tid, Freeing(v, FpHead(i))), PassFreed(tid, m), slots)
  {
  }

  lemma FreedConsidered(s: State, pc: Pc, tid: nat, m: nat, slots: nat)
    requires Seen(s, pc, PassFreed(tid, m))
    ensures RestsOn(pc, PassGoesOn(tid, m), slots)
  {
  }

  lemma WithinLimit(s: State, pc: Pc, tid: nat, m: nat)
    requires Seen(s, pc, PassGoesOn(tid, m))
    ensures m < MAXFREE
  {
  }

  /** The counter of free_pool counts the nodes it frees, and it frees no more than 150. */
  lemma PassCounts(q: Setup, sched: seq<Move>, n: nat, t: nat, tid: nat, v: Val, i: nat, m: nat) returns (k: nat)
    requires q.Ok() && n <= |sched| && PcAt(q, sched, n, t) == Run(tid, Freeing(v, FpHead(i))) && m < i
    ensures m < MAXFREE && SeenAt(q, sched, n, t, k, PassFreed(tid, m))
  {
    CounterRests(tid, v, i, m, q.slots);
    hide PcAt, StateAt, RestsOn, Seen;
    k := Traced(q, sched, n, t, PassFreed(tid, m));
    FreedConsidered(StateAt(q, sched, k), PcAt(q, sched, k, t), tid, m, q.slots);
    var k1 := Traced(q, sched, k, t, PassGoesOn(tid, m));
    WithinLimit(StateAt(q, sched, k1), PcAt(q, sched, k1, t), tid, m);
  }
}
