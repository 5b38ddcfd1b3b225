/**
 Progress of the lock-free queue, counted over schedules: a call of lfq_enqueue takes a fixed number of
 steps of its own, and a call of lfq_dequeue a fixed number plus five for every successful CAS that
 another thread makes on head meanwhile.
 */
module LfqProgress {
  import opened LfqModel
  import opened LfqHistory
  import opened LfqInvariant
  import opened LfqInductive
  import opened LfqTheorems
  import opened LfqAnswers

  // ---- How far a call still has to go ----

  function Rest(slots: nat, j: nat): nat { if j < slots then slots - j else 0 }

  /** Steps left to free_pool's loop when it has freed n nodes. */
  function Passes(n: nat, slots: nat): nat
    decreases MAXFREE - n
  {
    if n < MAXFREE then Passes(n + 1, slots) + slots + 8 else 3
  }

  function FreeRank(f: FreeOp, slots: nat): nat {
    var top := Passes(0, slots);
    match f
    case SfCheck(_) => top + slots + 7
    case SfScan(_, j) => top + 6 + Rest(slots, j)
    case SfLock(_) => top + 5
    case SfPoison(_) => top + 4
    case SfFree(_) => top + 3
    case SfUnlock => top + 2
    case EpNull(_) => top + 4
    case EpXchg(_) => top + 3
    case EpLink(_, _) => top + 2
    case FpLock => top + 1
    case FpHead(n) => Passes(n, slots)
    case FpCanFree(n, _) => Passes(n + 1, slots) + slots + 7
    case FpNext(n, _) => Passes(n + 1, slots) + slots + 6
    case FpScan(n, _, j) => Passes(n + 1, slots) + 5 + Rest(slots, j)
    case FpReload(n, _) => Passes(n + 1, slots) + 4
    case FpStore(n, _, _) => Passes(n + 1, slots) + 3
    case FpFree(n, _) => Passes(n + 1, slots) + 2
    case FpUnlock => 2
  }

  function OpRank(op: Op, slots: nat): nat {
    var top := Passes(0, slots) + slots + 8;
    match op
    case ReadHead => top + 7
    case Publish(_) => top + 6
    case Validate(_) => top + 5
    case ReadNext(_) => top + 4
    case ClearEmpty(_) => 2
    case CasHead(_, _) => top + 3
    case ClearHp(_, _) => top + 2
    case ReadData(_, _) => top + 1
    case SetCanFree(_, _, _) => top
    case Freeing(_, f) => FreeRank(f, slots)
    case Release(_) => 1
  }

  /** An upper bound on the steps a thread at pc takes before it is idle, if no attempt fails. */
  function Rank(pc: Pc, slots: nat): nat {
    match pc
    case Idle => 0
    case EnqData(_, _) => 3
    case EnqXchg(_, _) => 2
    case EnqLink(_, _) => 1
    case TidRead(i) => Passes(0, slots) + slots + 16 + 2 * Rest(slots, i)
    case TidCas(i) => Passes(0, slots) + slots + 17 + 2 * Rest(slots, i + 1)
    case Run(_, op) => OpRank(op, slots)
  }

  /** A re-validation or a CAS on head fails. */
  predicate Fails(e: Event) { e == Lose || e == Recheck(false) }

  /** A step of a call brings its end nearer, but for a failed attempt. */
  predicate Brings(s: State, pc: Pc, st: Step) {
    Rank(st.pc, |s.hp|) + 1 <= Rank(pc, |s.hp|) + if Fails(st.e) then 5 else 0
  }

  lemma {:induction false} PassesMin(n: nat, slots: nat)
    ensures 3 <= Passes(n, slots)
    decreases MAXFREE - n
  {
    if n < MAXFREE { PassesMin(n + 1, slots); }
  }

  lemma {:induction false} PassesLeft(n: nat, slots: nat)
    requires n <= MAXFREE
    ensures Passes(n, slots) == 3 + (MAXFREE - n) * (slots + 8)
    decreases MAXFREE - n
  {
    if n < MAXFREE { PassesLeft(n + 1, slots); }
  }

  lemma HeadRankStep(s: State, tid: nat, v: Val, n: nat)
    requires !Dangling(s, Run(tid, Freeing(v, FpHead(n))))
    ensures Brings(s, Run(tid, Freeing(v, FpHead(n))), NextFree(s, tid, v, FpHead(n)))
  {
  }

  lemma TestRankStep(s: State, tid: nat, v: Val, f: FreeOp)
    requires !Dangling(s, Run(tid, Freeing(v, f))) && (f.FpCanFree? || f.FpNext? || f.FpScan?)
    ensures Brings(s, Run(tid, Freeing(v, f)), NextFree(s, tid, v, f))
  {
    hide Passes;
  }

  lemma TakeRankStep(s: State, tid: nat, v: Val, f: FreeOp)
    requires !Dangling(s, Run(tid, Freeing(v, f))) && (f.FpReload? || f.FpStore? || f.FpFree?)
    ensures Brings(s, Run(tid, Freeing(v, f)), NextFree(s, tid, v, f))
  {
    hide Passes;
  }

  lemma SafeFreeRankStep(s: State, tid: nat, v: Val, f: FreeOp)
    requires !Dangling(s, Run(tid, Freeing(v, f))) && !f.FpHead?
    requires !(f.FpCanFree? || f.FpNext? || f.FpScan? || f.FpReload? || f.FpStore? || f.FpFree?)
    ensures Brings(s, Run(tid, Freeing(v, f)), NextFree(s, tid, v, f))
  {
    hide Passes;
    PassesMin(0, |s.hp|);
  }

  lemma FreeRankStep(s: State, tid: nat, v: Val, f: FreeOp)
    requires !Dangling(s, Run(tid, Freeing(v, f)))
    ensures Brings(s, Run(tid, Freeing(v, f)), NextFree(s, tid, v, f))
  {
    hide Brings, NextFree;
    if f.FpHead? {
      HeadRankStep(s, tid, v, f.n);
    } else if f.FpCanFree? || f.FpNext? || f.FpScan? {
      TestRankStep(s, tid, v, f);
    } else if f.FpReload? || f.FpStore? || f.FpFree? {
      TakeRankStep(s, tid, v, f);
    } else {
      SafeFreeRankStep(s, tid, v, f);
    }
  }

  lemma OpRankStep(s: State, tid: nat, op: Op)
    requires !Dangling(s, Run(tid, op)) && !op.Release? && !op.Freeing?
    ensures Brings(s, Run(tid, op), NextOp(s, tid, op))
  {
    hide Passes;
  }

  lemma RankStep(s: State, pc: Pc, c: Choice)
    requires !Dangling(s, pc) && pc != Idle && |s.hp| == |s.tidMap|
    ensures Brings(s, pc, Next(s, pc, c))
  {
    hide NextOp, NextFree, Passes;
    if pc.Run? && pc.op.Freeing? {
      hide Brings;
      FreeRankStep(s, pc.tid, pc.op.v, pc.op.f);
    } else if pc.Run? && !pc.op.Release? {
      hide Brings;
      OpRankStep(s, pc.tid, pc.op);
    }
  }

  // ---- Counting the moves of a schedule ----

  datatype Kind = Own | Failure | Rival

  /** Move j is one of thread t, a failed attempt of t, or a successful CAS on head by another thread. */
  predicate Is(q: Setup, sched: seq<Move>, t: nat, j: nat, kind: Kind)
    requires q.Ok() && j < |sched|
  {
    match kind
    case Own => sched[j].t == t
    case Failure => sched[j].t == t && Fails(EventAt(q, sched, j))
    case Rival => sched[j].t != t && EventAt(q, sched, j).Win?
  }

  /** The number of such moves from the k-th on and before the n-th. */
  function Number(q: Setup, sched: seq<Move>, t: nat, k: nat, n: nat, kind: Kind): nat
    requires q.Ok() && k <= n <= |sched|
    decreases n
  {
    if n == k then 0
    else Number(q, sched, t, k, n - 1, kind) + if Is(q, sched, t, n - 1, kind) then 1 else 0
  }

  lemma RankMove(q: Setup, sched: seq<Move>, n: nat, t: nat)
    requires q.Ok() && n < |sched| && PcAt(q, sched, n, t) != Idle
    ensures Rank(PcAt(q, sched, n + 1, t), q.slots) + (if Is(q, sched, t, n, Own) then 1 else 0)
            <= Rank(PcAt(q, sched, n, t), q.slots) + if Is(q, sched, t, n, Failure) then 5 else 0
  {
    hide Next, Rank;
    SizedAt(q, sched, n);
    MovedPc(q, sched, n, t);
    var s, pc, m := StateAt(q, sched, n), PcAt(q, sched, n, t), sched[n];
    if m.t == t < |s.pcs| {
      RankStep(s, pc, m.c);
      assert Brings(s, pc, Next(s, pc, m.c));
    }
  }

  /** A call takes no more steps than its rank, and five for every failed attempt. */
  lemma {:induction false} StepsBound(q: Setup, sched: seq<Move>, t: nat, k: nat, n: nat)
    requires q.Ok() && k <= n <= |sched| && SameCall(q, sched, t, k, n)
    ensures Number(q, sched, t, k, n, Own) + Rank(PcAt(q, sched, n, t), q.slots)
            <= Rank(PcAt(q, sched, k, t), q.slots) + 5 * Number(q, sched, t, k, n, Failure)
    decreases n
  {
    hide Rank, Is, PcAt;
    if k < n {
      StepsBound(q, sched, t, k, n - 1);
      RankMove(q, sched, n - 1, t);
    }
  }

  // ---- Failed attempts and the successes of rivals ----

  function NoteAt(q: Setup, sched: seq<Move>, k: nat, t: nat): Note
    requires q.Ok() && k <= |sched|
  {
    var g := Reach(q.dummy, q.pool, q.slots, q.threads, sched[..k]).g;
    if t < |g.notes| then g.notes[t] else Note(0, 0, 0, 0)
  }

  predicate Counted(was: Note, now: Note, mine: bool, e: Event) {
    && now.fails == (if mine && e.TakeSlot? then 0 else was.fails + if mine && Fails(e) then 1 else 0)
    && now.rivals == (if mine && e.TakeSlot? then 0 else was.rivals + if !mine && e.Win? then 1 else 0)
  }

  lemma NoteStep(g: Hist, t: nat, e: Event, u: nat)
    requires t < |g.notes| && u < |g.notes| && (e.TakeSlot? ==> e.i < |g.slots|)
    ensures |NotesAfter(g, t, e)| == |g.notes| && Counted(g.notes[u], NotesAfter(g, t, e)[u], u == t, e)
  {
  }

  lemma AdvanceNotes(y: Sys, m: Move)
    requires Inv(y.s, y.g) && m.t < |y.s.pcs|
    ensures !Dangling(y.s, y.s.pcs[m.t])
    ensures var e := Next(y.s, y.s.pcs[m.t], m.c).e;
            Advance(y, m).g.notes == NotesAfter(y.g, m.t, e) && (e.TakeSlot? ==> e.i < |y.g.slots|)
  {
    hide Inv, Next, Advance;
    AdvanceStep(y, m);
  }

  lemma PlayNext(q: Setup, sched: seq<Move>, n: nat) returns (y: Sys)
    requires q.Ok() && n < |sched|
    ensures y == Reach(q.dummy, q.pool, q.slots, q.threads, sched[..n]) && Inv(y.s, y.g) && y.s == StateAt(q, sched, n)
    ensures Reach(q.dummy, q.pool, q.slots, q.threads, sched[..n + 1]) == Advance(y, sched[n])
  {
    hide Inv, Advance;
    y := Reach(q.dummy, q.pool, q.slots, q.threads, sched[..n]);
    ReachInv(q.dummy, q.pool, q.slots, q.threads, sched[..n]);
    assert sched[..n + 1][..n] == sched[..n];
  }

  /** What a move does to the notes of thread t. */
  lemma NoteMoved(q: Setup, sched: seq<Move>, n: nat, t: nat)
    requires q.Ok() && n < |sched| && t < q.threads
    ensures Counted(NoteAt(q, sched, n, t), NoteAt(q, sched, n + 1, t), sched[n].t == t, EventAt(q, sched, n))
  {
    hide Inv, Next, NotesAfter, Dangling;
    SizedAt(q, sched, n);
    var y := PlayNext(q, sched, n);
    var m := sched[n];
    if m.t < |y.s.pcs| {
      hide Counted;
      AdvanceNotes(y, m);
      NoteStep(y.g, m.t, Next(y.s, y.s.pcs[m.t], m.c).e, t);
    }
  }

  predicate InDequeue(pc: Pc) { Searching(pc) || pc.Run? }

  predicate InEnqueue(pc: Pc) { pc.EnqData? || pc.EnqXchg? || pc.EnqLink? }

  /** A call of lfq_dequeue looks for a slot, takes it once, and keeps it. */
  predicate Stays(pc: Pc, st: Step) {
    && (st.pc != Idle ==> InDequeue(st.pc) && (Searching(st.pc) ==> Searching(pc)))
    && (Searching(pc) ==> !Fails(st.e) && (st.e.TakeSlot? <==> st.pc.Run?))
    && (pc.Run? ==> !st.e.TakeSlot?)
  }

  lemma DequeueStays(s: State, pc: Pc, c: Choice)
    requires !Dangling(s, pc) && InDequeue(pc)
    ensures Stays(pc, Next(s, pc, c))
  {
  }

  lemma EnqueueStays(s: State, pc: Pc, c: Choice)
    requires !Dangling(s, pc) && InEnqueue(pc)
    ensures var st := Next(s, pc, c); !Fails(st.e) && (st.pc == Idle || InEnqueue(st.pc))
  {
  }

  /** What the notes of a call that has a slot say about its moves, if it was looking for one at move k. */
  ghost predicate Told(q: Setup, sched: seq<Move>, t: nat, k: nat, n: nat)
    requires q.Ok() && k <= n <= |sched|
  {
    var pc, failed := PcAt(q, sched, n, t), Number(q, sched, t, k, n, Failure);
    && InDequeue(pc)
    && (Searching(pc) ==> failed == 0)
    && (pc.Run? ==> failed == NoteAt(q, sched, n, t).fails
                    && NoteAt(q, sched, n, t).rivals <= Number(q, sched, t, k, n, Rival))
  }

  lemma ToldNext(q: Setup, sched: seq<Move>, t: nat, k: nat, n: nat)
    requires q.Ok() && k <= n < |sched| && Told(q, sched, t, k, n) && PcAt(q, sched, n + 1, t) != Idle && t < q.threads
    ensures Told(q, sched, t, k, n + 1)
  {
    hide Next, StateAt, NoteAt;
    NoteMoved(q, sched, n, t);
    MovedPc(q, sched, n, t);
    SizedAt(q, sched, n);
    var s, pc, m := StateAt(q, sched, n), PcAt(q, sched, n, t), sched[n];
    if m.t == t < |s.pcs| { DequeueStays(s, pc, m.c); }
  }

  lemma ToldFirst(q: Setup, sched: seq<Move>, t: nat, k: nat)
    requires q.Ok() && k <= |sched| && Searching(PcAt(q, sched, k, t))
    ensures t < q.threads && Told(q, sched, t, k, k)
  {
    SizedAt(q, sched, k);
  }

  lemma {:induction false} ToldAlways(q: Setup, sched: seq<Move>, t: nat, k: nat, n: nat)
    requires q.Ok() && k <= n <= |sched| && SameCall(q, sched, t, k, n) && Searching(PcAt(q, sched, k, t))
    ensures t < q.threads && Told(q, sched, t, k, n)
    decreases n
  {
    hide Told, PcAt;
    ToldFirst(q, sched, t, k);
    if k < n {
      ToldAlways(q, sched, t, k, n - 1);
      ToldNext(q, sched, t, k, n - 1);
    }
  }

  lemma FailsPaid(q: Setup, sched: seq<Move>, n: nat, t: nat)
    requires q.Ok() && n <= |sched| && PcAt(q, sched, n, t).Run?
    ensures NoteAt(q, sched, n, t).fails <= NoteAt(q, sched, n, t).rivals
  {
    var y := Reach(q.dummy, q.pool, q.slots, q.threads, sched[..n]);
    assert Reachable(y.s, y.g);
    LockFree(y.s, y.g, t);
  }

  /** Each failed attempt of a call is paid for by a success of a rival. */
  lemma FailuresPaid(q: Setup, sched: seq<Move>, t: nat, k: nat, n: nat)
    requires q.Ok() && k <= n <= |sched| && SameCall(q, sched, t, k, n) && Searching(PcAt(q, sched, k, t))
    ensures Number(q, sched, t, k, n, Failure) <= Number(q, sched, t, k, n, Rival)
  {
    ToldAlways(q, sched, t, k, n);
    hide NoteAt, PcAt;
    if PcAt(q, sched, n, t).Run? { FailsPaid(q, sched, n, t); }
  }

  lemma RankPositive(pc: Pc, slots: nat)
    requires pc != Idle
    ensures 1 <= Rank(pc, slots)
  {
    PassesMin(0, slots);
    if pc.Run? && pc.op.Freeing? && pc.op.f.FpHead? { PassesMin(pc.op.f.n, slots); }
  }

  /**
   lfq_dequeue is lock-free: a call that is not over has taken fewer than 1219 + 153 * slots steps, and five
   more for each time another thread advanced head meanwhile.
   */
  lemma DequeueBound(q: Setup, sched: seq<Move>, t: nat, k: nat, n: nat)
    requires q.Ok() && k <= n <= |sched| && SameCall(q, sched, t, k, n) && PcAt(q, sched, k, t) == TidRead(0)
    ensures Number(q, sched, t, k, n, Own) < 1219 + 153 * q.slots + 5 * Number(q, sched, t, k, n, Rival)
  {
    hide PcAt, Number;
    StepsBound(q, sched, t, k, n);
    FailuresPaid(q, sched, t, k, n);
    RankPositive(PcAt(q, sched, n, t), q.slots);
    hide Passes;
    PassesLeft(0, q.slots);
  }

  lemma {:induction false} EnqueueNeverFails(q: Setup, sched: seq<Move>, t: nat, k: nat, n: nat)
    requires q.Ok() && k <= n <= |sched| && SameCall(q, sched, t, k, n) && InEnqueue(PcAt(q, sched, k, t))
    ensures InEnqueue(PcAt(q, sched, n, t)) && Number(q, sched, t, k, n, Failure) == 0
    decreases n
  {
    hide Next, StateAt;
    if k < n {
      EnqueueNeverFails(q, sched, t, k, n - 1);
      MovedPc(q, sched, n - 1, t);
      var s, m := StateAt(q, sched, n - 1), sched[n - 1];
      if m.t == t < |s.pcs| { EnqueueStays(s, PcAt(q, sched, n - 1, t), m.c); }
    }
  }

  /** lfq_enqueue is wait-free: a call that has its node takes three steps, whatever the others do. */
  lemma EnqueueBound(q: Setup, sched: seq<Move>, t: nat, k: nat, n: nat)
    requires q.Ok() && k <= n <= |sched| && SameCall(q, sched, t, k, n) && InEnqueue(PcAt(q, sched, k, t))
    ensures Number(q, sched, t, k, n, Own) < 3
  {
    hide PcAt, Number;
    StepsBound(q, sched, t, k, n);
    EnqueueNeverFails(q, sched, t, k, n);
    RankPositive(PcAt(q, sched, n, t), q.slots);
  }
}
