/** The invariant holds in every state of every run. */
module LfqInductive {
  import opened LfqModel
  import opened LfqHistory
  import opened LfqInvariant
  import opened LfqSteps

  // ---- What each program counter does, read off Next ----

  predicate QueueStep(s: State, e: Event, from: Pc, to: Pc) {
    && (e.XchgTail? ==> to == EnqLink(s.tail, e.a))
    && (from.EnqLink? ==> e == Link(from.ot, from.a))
    && (to.EnqLink? ==> e.XchgTail?)
    && (to.EnqData? ==> e == Alloc(to.a))
    && (to.EnqXchg? ==> e == WriteData(to.a, to.d))
  }

  predicate PoolStep(s: State, e: Event, from: Pc, to: Pc) {
    && (e.XchgPool? ==> EpLinking(to, s.fpt, e.a) && from.Run?)
    && (IsEpLink(from) ==> e == PoolLink(from.op.f.ot, from.op.f.x))
    && (IsEpLink(to) ==> e.XchgPool?)
    && (e.Poison? ==> IsSfFree(to))
    && (IsSfFree(from) ==> e.FreeNode? && Owns(from) == Addr(e.a))
    && (e.Alloc? ==> !to.Run?)
    && (!from.Run? && Owns(from).Addr? ==> !to.Run?)
  }

  /** How free_pool goes on with the pool head, and what it has just read there. */
  predicate FrontMove(s: State, e: Event, from: Pc, to: Pc) {
    && (Front(to).Addr? ==> e == Silent && (Front(from) == Front(to) || Front(to).a == s.fph))
    && (FrontLinked(to).Addr? && !FrontLinked(from).Addr? ==>
          Front(from).Addr? && Front(from).a in s.heap && s.heap[Front(from).a].next != NULL)
    && (IsFpStore(to) ==>
          FrontLinked(from).Addr? && FrontLinked(from).a in s.heap && s.heap[FrontLinked(from).a].next == to.op.f.q)
  }

  lemma NextFrontMove(s: State, pc: Pc, c: Choice)
    requires !Dangling(s, pc)
    ensures var st := Next(s, pc, c); FrontMove(s, st.e, pc, st.pc)
  {
  }

  lemma NextQueueStep(s: State, pc: Pc, c: Choice)
    requires !Dangling(s, pc)
    ensures var st := Next(s, pc, c); QueueStep(s, st.e, pc, st.pc)
  {
  }

  lemma NextPoolStep(s: State, pc: Pc, c: Choice)
    requires !Dangling(s, pc)
    ensures var st := Next(s, pc, c); PoolStep(s, st.e, pc, st.pc)
  {
  }

  lemma FreeOwnStep(s: State, tid: nat, v: Val, f: FreeOp)
    requires !Dangling(s, At(tid, v, f))
    ensures var st := NextFree(s, tid, v, f); OwnStep(st.e, OwnsFreeing(f), Owns(st.pc))
  {
  }

  lemma NextOwnStep(s: State, pc: Pc, c: Choice)
    requires !Dangling(s, pc)
    ensures var st := Next(s, pc, c); OwnStep(st.e, Owns(pc), Owns(st.pc))
  {
    if pc.Run? && pc.op.Freeing? { FreeOwnStep(s, pc.tid, pc.op.v, pc.op.f); }
  }

  lemma NextCritStep(s: State, pc: Pc, c: Choice)
    requires !Dangling(s, pc)
    ensures var st := Next(s, pc, c); InCrit(st.pc) <==> st.e.Acquire? || (InCrit(pc) && !st.e.Unlock?)
  {
  }

  lemma NextRetireStep(s: State, pc: Pc, c: Choice)
    requires !Dangling(s, pc)
    ensures var st := Next(s, pc, c); RetireStep(st.e, pc, st.pc)
  {
  }

  lemma NextSlotMove(s: State, pc: Pc, c: Choice)
    requires !Dangling(s, pc)
    ensures var st := Next(s, pc, c); SlotMove(s, st.e, pc, st.pc)
  {
  }

  lemma NextHazardMove(s: State, pc: Pc, c: Choice)
    requires !Dangling(s, pc)
    ensures var st := Next(s, pc, c); HazardMove(st.e, pc, st.pc)
  {
    match pc
    case Run(_, Freeing(_, f)) =>
    case Run(_, _) =>
    case _ =>
  }

  lemma NextGuardStep(s: State, pc: Pc, c: Choice)
    requires !Dangling(s, pc)
    ensures var st := Next(s, pc, c);
            && GuardStep(s, st.e, pc, st.pc) && NextStep(s, st.e, pc, st.pc)
            && (Guarded(st.pc).Addr? ==> pc.Run? && pc.tid == st.pc.tid)
  {
  }

  lemma NextCondemnStep(s: State, pc: Pc, c: Choice)
    requires !Dangling(s, pc)
    ensures var st := Next(s, pc, c);
            CondemnStep(s, pc, st.pc) && (st.e.FreeNode? ==> forall i :: Condemns(pc, st.e.a, i))
  {
  }

  lemma NextPendStep(s: State, pc: Pc, c: Choice)
    requires !Dangling(s, pc)
    ensures var st := Next(s, pc, c); PendStep(st.e, Pending(pc), Pending(st.pc))
  {
  }

  lemma NextDoomStep(s: State, pc: Pc, c: Choice)
    requires !Dangling(s, pc)
    ensures var st := Next(s, pc, c); DoomStep(s, st.e, pc, st.pc)
  {
  }

  lemma NextClaimStep(s: State, pc: Pc, c: Choice)
    requires !Dangling(s, pc)
    ensures var st := Next(s, pc, c); ClaimStep(st.e, pc, st.pc)
  {
  }

  lemma NextResultStep(s: State, pc: Pc, c: Choice)
    requires !Dangling(s, pc)
    ensures var st := Next(s, pc, c); ResultStep(s, st.e, pc, st.pc)
  {
  }

  lemma NextRaceStep(s: State, pc: Pc, c: Choice)
    requires !Dangling(s, pc)
    ensures var st := Next(s, pc, c); RaceStep(s, st.e, pc, st.pc)
  {
  }

  // ---- The whole invariant ----

  ghost predicate PlacesInv(s: State, g: Hist) {
    RoleKeys(s, g) && QueuePlaces(g) && PoolPlaces(g) && Owners(s, g) && RolesTrue(s, g)
  }

  ghost predicate QueueInv(s: State, g: Hist)
    requires Shape(s, g)
  {
    QueueEnds(s, g) && QueueLinks(s, g) && Gaps(s, g) && Linkers(s, g) && Unread(s, g) && Privates(s)
  }

  ghost predicate PoolInv(s: State, g: Hist)
    requires Shape(s, g)
  {
    PoolEnds(s, g) && PoolLinks(s, g) && PoolGaps(s, g) && PoolLinkers(s, g) && Retirees(s) && Fronts(s, g)
  }

  ghost predicate MemoryInv(s: State, g: Hist)
    requires Shape(s, g)
  {
    PlacesInv(s, g) && QueueInv(s, g) && PoolInv(s, g)
  }

  ghost predicate HazardInv(s: State, g: Hist)
    requires Shape(s, g)
  {
    Lock(s, g) && Slots(s, g) && Guards(s, g) && Spared(s) && Nexts(s, g) && Poisons(s, g) && Dooms(s)
  }

  ghost predicate ClaimInv(s: State, g: Hist)
    requires Shape(s, g)
  {
    Waits(s, g) && Marks(s, g) && Claimants(s, g) && Results(s, g) && Races(s, g)
  }

  ghost predicate Inv(s: State, g: Hist) {
    !s.fault && Shape(s, g) && MemoryInv(s, g) && HazardInv(s, g) && ClaimInv(s, g)
  }

  lemma AccessSafe(s: State, g: Hist, t: nat)
    requires Shape(s, g) && MemoryInv(s, g) && HazardInv(s, g) && Waits(s, g) && t < |s.pcs|
    ensures !Dangling(s, s.pcs[t])
  {
    assert PrivateOk(s, s.pcs[t]) && FrontOk(g, s.pcs[t]) && RunnerOk(s, g, t, s.pcs[t]);
    assert PendingOk(s, g, t, s.pcs[t], g.notes[t].claim);
    assert g.pool[g.f] in s.heap;
  }

  lemma EnqueueLegal(s: State, g: Hist, t: nat, c: Choice)
    requires Shape(s, g) && t < |s.pcs| && !Dangling(s, s.pcs[t]) && !s.pcs[t].Run?
    requires Owners(s, g) && Gaps(s, g) && Linkers(s, g) && Privates(s) && Slots(s, g)
    ensures Legal(s, g, t, Next(s, s.pcs[t], c).e)
  {
    assert PrivateOk(s, s.pcs[t]);
    match s.pcs[t]
    case EnqLink(ot, a) => assert GapOk(s, g, g.role[ot].k, t);
    case TidCas(i) => assert SlotOk(s, g, i);
    case _ =>
  }

  lemma DequeueLegal(s: State, g: Hist, t: nat, c: Choice)
    requires Shape(s, g) && QueuePlaces(g) && QueueEnds(s, g) && t < |s.pcs| && !Dangling(s, s.pcs[t])
    requires s.pcs[t].Run? && !s.pcs[t].op.Freeing?
    requires Slots(s, g) && Guards(s, g) && Nexts(s, g) && Waits(s, g)
    ensures Legal(s, g, t, Next(s, s.pcs[t], c).e)
  {
    assert RunnerOk(s, g, t, s.pcs[t]) && PendingOk(s, g, t, s.pcs[t], g.notes[t].claim);
    assert g.nodes[g.h] in g.role;
  }

  lemma FreeingLegal(s: State, g: Hist, t: nat, c: Choice)
    requires Shape(s, g) && RoleKeys(s, g) && t < |s.pcs| && !Dangling(s, s.pcs[t])
    requires s.pcs[t].Run? && s.pcs[t].op.Freeing?
    requires Owners(s, g) && PoolGaps(s, g) && PoolLinkers(s, g) && Retirees(s) && Fronts(s, g)
    requires Lock(s, g) && Dooms(s)
    ensures Legal(s, g, t, Next(s, s.pcs[t], c).e)
  {
    var f := s.pcs[t].op.f;
    assert DoomOk(s, s.pcs[t]) && FrontOk(g, s.pcs[t]);
    assert InCrit(s.pcs[t]) <==> g.lock == t;
    if f.EpLink? { PoolLinkLegal(s, g, t, f.ot, f.x); }
  }

  lemma PoolLinkLegal(s: State, g: Hist, t: nat, ot: Ptr, x: Ptr)
    requires Shape(s, g) && t < |s.pcs| && PoolGaps(s, g) && PoolLinkers(s, g) && EpLinking(s.pcs[t], ot, x)
    ensures Legal(s, g, t, PoolLink(ot, x))
  {
    assert PoolGapOk(s, g, g.role[ot].k, t);
  }

  lemma FrontLegal(s: State, g: Hist, t: nat, e: Event, to: Pc)
    requires Shape(s, g) && t < |s.pcs| && FrontMove(s, e, s.pcs[t], to)
    requires PoolEnds(s, g) && PoolLinks(s, g) && Fronts(s, g)
    ensures FrontStep(s, g, e, s.pcs[t], to)
  {
    assert FrontOk(g, s.pcs[t]);
    if g.f < |g.pool| - 1 { assert Linked(s.heap, g.pool, g.pgap, g.f); }
  }

  lemma KeepPlacesInv(s: State, g: Hist, t: nat, e: Event, pc: Pc, s': State, g': Hist)
    requires Trans(s, g, t, e, pc, s', g') && PlacesInv(s, g) && OwnStep(e, Owns(s.pcs[t]), Owns(pc))
    ensures PlacesInv(s', g')
  {
    KeepRoleKeys(s, g, t, e, pc, s', g');
    KeepQueuePlaces(s, g, t, e, pc, s', g');
    KeepPoolPlaces(s, g, t, e, pc, s', g');
    KeepOwners(s, g, t, e, pc, s', g');
    KeepRolesTrue(s, g, t, e, pc, s', g');
  }

  /** The node that a winner marks is the head, or belongs to another consumer. */
  lemma MarksWaiting(s: State, g: Hist, t: nat, e: Event)
    requires Shape(s, g) && t < |s.pcs| && Waits(s, g) && (e.Mark? ==> Pending(s.pcs[t]) == Addr(e.a))
    ensures e.Mark? && e.a in g.role && g.role[e.a].Queued? ==> g.role[e.a].k <= g.h
    ensures e.Mark? && e.a in g.role && g.role[e.a].Owned? ==> g.role[e.a].t < |s.pcs| && s.pcs[g.role[e.a].t].Run?
  {
    assert PendingOk(s, g, t, s.pcs[t], g.notes[t].claim);
  }

  lemma KeepNewNodes(s: State, g: Hist, t: nat, e: Event, pc: Pc, s': State, g': Hist)
    requires Trans(s, g, t, e, pc, s', g') && Shape(s', g') && PlacesInv(s, g) && QueueInv(s, g) && Waits(s, g)
    requires QueueStep(s, e, s.pcs[t], pc) && PendStep(e, Pending(s.pcs[t]), Pending(pc))
    ensures Unread(s', g') && Privates(s')
  {
    MarksWaiting(s, g, t, e);
    KeepUnread(s, g, t, e, pc, s', g');
    KeepPrivates(s, g, t, e, pc, s', g');
  }

  lemma KeepQueueInv(s: State, g: Hist, t: nat, e: Event, pc: Pc, s': State, g': Hist)
    requires Trans(s, g, t, e, pc, s', g') && Shape(s', g') && PlacesInv(s, g) && QueueInv(s, g) && Waits(s, g)
    requires QueueStep(s, e, s.pcs[t], pc) && PendStep(e, Pending(s.pcs[t]), Pending(pc))
    ensures QueueInv(s', g')
  {
    KeepQueueEnds(s, g, t, e, pc, s', g');
    KeepQueueLinks(s, g, t, e, pc, s', g');
    KeepGaps(s, g, t, e, pc, s', g');
    KeepLinkers(s, g, t, e, pc, s', g');
    KeepNewNodes(s, g, t, e, pc, s', g');
  }

  lemma KeepPoolInv(s: State, g: Hist, t: nat, e: Event, pc: Pc, s': State, g': Hist)
    requires Trans(s, g, t, e, pc, s', g') && Shape(s', g') && PlacesInv(s, g) && QueueLinks(s, g) && PoolInv(s, g)
    requires Lock(s, g) && PoolStep(s, e, s.pcs[t], pc) && FrontStep(s, g, e, s.pcs[t], pc)
    requires RetireStep(e, s.pcs[t], pc)
    ensures PoolInv(s', g')
  {
    KeepPoolEnds(s, g, t, e, pc, s', g');
    KeepPoolLinks(s, g, t, e, pc, s', g');
    KeepPoolGaps(s, g, t, e, pc, s', g');
    KeepPoolLinkers(s, g, t, e, pc, s', g');
    KeepRetirees(s, g, t, e, pc, s', g');
    KeepFronts(s, g, t, e, pc, s', g');
  }

  lemma KeepHazardInv(s: State, g: Hist, t: nat, c: Choice, e: Event, pc: Pc, s': State, g': Hist)
    requires Trans(s, g, t, e, pc, s', g') && MemoryInv(s, g) && HazardInv(s, g) && Races(s, g)
    requires !Dangling(s, s.pcs[t]) && Next(s, s.pcs[t], c) == Step(e, pc)
    ensures Shape(s', g') && HazardInv(s', g')
  {
    NextCritStep(s, s.pcs[t], c);
    NextPoolStep(s, s.pcs[t], c);
    NextSlotMove(s, s.pcs[t], c);
    NextHazardMove(s, s.pcs[t], c);
    NextGuardStep(s, s.pcs[t], c);
    NextCondemnStep(s, s.pcs[t], c);
    NextDoomStep(s, s.pcs[t], c);
    KeepLock(s, g, t, e, pc, s', g');
    KeepSlots(s, g, t, e, pc, s', g');
    KeepGuards(s, g, t, e, pc, s', g');
    KeepSpared(s, g, t, e, pc, s', g');
    KeepNexts(s, g, t, e, pc, s', g');
    KeepPoisons(s, g, t, e, pc, s', g');
    KeepDooms(s, g, t, e, pc, s', g');
  }

  lemma KeepClaimInv(s: State, g: Hist, t: nat, c: Choice, e: Event, pc: Pc, s': State, g': Hist)
    requires Trans(s, g, t, e, pc, s', g') && MemoryInv(s, g) && ClaimInv(s, g)
    requires !Dangling(s, s.pcs[t]) && Next(s, s.pcs[t], c) == Step(e, pc)
    ensures Shape(s', g') && ClaimInv(s', g')
  {
    NextPoolStep(s, s.pcs[t], c);
    NextGuardStep(s, s.pcs[t], c);
    NextPendStep(s, s.pcs[t], c);
    NextClaimStep(s, s.pcs[t], c);
    NextResultStep(s, s.pcs[t], c);
    NextRaceStep(s, s.pcs[t], c);
    KeepWaits(s, g, t, e, pc, s', g');
    KeepMarks(s, g, t, e, pc, s', g');
    KeepClaimants(s, g, t, e, pc, s', g');
    KeepResults(s, g, t, e, pc, s', g');
    KeepRaces(s, g, t, e, pc, s', g');
  }

  /** A run with its history. */
  datatype Sys = Sys(s: State, g: Hist)

  /** A step and its entry in the history, if that keeps its shape; StepKeepsInv shows that it always does. */
  function Advance(y: Sys, m: Move): (r: Sys)
    requires Shape(y.s, y.g)
    ensures Shape(r.s, r.g)
  {
    if m.t >= |y.s.pcs| then y
    else if Dangling(y.s, y.s.pcs[m.t]) then y.(s := Exec(y.s, m.t, m.c))
    else
      var r := Sys(Exec(y.s, m.t, m.c), Record(y.g, m.t, Next(y.s, y.s.pcs[m.t], m.c).e));
      if Shape(r.s, r.g) then r else y
  }

  lemma StepLegal(s: State, g: Hist, t: nat, c: Choice)
    requires Inv(s, g) && t < |s.pcs|
    ensures !Dangling(s, s.pcs[t]) && Legal(s, g, t, Next(s, s.pcs[t], c).e)
  {
    AccessSafe(s, g, t);
    if !s.pcs[t].Run? { EnqueueLegal(s, g, t, c); }
    else if !s.pcs[t].op.Freeing? { DequeueLegal(s, g, t, c); }
    else { FreeingLegal(s, g, t, c); }
  }

  lemma StepKeepsMemory(s: State, g: Hist, t: nat, c: Choice, e: Event, pc: Pc, s': State, g': Hist)
    requires Trans(s, g, t, e, pc, s', g') && MemoryInv(s, g) && Lock(s, g) && Waits(s, g)
    requires !Dangling(s, s.pcs[t]) && Next(s, s.pcs[t], c) == Step(e, pc)
    ensures Shape(s', g') && MemoryInv(s', g')
  {
    NextOwnStep(s, s.pcs[t], c);
    NextQueueStep(s, s.pcs[t], c);
    NextPoolStep(s, s.pcs[t], c);
    NextRetireStep(s, s.pcs[t], c);
    NextGuardStep(s, s.pcs[t], c);
    NextPendStep(s, s.pcs[t], c);
    NextFrontMove(s, s.pcs[t], c);
    FrontLegal(s, g, t, e, pc);
    KeepShape(s, g, t, e, pc, s', g');
    KeepPlacesInv(s, g, t, e, pc, s', g');
    KeepQueueInv(s, g, t, e, pc, s', g');
    KeepPoolInv(s, g, t, e, pc, s', g');
  }

  lemma AdvanceStep(y: Sys, m: Move)
    requires Inv(y.s, y.g) && m.t < |y.s.pcs|
    ensures !Dangling(y.s, y.s.pcs[m.t]) && Advance(y, m).s == Exec(y.s, m.t, m.c)
    ensures var st, r := Next(y.s, y.s.pcs[m.t], m.c), Advance(y, m);
            Trans(y.s, y.g, m.t, st.e, st.pc, r.s, r.g)
  {
    StepLegal(y.s, y.g, m.t, m.c);
    var st := Next(y.s, y.s.pcs[m.t], m.c);
    KeepShape(y.s, y.g, m.t, st.e, st.pc, Exec(y.s, m.t, m.c), Record(y.g, m.t, st.e));
  }

  lemma StepKeepsInv(y: Sys, m: Move)
    requires Inv(y.s, y.g)
    ensures var r := Advance(y, m); Inv(r.s, r.g)
  {
    if m.t < |y.s.pcs| {
      AdvanceStep(y, m);
      var st, r := Next(y.s, y.s.pcs[m.t], m.c), Advance(y, m);
      TransKeepsInv(y.s, y.g, m.t, m.c, st.e, st.pc, r.s, r.g);
    }
  }

  lemma TransKeepsInv(s: State, g: Hist, t: nat, c: Choice, e: Event, pc: Pc, s': State, g': Hist)
    requires Trans(s, g, t, e, pc, s', g') && Inv(s, g)
    requires !Dangling(s, s.pcs[t]) && Next(s, s.pcs[t], c) == Step(e, pc)
    ensures Inv(s', g')
  {
    StepKeepsMemory(s, g, t, c, e, pc, s', g');
    KeepHazardInv(s, g, t, c, e, pc, s', g');
    KeepClaimInv(s, g, t, c, e, pc, s', g');
  }

  lemma InitKeepsInv(dummy: Ptr, pool: Ptr, slots: nat, threads: nat)
    requires InitOk(dummy, pool, slots)
    ensures Inv(Init(dummy, pool, slots, threads), InitHist(dummy, pool, slots, threads))
  {
    var s, g := Init(dummy, pool, slots, threads), InitHist(dummy, pool, slots, threads);
    assert forall t | 0 <= t < threads :: s.pcs[t] == Idle;
  }

  /** The state and the history at the end of a schedule. */
  function Play(y: Sys, sched: seq<Move>): (r: Sys)
    requires Shape(y.s, y.g)
    ensures Shape(r.s, r.g)
  {
    if sched == [] then y else Advance(Play(y, sched[..|sched| - 1]), sched[|sched| - 1])
  }

  lemma {:induction false} PlayKeepsInv(y: Sys, sched: seq<Move>)
    requires Inv(y.s, y.g)
    ensures var r := Play(y, sched); Inv(r.s, r.g)
  {
    if sched != [] {
      PlayKeepsInv(y, sched[..|sched| - 1]);
      StepKeepsInv(Play(y, sched[..|sched| - 1]), sched[|sched| - 1]);
    }
  }
}
