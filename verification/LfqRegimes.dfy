/** Two regimes of the queue: a single consumer slot, as the adaptor uses it, and no call running. */
module LfqRegimes {
  import opened LfqModel
  import opened LfqHistory
  import opened LfqInvariant
  import opened LfqSteps
  import opened LfqInductive
  import opened LfqTheorems
  import LfqLists

  // ---- One slot ----

  /** The thread is about to put a node on the retired list or to take one from it. */
  predicate Enpools(pc: Pc) {
    pc.Run? && pc.op.Freeing? &&
    match pc.op.f
    case EpNull(_) => true
    case EpXchg(_) => true
    case EpLink(_, _) => true
    case FpScan(_, _, _) => true
    case FpReload(_, _) => true
    case FpStore(_, _, _) => true
    case FpFree(_, _) => true
    case _ => false
  }

  predicate SoloOk(pc: Pc, n: Note) {
    !Enpools(pc) && (pc.Run? ==> n.rivals == 0)
  }

  ghost predicate Solo(s: State, g: Hist)
    requires Shape(s, g)
  {
    |s.hp| == 1 && |g.pool| == 1 && forall t | 0 <= t < |s.pcs| :: SoloOk(s.pcs[t], g.notes[t])
  }

  lemma SoloRunner(s: State, g: Hist, t: nat, u: nat)
    requires Shape(s, g) && Slots(s, g) && |s.hp| == 1
    requires t < |s.pcs| && u < |s.pcs| && s.pcs[t].Run? && s.pcs[u].Run?
    ensures t == u
  {
    assert RunnerOk(s, g, t, s.pcs[t]) && RunnerOk(s, g, u, s.pcs[u]);
  }

  /** With one slot, safe_free finds can_free set ... */
  lemma SoloMarked(s: State, g: Hist, t: nat, x: Ptr)
    requires Shape(s, g) && RoleKeys(s, g) && Owners(s, g) && Slots(s, g) && Waits(s, g) && Marks(s, g) && |s.hp| == 1
    requires t < |s.pcs| && s.pcs[t].Run? && s.pcs[t].op.Freeing? && s.pcs[t].op.f == SfCheck(x)
    ensures x in s.heap && s.heap[x].canFree
  {
    assert Mine(g, x, t);
    if !s.heap[x].canFree {
      assert MarkOk(s, g, x);
      SoloRunner(s, g, t, g.waiting[x]);
    }
  }

  /** ... and the lock open. */
  lemma SoloUnlocked(s: State, g: Hist, t: nat)
    requires Shape(s, g) && Lock(s, g) && Slots(s, g) && |s.hp| == 1
    requires t < |s.pcs| && s.pcs[t].Run? && !InCrit(s.pcs[t])
    ensures !s.isFreeing
  {
    if s.isFreeing {
      assert InCrit(s.pcs[g.lock]);
      SoloRunner(s, g, t, g.lock);
    }
  }

  /** With one slot, safe_free never goes on to enpool. */
  lemma SoloNext(s: State, g: Hist, t: nat, c: Choice)
    requires Shape(s, g) && RoleKeys(s, g) && Owners(s, g) && PoolEnds(s, g) && Fronts(s, g) && Lock(s, g)
    requires Slots(s, g)
    requires Waits(s, g) && Marks(s, g)
    requires Solo(s, g) && t < |s.pcs| && !Dangling(s, s.pcs[t])
    ensures !Enpools(Next(s, s.pcs[t], c).pc) && !Next(s, s.pcs[t], c).e.XchgPool?
  {
    var pc := s.pcs[t];
    assert SoloOk(pc, g.notes[t]) && FrontOk(g, pc) && RunnerOk(s, g, t, pc);
    if pc.Run? && pc.op.Freeing? {
      if pc.op.f.SfCheck? { SoloMarked(s, g, t, pc.op.f.x); }
      if pc.op.f.SfLock? { SoloUnlocked(s, g, t); }
    }
  }

  lemma SoloSteps(s: State, g: Hist, t: nat, e: Event, pc: Pc, s': State, g': Hist)
    requires Trans(s, g, t, e, pc, s', g') && Slots(s, g) && Solo(s, g)
    requires !Enpools(pc) && !e.XchgPool? && RaceStep(s, e, s.pcs[t], pc) && (e.Win? ==> s.pcs[t].Run?)
    ensures Shape(s', g') && Solo(s', g')
  {
    KeepShape(s, g, t, e, pc, s', g');
    forall u: nat | u < |s'.pcs| ensures SoloOk(s'.pcs[u], g'.notes[u]) {
      assert SoloOk(s.pcs[u], g.notes[u]) && SoloOk(s.pcs[t], g.notes[t]);
      if u != t && e.Win? && s.pcs[u].Run? { SoloRunner(s, g, t, u); }
    }
  }

  lemma StepKeepsSolo(y: Sys, m: Move)
    requires Inv(y.s, y.g) && Solo(y.s, y.g)
    ensures var r := Advance(y, m); Solo(r.s, r.g)
  {
    var s, g, t, c := y.s, y.g, m.t, m.c;
    if t < |s.pcs| {
      AdvanceStep(y, m);
      var st, r := Next(s, s.pcs[t], c), Advance(y, m);
      SoloNext(s, g, t, c);
      NextRaceStep(s, s.pcs[t], c);
      NextGuardStep(s, s.pcs[t], c);
      SoloSteps(s, g, t, st.e, st.pc, r.s, r.g);
    }
  }

  lemma {:induction false} RunKeepsSolo(y: Sys, sched: seq<Move>)
    requires Inv(y.s, y.g) && Solo(y.s, y.g)
    ensures var r := Play(y, sched); Solo(r.s, r.g)
  {
    if sched != [] {
      RunKeepsSolo(y, sched[..|sched| - 1]);
      PlayKeepsInv(y, sched[..|sched| - 1]);
      StepKeepsSolo(Play(y, sched[..|sched| - 1]), sched[|sched| - 1]);
    }
  }

  lemma ReachSolo(dummy: Ptr, pool: Ptr, threads: nat, sched: seq<Move>)
    requires InitOk(dummy, pool, 1)
    ensures var y := Reach(dummy, pool, 1, threads, sched); Solo(y.s, y.g)
  {
    InitKeepsInv(dummy, pool, 1, threads);
    RunKeepsSolo(Sys(Init(dummy, pool, 1, threads), InitHist(dummy, pool, 1, threads)), sched);
  }

  lemma SoloPool(s: State, g: Hist, t: nat)
    requires Shape(s, g) && Solo(s, g) && PoolEnds(s, g) && PoolPlaces(g) && RoleKeys(s, g) && Races(s, g)
    ensures s.fph == s.fpt && s.fph in s.heap && s.heap[s.fph].next == NULL && |g.pool| == 1
    ensures t < |s.pcs| ==> !Enpools(s.pcs[t]) && (s.pcs[t].Run? ==> g.notes[t].fails == 0)
  {
    if t < |s.pcs| { assert RaceOk(g, g.notes[t], s.pcs[t]) && SoloOk(s.pcs[t], g.notes[t]); }
  }

  /**
   A single consumer slot: nothing is ever enpooled (the retired list stays its one initial node, and
   every old dummy is freed at once), and no attempt ever fails.
   */
  lemma SingleSlot(dummy: Ptr, pool: Ptr, threads: nat, sched: seq<Move>, t: nat)
    requires InitOk(dummy, pool, 1)
    ensures var y := Reach(dummy, pool, 1, threads, sched);
            && y.s.fph == y.s.fpt && y.s.fph in y.s.heap && y.s.heap[y.s.fph].next == NULL && |y.g.pool| == 1
            && (t < |y.s.pcs| ==> !Enpools(y.s.pcs[t]) && (y.s.pcs[t].Run? ==> y.g.notes[t].fails == 0))
  {
    ReachSolo(dummy, pool, threads, sched);
    ReachInv(dummy, pool, 1, threads, sched);
    var y := Reach(dummy, pool, 1, threads, sched);
    SoloPool(y.s, y.g, t);
  }

  lemma SoloEmpty(s: State, g: Hist, t: nat, tid: nat, oh: Ptr)
    requires Inv(s, g) && Solo(s, g) && t < |s.pcs| && s.pcs[t] == Run(tid, ReadNext(oh))
    ensures oh in s.heap && s.head == oh
    ensures s.heap[oh].next == NULL <==> NothingFollows(s, oh) || FollowerUnlinked(s, oh)
  {
    AccessSafe(s, g, t);
    assert RaceOk(g, g.notes[t], s.pcs[t]) && SoloOk(s.pcs[t], g.notes[t]);
    EmptyCases(s, g, t, tid, oh);
    forall u | 0 <= u < |s.pcs| ensures !Retires(s.pcs[u], oh) { assert SoloOk(s.pcs[u], g.notes[u]); }
  }

  /** With one slot, an answer "empty" has only two causes: nothing follows, or it is not linked yet. */
  lemma SingleSlotEmpty(dummy: Ptr, pool: Ptr, threads: nat, sched: seq<Move>, t: nat, tid: nat, oh: Ptr)
    requires InitOk(dummy, pool, 1)
    requires var s := Reach(dummy, pool, 1, threads, sched).s; t < |s.pcs| && s.pcs[t] == Run(tid, ReadNext(oh))
    ensures var s := Reach(dummy, pool, 1, threads, sched).s;
            && oh in s.heap && s.head == oh
            && (s.heap[oh].next == NULL <==> NothingFollows(s, oh) || FollowerUnlinked(s, oh))
  {
    ReachSolo(dummy, pool, threads, sched);
    ReachInv(dummy, pool, 1, threads, sched);
    var y := Reach(dummy, pool, 1, threads, sched);
    SoloEmpty(y.s, y.g, t, tid, oh);
  }

  /** With one slot such an answer is right, unless an enqueuer is about to link its node: never both. */
  lemma SingleSlotEmptyTrue(dummy: Ptr, pool: Ptr, threads: nat, sched: seq<Move>, t: nat, tid: nat, oh: Ptr)
    requires InitOk(dummy, pool, 1)
    requires var s := Reach(dummy, pool, 1, threads, sched).s; t < |s.pcs| && s.pcs[t] == Run(tid, ReadNext(oh))
    ensures var s := Reach(dummy, pool, 1, threads, sched).s;
            && oh in s.heap && (s.heap[oh].next == NULL <==> s.head == s.tail || BeingLinked(s, oh))
            && !(s.head == s.tail && BeingLinked(s, oh))
  {
    ReachSolo(dummy, pool, threads, sched);
    ReachInv(dummy, pool, 1, threads, sched);
    var y := Reach(dummy, pool, 1, threads, sched);
    SoloEmpty(y.s, y.g, t, tid, oh);
    EmptyAtHeadTrue(y.s, y.g, oh);
  }

  // ---- No call running ----

  predicate AllIdle(s: State) {
    forall t | 0 <= t < |s.pcs| :: s.pcs[t] == Idle
  }

  /** The list that the pairwise facts of the invariant describe. */
  lemma {:induction false} ListChain(heap: map<Ptr, Node>, list: seq<Ptr>, k: nat)
    requires k <= |list| && (forall i | k <= i < |list| :: list[i] in heap && 0 < list[i])
    requires forall i, j | k <= i < j < |list| :: list[i] != list[j]
    requires forall i | k <= i < |list| - 1 :: heap[list[i]].next == list[i + 1]
    requires |list| > 0 ==> list[|list| - 1] in heap && heap[list[|list| - 1]].next == NULL
    ensures LfqLists.Chain(heap, list[k..])
    decreases |list| - k
  {
    if k < |list| {
      ListChain(heap, list, k + 1);
      assert list[k..][1..] == list[k + 1..];
      LfqLists.ElemsIn(list[k + 1..], list[k]);
    }
  }

  lemma {:induction false} ListFree(heap: map<Ptr, Node>, list: seq<Ptr>, k: nat)
    requires k <= |list| && forall i | k <= i < |list| :: list[i] in heap && heap[list[i]].canFree
    ensures LfqLists.AllFree(heap, list[k..])
    decreases |list| - k
  {
    if k < |list| {
      ListFree(heap, list, k + 1);
      assert list[k..][1..] == list[k + 1..];
    }
  }

  lemma {:induction false} ListHolds(heap: map<Ptr, Node>, list: seq<Ptr>, vals: seq<Val>, k: nat)
    requires k <= |list| == |vals|
    requires forall i | k <= i < |list| :: list[i] in heap && heap[list[i]].data == vals[i] && !heap[list[i]].canFree
    ensures LfqLists.Holds(heap, list[k..], vals[k..])
    decreases |list| - k
  {
    if k < |list| {
      ListHolds(heap, list, vals, k + 1);
      assert list[k..][1..] == list[k + 1..] && vals[k..][1..] == vals[k + 1..];
    }
  }

  /** When every call has returned, the context is as a sequential caller expects it. */
  lemma Settles(s: State, g: Hist)
    requires Reachable(s, g) && AllIdle(s)
    ensures LfqLists.Settled(s.heap, g.nodes[g.h..], g.vals[g.h + 1..], g.pool[g.f..])
    ensures s.head == g.nodes[g.h] && s.tail == g.nodes[|g.nodes| - 1]
    ensures s.fph == g.pool[g.f] && s.fpt == g.pool[|g.pool| - 1]
    ensures !s.isFreeing && forall i | 0 <= i < |s.hp| :: s.hp[i] == NULL && !s.tidMap[i]
  {
    ReachableInv(s, g);
    SettledInv(s, g);
  }

  lemma SettledInv(s: State, g: Hist)
    requires Inv(s, g) && AllIdle(s)
    ensures LfqLists.Settled(s.heap, g.nodes[g.h..], g.vals[g.h + 1..], g.pool[g.f..])
    ensures s.head == g.nodes[g.h] && s.tail == g.nodes[|g.nodes| - 1]
    ensures s.fph == g.pool[g.f] && s.fpt == g.pool[|g.pool| - 1]
    ensures !s.isFreeing && forall i | 0 <= i < |s.hp| :: s.hp[i] == NULL && !s.tidMap[i]
  {
    NoGaps(s, g);
    QueueSettled(s, g);
    PoolSettled(s, g);
    ListsCover(s, g);
    SettledMarks(s, g);
    RegistersClear(s, g);
    LfqLists.MakesSettled(s.heap, g.nodes[g.h..], g.vals[g.h + 1..], g.pool[g.f..]);
  }

  lemma QueueSettled(s: State, g: Hist)
    requires Shape(s, g) && RoleKeys(s, g) && QueuePlaces(g) && QueueLinks(s, g) && QueueEnds(s, g) && g.gap == map[]
    ensures LfqLists.Chain(s.heap, g.nodes[g.h..])
  {
    forall i | g.h <= i < |g.nodes| - 1 ensures s.heap[g.nodes[i]].next == g.nodes[i + 1] {
      assert Linked(s.heap, g.nodes, g.gap, i);
    }
    ListChain(s.heap, g.nodes, g.h);
  }

  lemma PoolSettled(s: State, g: Hist)
    requires Shape(s, g) && RoleKeys(s, g) && PoolPlaces(g) && PoolLinks(s, g) && PoolEnds(s, g) && g.pgap == map[]
    ensures LfqLists.Chain(s.heap, g.pool[g.f..])
  {
    forall i | g.f <= i < |g.pool| - 1 ensures s.heap[g.pool[i]].next == g.pool[i + 1] {
      assert Linked(s.heap, g.pool, g.pgap, i);
    }
    ListChain(s.heap, g.pool, g.f);
  }

  /** The lock is open, and no slot is taken. */
  lemma RegistersClear(s: State, g: Hist)
    requires Shape(s, g) && Lock(s, g) && Slots(s, g) && AllIdle(s)
    ensures !s.isFreeing && forall i | 0 <= i < |s.hp| :: s.hp[i] == NULL && !s.tidMap[i]
  {
    forall i | 0 <= i < |s.hp| ensures s.hp[i] == NULL && !s.tidMap[i] { assert SlotOk(s, g, i); }
    assert g.lock >= 0 ==> InCrit(s.pcs[g.lock]);
  }

  /** Between calls, a single-slot queue keeps two nodes more than it has values to deliver. */
  lemma SingleSlotSize(dummy: Ptr, pool: Ptr, threads: nat, sched: seq<Move>)
    requires InitOk(dummy, pool, 1)
    ensures var y := Reach(dummy, pool, 1, threads, sched);
            AllIdle(y.s) ==> |y.s.heap| == |Inserted(y.g)| - y.g.h + 2
  {
    SingleSlot(dummy, pool, threads, sched, 0);
    ReachInv(dummy, pool, 1, threads, sched);
    var y := Reach(dummy, pool, 1, threads, sched);
    if AllIdle(y.s) {
      SettledInv(y.s, y.g);
      LfqLists.SettledSize(y.s.heap, y.g.nodes[y.g.h..], y.g.vals[y.g.h + 1..], y.g.pool[y.g.f..]);
    }
  }

  lemma NoGaps(s: State, g: Hist)
    requires Gaps(s, g) && PoolGaps(s, g) && AllIdle(s)
    ensures g.gap == map[] && g.pgap == map[]
  {
    forall k ensures k !in g.gap && k !in g.pgap {
      assert k in g.gap ==> GapOk(s, g, k, g.gap[k]);
      assert k in g.pgap ==> PoolGapOk(s, g, k, g.pgap[k]);
    }
  }

  /** A node in place k of a list is one of its elements from place k on. */
  lemma InRest(list: seq<Ptr>, from: nat, k: nat)
    requires from <= k < |list|
    ensures list[k] in LfqLists.Elems(list[from..])
  {
    LfqLists.ElemsAt(list[from..], k - from);
  }

  lemma RestPlace(list: seq<Ptr>, from: nat, a: Ptr) returns (k: nat)
    requires from <= |list| && a in LfqLists.Elems(list[from..])
    ensures from <= k < |list| && list[k] == a
  {
    LfqLists.ElemsIn(list[from..], a);
    k :| from <= k < |list| && list[k] == a;
  }

  /** With no call running, what is allocated is in one of the lists. */
  lemma ListsCover(s: State, g: Hist)
    requires Shape(s, g) && RoleKeys(s, g) && QueuePlaces(g) && PoolPlaces(g) && RolesTrue(s, g) && AllIdle(s)
    ensures var q, p := LfqLists.Elems(g.nodes[g.h..]), LfqLists.Elems(g.pool[g.f..]); q !! p && s.heap.Keys == q + p
  {
    var q, p := LfqLists.Elems(g.nodes[g.h..]), LfqLists.Elems(g.pool[g.f..]);
    forall a ensures (a in s.heap <==> a in q || a in p) && !(a in q && a in p) { CoverAt(s, g, a); }
  }

  lemma CoverAt(s: State, g: Hist, a: Ptr)
    requires Shape(s, g) && RoleKeys(s, g) && QueuePlaces(g) && PoolPlaces(g) && RolesTrue(s, g) && AllIdle(s)
    ensures var q, p := LfqLists.Elems(g.nodes[g.h..]), LfqLists.Elems(g.pool[g.f..]);
            (a in s.heap <==> a in q || a in p) && !(a in q && a in p)
  {
    if a in LfqLists.Elems(g.nodes[g.h..]) {
      var k := RestPlace(g.nodes, g.h, a);
      assert g.role[a] == Queued(k);
    }
    if a in LfqLists.Elems(g.pool[g.f..]) {
      var k := RestPlace(g.pool, g.f, a);
      assert g.role[a] == Pooled(k);
    }
    if a in s.heap {
      assert InPlace(s, g, a, g.role[a]);
      match g.role[a]
      case Queued(k) => InRest(g.nodes, g.h, k);
      case Pooled(k) => InRest(g.pool, g.f, k);
      case Owned(t) => assert false;
    }
  }

  /** With no call running, only unread nodes are not marked. */
  lemma UnmarkedUnread(s: State, g: Hist, a: Ptr)
    requires Shape(s, g) && RoleKeys(s, g) && RolesTrue(s, g) && Marks(s, g) && Waits(s, g) && AllIdle(s)
    requires a in s.heap && !s.heap[a].canFree
    ensures a in g.role && g.role[a].Queued? && g.role[a].k > g.h
  {
    assert a !in g.waiting;
    assert MarkOk(s, g, a) && InPlace(s, g, a, g.role[a]);
  }

  lemma SettledMarks(s: State, g: Hist)
    requires Shape(s, g) && RoleKeys(s, g) && QueuePlaces(g) && PoolPlaces(g) && Unread(s, g)
    requires RolesTrue(s, g) && Marks(s, g) && Waits(s, g) && AllIdle(s)
    ensures g.nodes[g.h] in s.heap && s.heap[g.nodes[g.h]].canFree
    ensures LfqLists.Holds(s.heap, g.nodes[g.h..][1..], g.vals[g.h + 1..]) && LfqLists.AllFree(s.heap, g.pool[g.f..])
  {
    assert g.role[g.nodes[g.h]] == Queued(g.h);
    if !s.heap[g.nodes[g.h]].canFree { UnmarkedUnread(s, g, g.nodes[g.h]); }
    forall i | g.f <= i < |g.pool| ensures g.pool[i] in s.heap && s.heap[g.pool[i]].canFree {
      assert g.role[g.pool[i]] == Pooled(i);
      if !s.heap[g.pool[i]].canFree { UnmarkedUnread(s, g, g.pool[i]); }
    }
    ListFree(s.heap, g.pool, g.f);
    forall k: nat | g.h + 1 <= k < |g.nodes|
      ensures g.nodes[k] in s.heap && s.heap[g.nodes[k]].data == g.vals[k] && !s.heap[g.nodes[k]].canFree
    {
      assert UnreadAt(s, g, k);
    }
    ListHolds(s.heap, g.nodes, g.vals, g.h + 1);
    assert g.nodes[g.h..][1..] == g.nodes[g.h + 1..];
  }
}
