/** What the lock-free queue guarantees in every run, for any number of threads and consumer slots. */
module LfqTheorems {
  import opened LfqModel
  import opened LfqHistory
  import opened LfqInvariant
  import opened LfqSteps
  import opened LfqInductive

  /** The state and history after schedule sched of a queue made by lfq_init. */
  function Reach(dummy: Ptr, pool: Ptr, slots: nat, threads: nat, sched: seq<Move>): (y: Sys)
    requires InitOk(dummy, pool, slots)
    ensures Shape(y.s, y.g)
  {
    Play(Sys(Init(dummy, pool, slots, threads), InitHist(dummy, pool, slots, threads)), sched)
  }

  lemma ReachInv(dummy: Ptr, pool: Ptr, slots: nat, threads: nat, sched: seq<Move>)
    requires InitOk(dummy, pool, slots)
    ensures var y := Reach(dummy, pool, slots, threads, sched); Inv(y.s, y.g)
  {
    InitKeepsInv(dummy, pool, slots, threads);
    PlayKeepsInv(Sys(Init(dummy, pool, slots, threads), InitHist(dummy, pool, slots, threads)), sched);
  }

  /** Some schedule leads from some lfq_init to state s with history g. */
  ghost predicate Reachable(s: State, g: Hist) {
    exists dummy, pool, slots, threads, sched | InitOk(dummy, pool, slots) ::
      Reach(dummy, pool, slots, threads, sched) == Sys(s, g)
  }

  lemma ReachableInv(s: State, g: Hist)
    requires Reachable(s, g)
    ensures Inv(s, g)
  {
    var dummy, pool, slots, threads, sched :|
      InitOk(dummy, pool, slots) && Reach(dummy, pool, slots, threads, sched) == Sys(s, g);
    ReachInv(dummy, pool, slots, threads, sched);
  }

  /** The history does not influence the run. */
  lemma {:induction false} HistoryIsPassive(y: Sys, sched: seq<Move>)
    requires Inv(y.s, y.g)
    ensures Play(y, sched).s == RunFrom(y.s, sched)
  {
    if sched != [] {
      var rest := sched[..|sched| - 1];
      HistoryIsPassive(y, rest);
      PlayKeepsInv(y, rest);
      if sched[|sched| - 1].t < |Play(y, rest).s.pcs| { AdvanceStep(Play(y, rest), sched[|sched| - 1]); }
    }
  }

  lemma AccessAllocated(s: State, g: Hist, t: nat)
    requires Inv(s, g)
    ensures !s.fault
    ensures t < |s.pcs| && Accesses(s.pcs[t]).Addr? ==> Accesses(s.pcs[t]).a in s.heap
  {
    if t < |s.pcs| { AccessSafe(s, g, t); }
  }

  /** No step of any thread ever touches a node that is not allocated, or frees one twice. */
  lemma ReclamationSafe(dummy: Ptr, pool: Ptr, slots: nat, threads: nat, sched: seq<Move>, t: nat)
    requires InitOk(dummy, pool, slots)
    ensures var s := RunFrom(Init(dummy, pool, slots, threads), sched);
            !s.fault && (t < |s.pcs| && Accesses(s.pcs[t]).Addr? ==> Accesses(s.pcs[t]).a in s.heap)
  {
    InitKeepsInv(dummy, pool, slots, threads);
    var y0 := Sys(Init(dummy, pool, slots, threads), InitHist(dummy, pool, slots, threads));
    HistoryIsPassive(y0, sched);
    PlayKeepsInv(y0, sched);
    var y := Play(y0, sched);
    AccessAllocated(y.s, y.g, t);
  }

  // ---- First in, first out ----

  /** The data of every lfq_enqueue call, in the order of their exchanges on tail. */
  function Inserted(g: Hist): seq<Val>
    requires 0 < |g.vals|
  {
    g.vals[1..]
  }

  /**
   The c-th successful CAS on head belongs to exactly one lfq_dequeue call.  That call is still
   running, or it returned the c-th value inserted.
   */
  ghost predicate DeliveredOnce(s: State, g: Hist, c: nat) {
    && 1 <= c <= |g.vals| - 1
    && (c in g.got) != (c in g.claimant)
    && (c in g.got ==> g.got[c] == Inserted(g)[c - 1])
    && (c in g.claimant ==>
          && g.claimant[c] < |s.pcs| && Claiming(s.pcs[g.claimant[c]])
          && (forall d | d in g.claimant && g.claimant[d] == g.claimant[c] :: d == c)
          && (Result(s.pcs[g.claimant[c]]).Addr? ==> Result(s.pcs[g.claimant[c]]).a == Inserted(g)[c - 1]))
  }

  lemma ClaimedOnce(s: State, g: Hist, c: nat)
    requires Shape(s, g) && Claimants(s, g) && Results(s, g) && 1 <= c <= g.h
    ensures DeliveredOnce(s, g, c)
  {
    assert c in g.got || c in g.claimant;
    if c in g.claimant {
      assert ClaimantOk(s, g, c) && ResultOk(g, s.pcs[g.claimant[c]], c);
      forall d | d in g.claimant && g.claimant[d] == g.claimant[c] ensures d == c { assert ClaimantOk(s, g, d); }
    }
  }

  lemma ExactlyOnce(s: State, g: Hist, c: nat)
    requires Reachable(s, g) && 1 <= c <= g.h
    ensures DeliveredOnce(s, g, c)
  {
    ReachableInv(s, g);
    ClaimedOnce(s, g, c);
  }

  predicate NoClaims(s: State) {
    forall t | 0 <= t < |s.pcs| :: !Claiming(s.pcs[t])
  }

  /** What dequeue calls returned, in the order of their CASes on head. */
  function Returned(g: Hist): seq<Val>
    requires forall c: nat | 1 <= c <= g.h :: c in g.got
  {
    seq(g.h, k requires 0 <= k < g.h => g.got[k + 1])
  }

  /** The values returned are the first values inserted. */
  ghost predicate InOrder(g: Hist) {
    && g.h <= |g.vals| - 1 && (forall c: nat | 1 <= c <= g.h :: c in g.got)
    && Returned(g) == Inserted(g)[..g.h]
  }

  lemma ClaimedInOrder(s: State, g: Hist)
    requires Shape(s, g) && Claimants(s, g) && Results(s, g) && NoClaims(s)
    ensures InOrder(g)
  {
    forall c: nat | 1 <= c <= g.h ensures c in g.got && g.got[c] == Inserted(g)[c - 1] {
      ClaimedOnce(s, g, c);
    }
  }

  /** Once no winner is pending, the values returned are a prefix of the values inserted. */
  lemma Fifo(s: State, g: Hist)
    requires Reachable(s, g) && NoClaims(s)
    ensures InOrder(g)
  {
    ReachableInv(s, g);
    ClaimedInOrder(s, g);
  }

  // ---- Conservation ----

  predicate InQueue(g: Hist, a: Ptr, k: nat) { g.h <= k < |g.nodes| && g.nodes[k] == a }

  predicate InPool(g: Hist, a: Ptr, k: nat) { g.f <= k < |g.pool| && g.pool[k] == a }

  predicate OwnedBy(s: State, a: Ptr, t: nat) { t < |s.pcs| && Owns(s.pcs[t]) == Addr(a) }

  /** Every allocated node has a place ... */
  lemma NothingLeaks(s: State, g: Hist, a: Ptr) returns (r: Role)
    requires Reachable(s, g) && a in s.heap
    ensures match r
            case Queued(k) => InQueue(g, a, k)
            case Pooled(k) => InPool(g, a, k)
            case Owned(t) => OwnedBy(s, a, t)
  {
    ReachableInv(s, g);
    r := g.role[a];
    assert InPlace(s, g, a, r);
  }

  /** ... and only one, and whatever has a place is allocated. */
  lemma OnePlace(s: State, g: Hist, a: Ptr, i: nat, j: nat)
    requires Reachable(s, g)
    ensures InQueue(g, a, i) || InPool(g, a, i) || OwnedBy(s, a, i) ==> a in s.heap
    ensures !(InQueue(g, a, i) && InPool(g, a, j))
    ensures !(InQueue(g, a, i) && OwnedBy(s, a, j))
    ensures !(InPool(g, a, i) && OwnedBy(s, a, j))
    ensures InQueue(g, a, i) && InQueue(g, a, j) ==> i == j
    ensures InPool(g, a, i) && InPool(g, a, j) ==> i == j
    ensures OwnedBy(s, a, i) && OwnedBy(s, a, j) ==> i == j
  {
    ReachableInv(s, g);
  }

  ghost predicate LinkPending(s: State, ot: Ptr, a: Ptr) {
    exists t | 0 <= t < |s.pcs| :: s.pcs[t] == EnqLink(ot, a)
  }

  ghost predicate QueueAt(s: State, g: Hist, k: nat) {
    && g.h <= k < |g.nodes| && s.head == g.nodes[g.h] && s.tail == g.nodes[|g.nodes| - 1] && g.nodes[k] in s.heap
    && s.heap[g.nodes[k]].next ==
       if k + 1 == |g.nodes| || LinkPending(s, g.nodes[k], g.nodes[k + 1]) then NULL else g.nodes[k + 1]
  }

  /**
   head and tail are the ends of the queue; from each place the next one is reached by `next`, or
   the enqueuer that got that place still has the link to store; nothing follows the last place.
   */
  lemma QueueChain(s: State, g: Hist, k: nat)
    requires Reachable(s, g) && g.h <= k < |g.nodes|
    ensures QueueAt(s, g, k)
  {
    ReachableInv(s, g);
    ChainEnds(s, g, k);
  }

  lemma ChainEnds(s: State, g: Hist, k: nat)
    requires Shape(s, g) && g.h <= k < |g.nodes| && QueueEnds(s, g)
    requires RoleKeys(s, g) && QueuePlaces(g) && QueueLinks(s, g) && Gaps(s, g) && Linkers(s, g)
    ensures QueueAt(s, g, k)
  {
    if k + 1 < |g.nodes| { LinkOrGap(s, g, k); }
  }

  ghost predicate PoolLinkPending(s: State, ot: Ptr, a: Ptr) {
    exists t | 0 <= t < |s.pcs| :: EpLinking(s.pcs[t], ot, a)
  }

  ghost predicate PoolAt(s: State, g: Hist, k: nat) {
    && g.f <= k < |g.pool| && s.fph == g.pool[g.f] && s.fpt == g.pool[|g.pool| - 1] && g.pool[k] in s.heap
    && s.heap[g.pool[k]].next ==
       if k + 1 == |g.pool| || PoolLinkPending(s, g.pool[k], g.pool[k + 1]) then NULL else g.pool[k + 1]
  }

  /**
   fph and fpt are the ends of the retired list; from each place the next one is reached by
   `free_next`, or the thread that got that place still has the link to store; nothing follows the last.
   */
  lemma PoolChain(s: State, g: Hist, k: nat)
    requires Reachable(s, g) && g.f <= k < |g.pool|
    ensures PoolAt(s, g, k)
  {
    ReachableInv(s, g);
    PoolChainEnds(s, g, k);
  }

  lemma PoolChainEnds(s: State, g: Hist, k: nat)
    requires Shape(s, g) && g.f <= k < |g.pool| && PoolEnds(s, g)
    requires RoleKeys(s, g) && PoolPlaces(g) && PoolLinks(s, g) && PoolGaps(s, g) && PoolLinkers(s, g)
    ensures PoolAt(s, g, k)
  {
    if k + 1 < |g.pool| { PoolLinkOrGap(s, g, k); }
  }

  lemma PoolLinkOrGap(s: State, g: Hist, k: nat)
    requires Shape(s, g) && g.f <= k < |g.pool| - 1 && PoolEnds(s, g)
    requires RoleKeys(s, g) && PoolPlaces(g) && PoolLinks(s, g) && PoolGaps(s, g) && PoolLinkers(s, g)
    ensures s.fph == g.pool[g.f] && s.fpt == g.pool[|g.pool| - 1]
    ensures g.pool[k] in s.heap
    ensures s.heap[g.pool[k]].next == if PoolLinkPending(s, g.pool[k], g.pool[k + 1]) then NULL else g.pool[k + 1]
  {
    assert Linked(s.heap, g.pool, g.pgap, k) && g.pool[k + 1] in g.role;
    if k in g.pgap { assert PoolGapOk(s, g, k, g.pgap[k]); }
    forall t | 0 <= t < |s.pcs| && EpLinking(s.pcs[t], g.pool[k], g.pool[k + 1]) ensures k in g.pgap {
      assert PoolLinkerOk(g, t, s.pcs[t].op.f.ot);
    }
  }

  lemma LinkOrGap(s: State, g: Hist, k: nat)
    requires Shape(s, g) && g.h <= k < |g.nodes| - 1
    requires RoleKeys(s, g) && QueuePlaces(g) && QueueLinks(s, g) && Gaps(s, g) && Linkers(s, g)
    ensures g.nodes[k] in s.heap
    ensures k in g.gap <==> LinkPending(s, g.nodes[k], g.nodes[k + 1])
    ensures s.heap[g.nodes[k]].next == if k in g.gap then NULL else g.nodes[k + 1]
    ensures g.nodes[k + 1] != NULL
  {
    assert Linked(s.heap, g.nodes, g.gap, k) && g.nodes[k + 1] in g.role;
    if k in g.gap { assert GapOk(s, g, k, g.gap[k]); }
    forall t | 0 <= t < |s.pcs| && s.pcs[t] == EnqLink(g.nodes[k], g.nodes[k + 1]) ensures k in g.gap {
      assert LinkerOk(g, t, s.pcs[t].ot);
    }
  }

  // ---- The head CAS ----

  /**
   No ABA: at the CAS, head holds the expected address exactly when no CAS on head succeeded since
   the re-validation; then the value to be stored is the true successor.
   */
  lemma NoAba(s: State, g: Hist, t: nat, tid: nat, oh: Ptr, nh: Ptr)
    requires Reachable(s, g) && t < |s.pcs| && s.pcs[t] == Run(tid, CasHead(oh, nh))
    ensures s.head == oh <==> g.notes[t].seen == g.h
    ensures s.head == oh ==> g.h + 1 < |g.nodes| && oh == g.nodes[g.h] && nh == g.nodes[g.h + 1]
                               && oh in s.heap && s.heap[oh].next == nh
  {
    ReachableInv(s, g);
    assert RaceOk(g, g.notes[t], s.pcs[t]);
    assert Guarded(s.pcs[t]) == Addr(oh);
    if s.head == oh { assert Linked(s.heap, g.nodes, g.gap, g.h); }
  }

  lemma AssertionsHold(s: State, g: Hist, t: nat)
    requires Inv(s, g) && t < |s.pcs|
    ensures s.pcs[t].EnqLink? ==> s.pcs[t].ot in s.heap && s.heap[s.pcs[t].ot].next == NULL
    ensures s.pcs[t].Run? && s.pcs[t].op.ReadNext? ==>
              s.pcs[t].op.oh in s.heap && s.heap[s.pcs[t].op.oh].next != POISON
    ensures s.pcs[t].Run? && s.pcs[t].op.CasHead? ==> s.pcs[t].op.nh != POISON
  {
    AccessSafe(s, g, t);
    if s.pcs[t].EnqLink? {
      var k := g.role[s.pcs[t].ot].k;
      assert GapOk(s, g, k, t) && Linked(s.heap, g.nodes, g.gap, k);
    } else if s.pcs[t].Run? && s.pcs[t].op.ReadNext? {
      ReadNextOk(s, g, t, s.pcs[t].op.oh);
    }
  }

  /** The assertions compiled under DEBUG hold: an old tail is unlinked, a validated head is not poisoned. */
  lemma DebugAssertions(s: State, g: Hist, t: nat)
    requires Reachable(s, g) && t < |s.pcs|
    ensures s.pcs[t].EnqLink? ==> s.pcs[t].ot in s.heap && s.heap[s.pcs[t].ot].next == NULL
    ensures s.pcs[t].Run? && s.pcs[t].op.ReadNext? ==>
              s.pcs[t].op.oh in s.heap && s.heap[s.pcs[t].op.oh].next != POISON
    ensures s.pcs[t].Run? && s.pcs[t].op.CasHead? ==> s.pcs[t].op.nh != POISON
  {
    ReachableInv(s, g);
    AssertionsHold(s, g, t);
  }

  /** Failed attempts never outnumber the successful CASes that other threads made meanwhile. */
  lemma LockFree(s: State, g: Hist, t: nat)
    requires Reachable(s, g) && t < |s.pcs| && s.pcs[t].Run?
    ensures g.notes[t].fails <= g.notes[t].rivals
  {
    ReachableInv(s, g);
    assert RaceOk(g, g.notes[t], s.pcs[t]);
  }

  // ---- An empty answer ----

  predicate NothingFollows(s: State, oh: Ptr) { s.head == oh && s.tail == oh }

  /** An enqueuer has the place after oh and still has to store the link. */
  ghost predicate BeingLinked(s: State, oh: Ptr) {
    exists u | 0 <= u < |s.pcs| :: s.pcs[u].EnqLink? && s.pcs[u].ot == oh
  }

  ghost predicate FollowerUnlinked(s: State, oh: Ptr) { s.head == oh && BeingLinked(s, oh) }

  /** oh is being appended to the retired list, or its successor there is. */
  ghost predicate BeingRetired(s: State, oh: Ptr) {
    || (s.head != oh && s.fpt == oh)
    || exists u | 0 <= u < |s.pcs| :: Retires(s.pcs[u], oh)
  }

  predicate Retires(pc: Pc, oh: Ptr) {
    pc.Run? && pc.op.Freeing? && (pc.op.f == EpXchg(oh) || (pc.op.f.EpLink? && pc.op.f.ot == oh))
  }

  /** A consumer that owns a node without condemning it is on the way to retire it. */
  lemma OwnerRetires(pc: Pc, oh: Ptr, i: int)
    requires pc.Run? && Owns(pc) == Addr(oh) && !Condemns(pc, oh, i)
    ensures Removed(pc) == Addr(oh) || IsEpXchg(pc)
  {
  }

  lemma EmptyCases(s: State, g: Hist, t: nat, tid: nat, oh: Ptr)
    requires Inv(s, g) && t < |s.pcs| && s.pcs[t] == Run(tid, ReadNext(oh))
    ensures oh in s.heap
    ensures s.heap[oh].next == NULL <==> NothingFollows(s, oh) || FollowerUnlinked(s, oh) || BeingRetired(s, oh)
  {
    AccessSafe(s, g, t);
    assert Guarded(s.pcs[t]) == Addr(oh) && InPlace(s, g, oh, g.role[oh]);
    match g.role[oh]
    case Queued(k) => EmptyAtHead(s, g, oh);
    case Pooled(k) => EmptyInPool(s, g, oh, k);
    case Owned(u) =>
      assert GuardOk(s, g, oh, g.notes[t].seen) && !Condemns(s.pcs[u], oh, tid);
      OwnerRetires(s.pcs[u], oh, tid);
      EmptyOwned(s, g, oh, u);
  }

  /** A re-validated dequeuer turns to answer "empty" (lines 189-191) in exactly these three situations. */
  lemma EmptyMeans(s: State, g: Hist, t: nat, tid: nat, oh: Ptr)
    requires Reachable(s, g) && t < |s.pcs| && s.pcs[t] == Run(tid, ReadNext(oh))
    ensures oh in s.heap
    ensures s.heap[oh].next == NULL <==> NothingFollows(s, oh) || FollowerUnlinked(s, oh) || BeingRetired(s, oh)
    ensures !Dangling(s, s.pcs[t])
    ensures Next(s, s.pcs[t], Go).pc == Run(tid, ClearEmpty(oh)) <==>
            NothingFollows(s, oh) || FollowerUnlinked(s, oh) || BeingRetired(s, oh)
  {
    ReachableInv(s, g);
    EmptyCases(s, g, t, tid, oh);
    AccessSafe(s, g, t);
  }

  /**
   When an answer "empty" is right.  While head is old_head, NULL is read exactly if the queue is empty or
   an enqueuer is about to link its node behind old_head, and these exclude each other.  With head moved
   on, NULL is read only from a node that is being retired.
   */
  lemma EmptyTrue(s: State, g: Hist, t: nat, tid: nat, oh: Ptr)
    requires Reachable(s, g) && t < |s.pcs| && s.pcs[t] == Run(tid, ReadNext(oh))
    ensures oh in s.heap
    ensures s.head == oh ==>
              && (s.heap[oh].next == NULL <==> s.head == s.tail || BeingLinked(s, oh))
              && !(s.head == s.tail && BeingLinked(s, oh))
    ensures s.head != oh ==> (s.heap[oh].next == NULL <==> BeingRetired(s, oh))
  {
    ReachableInv(s, g);
    AccessSafe(s, g, t);
    EmptyCases(s, g, t, tid, oh);
    if s.head == oh { EmptyAtHeadTrue(s, g, oh); }
  }

  /** head is old_head exactly if no CAS on head succeeded since the validation. */
  lemma HeadUnmoved(s: State, g: Hist, t: nat, tid: nat, oh: Ptr)
    requires Reachable(s, g) && t < |s.pcs| && s.pcs[t] == Run(tid, ReadNext(oh))
    ensures s.head == oh <==> g.notes[t].seen == g.h
  {
    ReachableInv(s, g);
    HeadSeen(s, g, t, tid, oh);
  }

  lemma HeadSeen(s: State, g: Hist, t: nat, tid: nat, oh: Ptr)
    requires Shape(s, g) && t < |s.pcs| && s.pcs[t] == Run(tid, ReadNext(oh))
    requires QueuePlaces(g) && QueueEnds(s, g) && Guards(s, g) && Races(s, g)
    ensures s.head == oh <==> g.notes[t].seen == g.h
  {
    assert RaceOk(g, g.notes[t], s.pcs[t]);
    assert Guarded(s.pcs[t]) == Addr(oh) && GuardOk(s, g, oh, g.notes[t].seen);
    assert g.role[g.nodes[g.h]] == Queued(g.h);
  }

  lemma EmptyAtHeadTrue(s: State, g: Hist, oh: Ptr)
    requires Shape(s, g) && s.head == oh && oh in s.heap
    requires RoleKeys(s, g) && QueuePlaces(g) && QueueEnds(s, g) && QueueLinks(s, g) && Gaps(s, g) && Linkers(s, g)
    ensures s.heap[oh].next == NULL <==> s.head == s.tail || BeingLinked(s, oh)
    ensures !(s.head == s.tail && BeingLinked(s, oh))
  {
    assert g.role[g.nodes[g.h]] == Queued(g.h) && g.role[s.tail] == Queued(|g.nodes| - 1);
    if g.h < |g.nodes| - 1 { LinkOrGap(s, g, g.h); }
    forall u | 0 <= u < |s.pcs| && s.pcs[u].EnqLink? && s.pcs[u].ot == oh ensures g.h in g.gap && g.h < |g.nodes| - 1 {
      assert LinkerOk(g, u, oh) && GapOk(s, g, g.h, g.gap[g.h]);
    }
  }

  lemma EmptyAtHead(s: State, g: Hist, oh: Ptr)
    requires Shape(s, g) && RoleKeys(s, g) && QueuePlaces(g) && QueueEnds(s, g) && QueueLinks(s, g) && Gaps(s, g)
    requires Linkers(s, g) && PoolLinkers(s, g) && Owners(s, g) && PoolPlaces(g) && PoolEnds(s, g) && oh == g.nodes[g.h]
    ensures s.heap[oh].next == NULL <==> NothingFollows(s, oh) || FollowerUnlinked(s, oh) || BeingRetired(s, oh)
  {
    assert g.role[oh] == Queued(g.h);
    if g.h < |g.nodes| - 1 {
      LinkOrGap(s, g, g.h);
      assert s.tail != oh;
      forall u | 0 <= u < |s.pcs| && s.pcs[u].EnqLink? && s.pcs[u].ot == oh ensures g.h in g.gap {
        assert LinkerOk(g, u, oh);
      }
    }
  }

  lemma EmptyInPool(s: State, g: Hist, oh: Ptr, k: nat)
    requires Shape(s, g) && RoleKeys(s, g) && QueuePlaces(g) && QueueEnds(s, g) && Linkers(s, g) && RolesTrue(s, g)
    requires PoolPlaces(g) && PoolEnds(s, g) && PoolLinks(s, g) && PoolGaps(s, g) && PoolLinkers(s, g) && Owners(s, g)
    requires oh in g.role && g.role[oh] == Pooled(k)
    ensures s.heap[oh].next == NULL <==> NothingFollows(s, oh) || FollowerUnlinked(s, oh) || BeingRetired(s, oh)
  {
    assert InPlace(s, g, oh, g.role[oh]);
    if k < |g.pool| - 1 {
      assert Linked(s.heap, g.pool, g.pgap, k) && g.pool[k + 1] in g.role;
      if k in g.pgap { assert PoolGapOk(s, g, k, g.pgap[k]) && Retires(s.pcs[g.pgap[k]], oh); }
    }
  }

  lemma EmptyOwned(s: State, g: Hist, oh: Ptr, u: nat)
    requires Shape(s, g) && RoleKeys(s, g) && QueuePlaces(g) && QueueEnds(s, g) && PoolPlaces(g) && PoolEnds(s, g)
    requires Linkers(s, g) && PoolLinkers(s, g) && Retirees(s)
    requires oh in g.role && g.role[oh] == Owned(u) && InPlace(s, g, oh, g.role[oh])
    requires u < |s.pcs| && (Removed(s.pcs[u]) == Addr(oh) || IsEpXchg(s.pcs[u]))
    ensures s.heap[oh].next == NULL <==> NothingFollows(s, oh) || FollowerUnlinked(s, oh) || BeingRetired(s, oh)
  {
    assert RetireeOk(s, s.pcs[u]);
    assert s.head != oh && s.fpt != oh;
    if IsEpXchg(s.pcs[u]) { assert Retires(s.pcs[u], oh); }
  }

  // ---- Consumer slots ----

  /** Running dequeues hold different slots; a slot nobody holds is free and protects nothing. */
  lemma SlotExclusion(s: State, g: Hist, t: nat, u: nat, i: nat)
    requires Reachable(s, g) && t < |s.pcs| && u < |s.pcs| && i < |s.hp|
    ensures s.pcs[t].Run? && s.pcs[u].Run? && s.pcs[t].tid == s.pcs[u].tid ==> t == u
    ensures s.tidMap[i] <==> exists v | 0 <= v < |s.pcs| :: s.pcs[v].Run? && s.pcs[v].tid == i
    ensures !s.tidMap[i] ==> s.hp[i] == NULL
  {
    ReachableInv(s, g);
    assert RunnerOk(s, g, t, s.pcs[t]) && RunnerOk(s, g, u, s.pcs[u]) && SlotOk(s, g, i);
    forall v | 0 <= v < |s.pcs| && s.pcs[v].Run? && s.pcs[v].tid == i ensures s.tidMap[i] {
      assert RunnerOk(s, g, v, s.pcs[v]);
    }
  }

  /** The slot a thread inspects or holds, or -1. */
  function Position(pc: Pc): int {
    match pc
    case TidRead(i) => i
    case TidCas(i) => i
    case Run(tid, _) => tid
    case _ => -1
  }

  function Beyond(pcs: seq<Pc>, i: nat): set<nat> {
    set t: nat | t < |pcs| && Position(pcs[t]) >= i
  }

  /** If anyone is at slot i or beyond, then so few are that `limit` slots suffice. */
  ghost predicate Spread(pcs: seq<Pc>, limit: nat) {
    forall i: nat :: Beyond(pcs, i) == {} || |Beyond(pcs, i)| + i <= limit
  }

  lemma SubsetSize(a: set<nat>, b: set<nat>)
    requires a <= b
    ensures |a| <= |b|
  {
    if a != {} {
      var x :| x in a;
      SubsetSize(a - {x}, b - {x});
    }
  }

  lemma BeyondStay(pcs: seq<Pc>, t: nat, to: Pc, i: nat)
    requires t < |pcs| && (Position(to) < i || i <= Position(pcs[t]))
    ensures Beyond(pcs[t := to], i) <= Beyond(pcs, i) && |Beyond(pcs[t := to], i)| <= |Beyond(pcs, i)|
  {
    assert Beyond(pcs[t := to], i) <= Beyond(pcs, i);
    SubsetSize(Beyond(pcs[t := to], i), Beyond(pcs, i));
  }

  lemma BeyondPass(pcs: seq<Pc>, t: nat, to: Pc, i: nat, u: nat)
    requires t < |pcs| && u < |pcs| && u != t
    requires Position(pcs[t]) == i == Position(pcs[u]) && Position(to) == i + 1
    ensures |Beyond(pcs[t := to], i + 1)| < |Beyond(pcs, i)|
  {
    assert Beyond(pcs[t := to], i + 1) <= Beyond(pcs, i) - {u};
    SubsetSize(Beyond(pcs[t := to], i + 1), Beyond(pcs, i) - {u});
    assert u in Beyond(pcs, i);
  }

  /** A thread passes slot i only while another thread holds it. */
  lemma MoveSpread(pcs: seq<Pc>, t: nat, to: Pc, u: int, limit: nat)
    requires t < |pcs| && Spread(pcs, limit) && |Beyond(pcs[t := to], 0)| <= limit
    requires Position(to) <= Position(pcs[t]) + 1
    requires 0 <= Position(pcs[t]) && Position(to) == Position(pcs[t]) + 1 ==>
               0 <= u < |pcs| && u != t && Position(pcs[u]) == Position(pcs[t])
    ensures Spread(pcs[t := to], limit)
  {
    var pcs' := pcs[t := to];
    forall i: nat ensures Beyond(pcs', i) == {} || |Beyond(pcs', i)| + i <= limit {
      if i == 0 {
      } else if Position(to) < i || i <= Position(pcs[t]) {
        BeyondStay(pcs, t, to, i);
      } else {
        BeyondPass(pcs, t, to, i - 1, u);
      }
    }
  }

  lemma SpreadMove(s: State, g: Hist, t: nat, c: Choice)
    requires Shape(s, g) && Slots(s, g) && t < |s.pcs| && !Dangling(s, s.pcs[t])
    ensures var from, to := s.pcs[t], Next(s, s.pcs[t], c).pc;
            && (Position(to) <= Position(from) || Position(to) == Position(from) + 1)
            && (Position(from) == -1 && Position(to) == 0 ==> from == Idle && c.StartDeq?)
            && (0 <= Position(from) && Position(to) == Position(from) + 1 ==>
                  Position(from) < |g.slots| &&
                  var u := g.slots[Position(from)];
                  0 <= u < |s.pcs| && u != t && Position(s.pcs[u]) == Position(from))
  {
    var from := s.pcs[t];
    if (from.TidRead? || from.TidCas?) && from.i < |g.slots| { assert SlotOk(s, g, from.i); }
  }

  lemma StepSpread(s: State, g: Hist, t: nat, c: Choice, limit: nat)
    requires Shape(s, g) && Slots(s, g) && (t < |s.pcs| ==> !Dangling(s, s.pcs[t]))
    requires Spread(s.pcs, limit) && |Dequeuing(Exec(s, t, c))| <= limit
    ensures Spread(Exec(s, t, c).pcs, limit) && |Exec(s, t, c).tidMap| == |s.tidMap|
  {
    if t < |s.pcs| {
      SpreadMove(s, g, t, c);
      ExecShape(s, t, c);
      var at, to := Position(s.pcs[t]), Next(s, s.pcs[t], c).pc;
      MoveSpread(s.pcs, t, to, if 0 <= at < |g.slots| then g.slots[at] else -1, limit);
    }
  }

  lemma ExecShape(s: State, t: nat, c: Choice)
    requires t < |s.pcs| && !Dangling(s, s.pcs[t])
    ensures Exec(s, t, c).pcs == s.pcs[t := Next(s, s.pcs[t], c).pc] && |Exec(s, t, c).tidMap| == |s.tidMap|
  {
  }

  /** The threads that are in lfq_dequeue. */
  function Dequeuing(s: State): set<nat> { Beyond(s.pcs, 0) }

  /** At no time during the schedule are more threads in lfq_dequeue than there are slots. */
  ghost predicate FewAtOnce(dummy: Ptr, pool: Ptr, slots: nat, threads: nat, sched: seq<Move>)
    requires InitOk(dummy, pool, slots)
  {
    forall k | 0 <= k <= |sched| :: |Dequeuing(Reach(dummy, pool, slots, threads, sched[..k]).s)| <= slots
  }

  lemma ReachNext(dummy: Ptr, pool: Ptr, slots: nat, threads: nat, rest: seq<Move>, m: Move)
    requires InitOk(dummy, pool, slots)
    ensures var y, y' := Reach(dummy, pool, slots, threads, rest), Reach(dummy, pool, slots, threads, rest + [m]);
            && Shape(y.s, y.g) && Slots(y.s, y.g) && y'.s == Exec(y.s, m.t, m.c)
            && (m.t < |y.s.pcs| ==> !Dangling(y.s, y.s.pcs[m.t]))
  {
    ReachInv(dummy, pool, slots, threads, rest);
    assert (rest + [m])[..|rest|] == rest;
    var y := Reach(dummy, pool, slots, threads, rest);
    if m.t < |y.s.pcs| { AdvanceStep(y, m); }
  }

  lemma {:induction false} RunSpread(dummy: Ptr, pool: Ptr, slots: nat, threads: nat, sched: seq<Move>)
    requires InitOk(dummy, pool, slots) && FewAtOnce(dummy, pool, slots, threads, sched)
    ensures var s := Reach(dummy, pool, slots, threads, sched).s; Spread(s.pcs, slots) && |s.tidMap| == slots
    decreases |sched|
  {
    hide Slots, Exec;
    if sched == [] {
      assert forall i: nat :: Beyond(Init(dummy, pool, slots, threads).pcs, i) == {};
    } else {
      var rest, last := sched[..|sched| - 1], sched[|sched| - 1];
      assert sched == rest + [last] == sched[..|sched|];
      assert forall k | 0 <= k <= |rest| :: rest[..k] == sched[..k];
      RunSpread(dummy, pool, slots, threads, rest);
      ReachNext(dummy, pool, slots, threads, rest, last);
      var y := Reach(dummy, pool, slots, threads, rest);
      StepSpread(y.s, y.g, last.t, last.c, slots);
    }
  }

  /** lfq_dequeue does not answer -1 if never more threads are in it at once than there are slots. */
  lemma SlotsSuffice(dummy: Ptr, pool: Ptr, slots: nat, threads: nat, sched: seq<Move>, t: nat)
    requires InitOk(dummy, pool, slots) && FewAtOnce(dummy, pool, slots, threads, sched)
    ensures var s := Reach(dummy, pool, slots, threads, sched).s;
            t < |s.pcs| && s.pcs[t].TidRead? ==> s.pcs[t].i < |s.tidMap|
  {
    RunSpread(dummy, pool, slots, threads, sched);
    var s := Reach(dummy, pool, slots, threads, sched).s;
    if t < |s.pcs| && s.pcs[t].TidRead? && s.pcs[t].i >= slots {
      assert t in Beyond(s.pcs, s.pcs[t].i);
      SubsetSize({t}, Beyond(s.pcs, s.pcs[t].i));
    }
  }

  predicate OnlyConsumers(sched: seq<Move>, consumers: set<nat>) {
    forall k | 0 <= k < |sched| :: sched[k].c.StartDeq? ==> sched[k].t in consumers
  }

  lemma {:induction false} RunWithin(dummy: Ptr, pool: Ptr, slots: nat, threads: nat, sched: seq<Move>,
          consumers: set<nat>)
    requires InitOk(dummy, pool, slots) && OnlyConsumers(sched, consumers)
    ensures Dequeuing(Reach(dummy, pool, slots, threads, sched).s) <= consumers
    decreases |sched|
  {
    hide Slots, Exec, Next;
    if sched != [] {
      var rest, last := sched[..|sched| - 1], sched[|sched| - 1];
      assert sched == rest + [last];
      RunWithin(dummy, pool, slots, threads, rest, consumers);
      ReachNext(dummy, pool, slots, threads, rest, last);
      var y := Reach(dummy, pool, slots, threads, rest);
      if last.t < |y.s.pcs| {
        SpreadMove(y.s, y.g, last.t, last.c);
        ExecShape(y.s, last.t, last.c);
      }
    }
  }

  /** In particular if no more threads ever dequeue than there are slots. */
  lemma FewConsumers(dummy: Ptr, pool: Ptr, slots: nat, threads: nat, sched: seq<Move>, consumers: set<nat>)
    requires InitOk(dummy, pool, slots) && OnlyConsumers(sched, consumers) && |consumers| <= slots
    ensures FewAtOnce(dummy, pool, slots, threads, sched)
  {
    forall k | 0 <= k <= |sched|
      ensures |Dequeuing(Reach(dummy, pool, slots, threads, sched[..k]).s)| <= slots
    {
      RunWithin(dummy, pool, slots, threads, sched[..k], consumers);
      SubsetSize(Dequeuing(Reach(dummy, pool, slots, threads, sched[..k]).s), consumers);
    }
  }
}
