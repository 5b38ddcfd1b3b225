/** The invariant of LfqModel runs, stated over the state and its history. */
module LfqInvariant {
  import opened LfqModel
  import opened LfqHistory

  // ---- What a program counter says about its thread ----

  /** A node only this thread may put somewhere: one being enqueued, retired or freed. */
  function Owns(pc: Pc): Access {
    match pc
    case EnqData(a, _) => Addr(a)
    case EnqXchg(a, _) => Addr(a)
    case Run(_, ClearHp(oh, _)) => Addr(oh)
    case Run(_, ReadData(oh, _)) => Addr(oh)
    case Run(_, SetCanFree(oh, _, _)) => Addr(oh)
    case Run(_, Freeing(_, f)) => OwnsFreeing(f)
    case _ => Nothing
  }

  function OwnsFreeing(f: FreeOp): Access {
    match f
    case SfCheck(x) => Addr(x)
    case SfScan(x, _) => Addr(x)
    case SfLock(x) => Addr(x)
    case SfPoison(x) => Addr(x)
    case SfFree(x) => Addr(x)
    case EpNull(x) => Addr(x)
    case EpXchg(x) => Addr(x)
    case FpFree(_, p) => Addr(p)
    case _ => Nothing
  }

  /** The thread holds is_freeing. */
  predicate InCrit(pc: Pc) {
    pc.Run? && pc.op.Freeing? &&
    match pc.op.f
    case SfPoison(_) => true
    case SfFree(_) => true
    case SfUnlock => true
    case FpHead(_) => true
    case FpCanFree(_, _) => true
    case FpNext(_, _) => true
    case FpScan(_, _, _) => true
    case FpReload(_, _) => true
    case FpStore(_, _, _) => true
    case FpFree(_, _) => true
    case FpUnlock => true
    case _ => false
  }

  /** The old head that a re-validated dequeuer relies on. */
  function Guarded(pc: Pc): Access {
    match pc
    case Run(_, ReadNext(oh)) => Addr(oh)
    case Run(_, CasHead(oh, _)) => Addr(oh)
    case _ => Nothing
  }

  /** The thread may free a although it will not look at slot i again. */
  predicate Condemns(pc: Pc, a: Ptr, i: int) {
    pc.Run? && pc.op.Freeing? &&
    match pc.op.f
    case SfScan(x, j) => x == a && i < j
    case SfLock(x) => x == a
    case SfPoison(x) => x == a
    case SfFree(x) => x == a
    case FpScan(_, p, j) => p == a && i < j
    case FpReload(_, p) => p == a
    case FpStore(_, p, _) => p == a
    case FpFree(_, p) => p == a
    case _ => false
  }

  /** What the thread knows its hazard pointer to be. */
  function HpKnown(op: Op): Access {
    match op
    case Validate(oh) => Addr(oh)
    case ReadNext(oh) => Addr(oh)
    case ClearEmpty(oh) => Addr(oh)
    case CasHead(oh, _) => Addr(oh)
    case ClearHp(oh, _) => Addr(oh)
    case ReadData(_, _) => Addr(NULL)
    case SetCanFree(_, _, _) => Addr(NULL)
    case Freeing(_, _) => Addr(NULL)
    case Release(_) => Addr(NULL)
    case _ => Nothing
  }

  /** The pool head that free_pool is working on, while it is still in the pool. */
  function Front(pc: Pc): Access {
    match pc
    case Run(_, Freeing(_, FpCanFree(_, p))) => Addr(p)
    case Run(_, Freeing(_, FpNext(_, p))) => Addr(p)
    case _ => FrontLinked(pc)
  }

  /** ... and whose free_next it has seen set. */
  function FrontLinked(pc: Pc): Access {
    match pc
    case Run(_, Freeing(_, FpScan(_, p, _))) => Addr(p)
    case Run(_, Freeing(_, FpReload(_, p))) => Addr(p)
    case Run(_, Freeing(_, FpStore(_, p, _))) => Addr(p)
    case _ => Nothing
  }

  /** A node whose can_free this thread has seen set and which it may free. */
  function Doomed(pc: Pc): Access {
    match pc
    case Run(_, Freeing(_, SfScan(x, _))) => Addr(x)
    case Run(_, Freeing(_, SfLock(x))) => Addr(x)
    case Run(_, Freeing(_, SfPoison(x))) => Addr(x)
    case Run(_, Freeing(_, SfFree(x))) => Addr(x)
    case Run(_, Freeing(_, FpNext(_, p))) => Addr(p)
    case Run(_, Freeing(_, FpFree(_, p))) => Addr(p)
    case _ => FrontLinked(pc)
  }

  /** The new head a winner of the CAS still has to read and mark. */
  function Pending(pc: Pc): Access {
    match pc
    case Run(_, ClearHp(_, nh)) => Addr(nh)
    case Run(_, ReadData(_, nh)) => Addr(nh)
    case Run(_, SetCanFree(_, nh, _)) => Addr(nh)
    case _ => Nothing
  }

  /** The call has won a head CAS and has not returned. */
  predicate Claiming(pc: Pc) {
    pc.Run? && (pc.op.ClearHp? || pc.op.ReadData? || pc.op.SetCanFree? || pc.op.Freeing?
                || (pc.op.Release? && pc.op.ret.Got?))
  }

  /** The value the call is going to return, once it has read it. */
  function Result(pc: Pc): Access {
    match pc
    case Run(_, SetCanFree(_, _, v)) => Addr(v)
    case Run(_, Freeing(v, _)) => Addr(v)
    case Run(_, Release(Got(v))) => Addr(v)
    case _ => Nothing
  }

  predicate Looping(pc: Pc) {
    pc.Run? && (pc.op.Publish? || pc.op.Validate? || pc.op.ReadNext? || pc.op.CasHead?)
  }

  function SeenHead(pc: Pc): Ptr
    requires Looping(pc)
  {
    match pc.op
    case Publish(oh) => oh
    case Validate(oh) => oh
    case ReadNext(oh) => oh
    case CasHead(oh, _) => oh
  }

  // ---- The invariant, part by part ----

  /** An old head between its removal from the queue and the reset of its next field. */
  function Removed(pc: Pc): Access {
    match pc
    case Run(_, ClearHp(oh, _)) => Addr(oh)
    case Run(_, ReadData(oh, _)) => Addr(oh)
    case Run(_, SetCanFree(oh, _, _)) => Addr(oh)
    case Run(_, Freeing(_, SfCheck(x))) => Addr(x)
    case Run(_, Freeing(_, SfScan(x, _))) => Addr(x)
    case Run(_, Freeing(_, SfLock(x))) => Addr(x)
    case Run(_, Freeing(_, SfPoison(x))) => Addr(x)
    case Run(_, Freeing(_, EpNull(x))) => Addr(x)
    case _ => Nothing
  }

  predicate IsEpLink(pc: Pc) { pc.Run? && pc.op.Freeing? && pc.op.f.EpLink? }
  predicate IsEpXchg(pc: Pc) { pc.Run? && pc.op.Freeing? && pc.op.f.EpXchg? }
  predicate IsFpStore(pc: Pc) { pc.Run? && pc.op.Freeing? && pc.op.f.FpStore? }
  predicate IsSfFree(pc: Pc) { pc.Run? && pc.op.Freeing? && pc.op.f.SfFree? }

  predicate Shape(s: State, g: Hist) {
    && |g.notes| == |s.pcs|
    && 0 < |s.hp| == |s.tidMap| == |g.slots|
    && g.h < |g.nodes| == |g.vals|
    && g.f < |g.pool|
  }

  // Every allocated node has exactly one place.

  ghost predicate RoleKeys(s: State, g: Hist) {
    g.role.Keys == s.heap.Keys && forall a | a in g.role :: 0 < a
  }

  ghost predicate QueuePlaces(g: Hist) {
    forall k | g.h <= k < |g.nodes| :: g.nodes[k] in g.role && g.role[g.nodes[k]] == Queued(k)
  }

  ghost predicate PoolPlaces(g: Hist) {
    forall k | g.f <= k < |g.pool| :: g.pool[k] in g.role && g.role[g.pool[k]] == Pooled(k)
  }

  ghost predicate Owners(s: State, g: Hist) {
    forall t | 0 <= t < |s.pcs| && Owns(s.pcs[t]).Addr? ::
      Owns(s.pcs[t]).a in g.role && g.role[Owns(s.pcs[t]).a] == Owned(t)
  }

  predicate InPlace(s: State, g: Hist, a: Ptr, r: Role) {
    match r
    case Queued(k) => g.h <= k < |g.nodes| && g.nodes[k] == a
    case Pooled(k) => g.f <= k < |g.pool| && g.pool[k] == a
    case Owned(t) => t < |s.pcs| && Owns(s.pcs[t]) == Addr(a)
  }

  ghost predicate RolesTrue(s: State, g: Hist) {
    forall a | a in g.role :: InPlace(s, g, a, g.role[a])
  }

  // The queue: head and tail delimit it; each place but the last is linked, or about to be.

  predicate QueueEnds(s: State, g: Hist)
    requires Shape(s, g)
  {
    var last := g.nodes[|g.nodes| - 1];
    s.head == g.nodes[g.h] && s.tail == last && last in s.heap && s.heap[last].next == NULL
  }

  /** Place k of a list is linked to the next place, unless that link is still to be stored. */
  predicate Linked(heap: map<Ptr, Node>, list: seq<Ptr>, gaps: map<nat, nat>, k: nat)
    requires k + 1 < |list|
  {
    list[k] in heap && heap[list[k]].next == if k in gaps then NULL else list[k + 1]
  }

  ghost predicate QueueLinks(s: State, g: Hist) {
    forall k {:trigger g.nodes[k]} {:trigger Linked(s.heap, g.nodes, g.gap, k)} | g.h <= k < |g.nodes| - 1 ::
      Linked(s.heap, g.nodes, g.gap, k)
  }

  ghost predicate Gaps(s: State, g: Hist) {
    forall k | k in g.gap :: GapOk(s, g, k, g.gap[k])
  }

  predicate GapOk(s: State, g: Hist, k: nat, t: nat) {
    g.h <= k < |g.nodes| - 1 && t < |s.pcs| && s.pcs[t] == EnqLink(g.nodes[k], g.nodes[k + 1])
  }

  predicate LinkerOk(g: Hist, t: nat, ot: Ptr) {
    ot in g.role && g.role[ot].Queued? && g.role[ot].k in g.gap && g.gap[g.role[ot].k] == t
  }

  ghost predicate Linkers(s: State, g: Hist) {
    forall t | 0 <= t < |s.pcs| && s.pcs[t].EnqLink? :: LinkerOk(g, t, s.pcs[t].ot)
  }

  predicate UnreadAt(s: State, g: Hist, k: nat)
    requires k < |g.nodes| == |g.vals|
  {
    g.nodes[k] in s.heap && s.heap[g.nodes[k]].data == g.vals[k] && !s.heap[g.nodes[k]].canFree
  }

  ghost predicate Unread(s: State, g: Hist)
    requires Shape(s, g)
  {
    forall k {:trigger g.nodes[k]} {:trigger UnreadAt(s, g, k)} | g.h < k < |g.nodes| :: UnreadAt(s, g, k)
  }

  predicate PrivateOk(s: State, pc: Pc) {
    match pc
    case EnqData(a, _) => a in s.heap && s.heap[a].next == NULL && !s.heap[a].canFree
    case EnqXchg(a, d) => a in s.heap && s.heap[a] == Node(d, NULL, false)
    case _ => true
  }

  ghost predicate Privates(s: State) {
    forall t | 0 <= t < |s.pcs| :: PrivateOk(s, s.pcs[t])
  }

  // The retired list, in the same way, and the thread that takes nodes out of it.

  predicate PoolEnds(s: State, g: Hist)
    requires Shape(s, g)
  {
    var last := g.pool[|g.pool| - 1];
    s.fph == g.pool[g.f] && s.fpt == last && last in s.heap && s.heap[last].next == NULL
  }

  ghost predicate PoolLinks(s: State, g: Hist) {
    forall k {:trigger g.pool[k]} {:trigger Linked(s.heap, g.pool, g.pgap, k)} | g.f <= k < |g.pool| - 1 ::
      Linked(s.heap, g.pool, g.pgap, k)
  }

  predicate EpLinking(pc: Pc, ot: Ptr, x: Ptr) { IsEpLink(pc) && pc.op.f == EpLink(ot, x) }

  ghost predicate PoolGaps(s: State, g: Hist) {
    forall k | k in g.pgap :: PoolGapOk(s, g, k, g.pgap[k])
  }

  predicate PoolGapOk(s: State, g: Hist, k: nat, t: nat) {
    g.f <= k < |g.pool| - 1 && t < |s.pcs| && EpLinking(s.pcs[t], g.pool[k], g.pool[k + 1])
  }

  predicate PoolLinkerOk(g: Hist, t: nat, ot: Ptr) {
    ot in g.role && g.role[ot].Pooled? && g.role[ot].k in g.pgap && g.pgap[g.role[ot].k] == t
  }

  ghost predicate PoolLinkers(s: State, g: Hist) {
    forall t | 0 <= t < |s.pcs| && IsEpLink(s.pcs[t]) :: PoolLinkerOk(g, t, s.pcs[t].op.f.ot)
  }

  predicate RetireeOk(s: State, pc: Pc) {
    && (Removed(pc).Addr? ==> Removed(pc).a in s.heap && s.heap[Removed(pc).a].next != NULL)
    && (IsEpXchg(pc) ==> pc.op.f.x in s.heap && s.heap[pc.op.f.x].next == NULL)
  }

  ghost predicate Retirees(s: State) {
    forall t | 0 <= t < |s.pcs| :: RetireeOk(s, s.pcs[t])
  }

  predicate FrontOk(g: Hist, pc: Pc)
    requires g.f < |g.pool|
  {
    && (Front(pc).Addr? ==> Front(pc).a == g.pool[g.f])
    && (FrontLinked(pc).Addr? ==> g.f < |g.pool| - 1 && g.f !in g.pgap)
    && (IsFpStore(pc) ==> g.f < |g.pool| - 1 && pc.op.f.q == g.pool[g.f + 1])
  }

  ghost predicate Fronts(s: State, g: Hist)
    requires Shape(s, g)
  {
    forall t | 0 <= t < |s.pcs| :: FrontOk(g, s.pcs[t])
  }

  // is_freeing is a lock; each slot has one owner and an unowned slot's hazard pointer is NULL.

  ghost predicate Lock(s: State, g: Hist) {
    && s.isFreeing == (g.lock >= 0) && g.lock < |s.pcs|
    && forall t | 0 <= t < |s.pcs| :: InCrit(s.pcs[t]) <==> g.lock == t
  }

  predicate SlotOk(s: State, g: Hist, i: nat)
    requires Shape(s, g) && i < |g.slots|
  {
    && -1 <= g.slots[i] && s.tidMap[i] == (g.slots[i] >= 0)
    && (g.slots[i] < 0 ==> s.hp[i] == NULL)
    && (g.slots[i] >= 0 ==> g.slots[i] < |s.pcs| && s.pcs[g.slots[i]].Run? && s.pcs[g.slots[i]].tid == i)
  }

  predicate RunnerOk(s: State, g: Hist, t: nat, pc: Pc)
    requires Shape(s, g)
  {
    && (pc.Run? ==> pc.tid < |g.slots| && g.slots[pc.tid] == t
                    && (HpKnown(pc.op).Addr? ==> s.hp[pc.tid] == HpKnown(pc.op).a))
    && (pc.TidCas? ==> pc.i < |s.tidMap|)
  }

  ghost predicate Slots(s: State, g: Hist)
    requires Shape(s, g)
  {
    && (forall i | 0 <= i < |g.slots| :: SlotOk(s, g, i))
    && (forall t | 0 <= t < |s.pcs| :: RunnerOk(s, g, t, s.pcs[t]))
  }

  // A guarded old head is the head or on its way to the retired list, and nobody may free it.

  predicate GuardOk(s: State, g: Hist, oh: Ptr, seen: nat) {
    && oh in g.role
    && (g.role[oh].Queued? ==> g.role[oh].k == g.h == seen)
    && (g.role[oh].Owned? ==> g.role[oh].t < |s.pcs| && s.pcs[g.role[oh].t].Run?)
  }

  ghost predicate Guards(s: State, g: Hist)
    requires Shape(s, g)
  {
    forall t | 0 <= t < |s.pcs| && Guarded(s.pcs[t]).Addr? :: GuardOk(s, g, Guarded(s.pcs[t]).a, g.notes[t].seen)
  }

  ghost predicate Spared(s: State) {
    forall t, u | 0 <= t < |s.pcs| && 0 <= u < |s.pcs| && Guarded(s.pcs[t]).Addr? ::
      !Condemns(s.pcs[u], Guarded(s.pcs[t]).a, s.pcs[t].tid)
  }

  predicate NextOk(g: Hist, nh: Ptr, seen: nat) {
    && nh != NULL && nh != POISON
    && (seen == g.h ==> g.h + 1 < |g.nodes| && nh == g.nodes[g.h + 1] && g.h !in g.gap)
  }

  ghost predicate Nexts(s: State, g: Hist)
    requires Shape(s, g)
  {
    forall t | 0 <= t < |s.pcs| && s.pcs[t].Run? && s.pcs[t].op.CasHead? ::
      NextOk(g, s.pcs[t].op.nh, g.notes[t].seen)
  }

  /** Only a thread about to free a node has poisoned it. */
  predicate PoisonOk(s: State, g: Hist, a: Ptr)
    requires a in s.heap
  {
    s.heap[a].next == POISON ==>
      a in g.role && g.role[a].Owned? && g.role[a].t < |s.pcs| && IsSfFree(s.pcs[g.role[a].t])
  }

  ghost predicate Poisons(s: State, g: Hist) {
    forall a | a in s.heap :: PoisonOk(s, g, a)
  }

  // Winners of the head CAS, the nodes they have to read, and the values they return.

  predicate WaitOk(s: State, g: Hist, a: Ptr, v: Val) {
    && a in s.heap && a in g.role && s.heap[a].data == v && !s.heap[a].canFree
    && (g.role[a].Queued? ==> g.role[a].k == g.h)
    && (g.role[a].Owned? ==> g.role[a].t < |s.pcs| && s.pcs[g.role[a].t].Run?)
  }

  predicate PendingOk(s: State, g: Hist, t: nat, pc: Pc, claim: nat)
    requires Shape(s, g)
  {
    Pending(pc).Addr? ==>
      && Pending(pc).a in g.waiting && g.waiting[Pending(pc).a] == t
      && claim < |g.vals| && WaitOk(s, g, Pending(pc).a, g.vals[claim])
  }

  ghost predicate Waits(s: State, g: Hist)
    requires Shape(s, g)
  {
    && (forall t | 0 <= t < |s.pcs| :: PendingOk(s, g, t, s.pcs[t], g.notes[t].claim))
    && (forall a | a in g.waiting :: g.waiting[a] < |s.pcs| && Pending(s.pcs[g.waiting[a]]) == Addr(a))
  }

  predicate DoomOk(s: State, pc: Pc) {
    Doomed(pc).Addr? ==> Doomed(pc).a in s.heap && s.heap[Doomed(pc).a].canFree
  }

  ghost predicate Dooms(s: State) {
    forall t | 0 <= t < |s.pcs| :: DoomOk(s, s.pcs[t])
  }

  /** A node that is not can_free is unread, private, or taken by a thread that will set can_free. */
  predicate MarkOk(s: State, g: Hist, a: Ptr) {
    || a in g.waiting
    || (a in g.role && g.role[a].Queued? && g.role[a].k > g.h)
    || (a in g.role && g.role[a].Owned? && g.role[a].t < |s.pcs| && !s.pcs[g.role[a].t].Run?)
  }

  ghost predicate Marks(s: State, g: Hist) {
    forall a | a in s.heap && !s.heap[a].canFree :: MarkOk(s, g, a)
  }

  predicate ClaimOk(g: Hist, t: nat, pc: Pc, claim: nat) {
    Claiming(pc) ==> claim in g.claimant && g.claimant[claim] == t
  }

  predicate ClaimantOk(s: State, g: Hist, c: nat)
    requires Shape(s, g) && c in g.claimant
  {
    && 1 <= c <= g.h && c !in g.got && g.claimant[c] < |s.pcs|
    && Claiming(s.pcs[g.claimant[c]]) && g.notes[g.claimant[c]].claim == c
  }

  ghost predicate Claimants(s: State, g: Hist)
    requires Shape(s, g)
  {
    && (forall t | 0 <= t < |s.pcs| :: ClaimOk(g, t, s.pcs[t], g.notes[t].claim))
    && (forall c | c in g.claimant :: ClaimantOk(s, g, c))
  }

  predicate ResultOk(g: Hist, pc: Pc, claim: nat) {
    Result(pc).Addr? ==> claim < |g.vals| && Result(pc).a == g.vals[claim]
  }

  ghost predicate Results(s: State, g: Hist)
    requires Shape(s, g)
  {
    && (forall t | 0 <= t < |s.pcs| :: ResultOk(g, s.pcs[t], g.notes[t].claim))
    && (forall c | c in g.got :: 1 <= c <= g.h && g.got[c] == g.vals[c])
    && (forall c {:trigger c in g.got} | 1 <= c <= g.h :: c in g.got || c in g.claimant)
  }

  // Each failed attempt is paid for by another thread's successful CAS.

  predicate RaceOk(g: Hist, n: Note, pc: Pc) {
    && (pc.Run? ==> n.fails <= n.rivals)
    && (Looping(pc) ==> n.seen <= g.h && n.seen < |g.nodes| && g.nodes[n.seen] == SeenHead(pc)
                        && n.fails + (g.h - n.seen) <= n.rivals)
  }

  ghost predicate Races(s: State, g: Hist)
    requires Shape(s, g)
  {
    forall t | 0 <= t < |s.pcs| :: RaceOk(g, g.notes[t], s.pcs[t])
  }
}
