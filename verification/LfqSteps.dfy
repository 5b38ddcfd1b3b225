/**
 Every event of every thread keeps every part of the invariant.  Each lemma here takes one part,
 an arbitrary event that is legal in the state, and what it needs to know about the program counter
 the thread moves to.
 */
module LfqSteps {
  import opened LfqModel
  import opened LfqHistory
  import opened LfqInvariant

  predicate Mine(g: Hist, a: Ptr, t: nat) {
    a in g.role && g.role[a] == Owned(t)
  }

  /** What the invariant makes of an event that thread t is about to perform. */
  predicate Legal(s: State, g: Hist, t: nat, e: Event)
    requires Shape(s, g) && t < |s.pcs|
  {
    match e
    case Alloc(a) => 0 < a && a !in s.heap
    case WriteData(a, _) => Mine(g, a, t) && a in s.heap && s.heap[a].next == NULL && !s.heap[a].canFree
    case XchgTail(a, d) => Mine(g, a, t) && a in s.heap && s.heap[a] == Node(d, NULL, false)
    case Link(ot, a) =>
      && LinkerOk(g, t, ot)
      && g.h <= g.role[ot].k < |g.nodes| - 1 && g.nodes[g.role[ot].k] == ot && g.nodes[g.role[ot].k + 1] == a
    case TakeSlot(i) => i < |g.slots| && g.slots[i] == -1
    case Hazard(i, _) => i < |g.slots| && g.slots[i] == t
    case Win(oh, nh) =>
      && g.h + 1 < |g.nodes| && oh == g.nodes[g.h] && nh == g.nodes[g.h + 1] && g.h !in g.gap
      && g.notes[t].seen == g.h
    case Mark(a) => a in g.waiting && g.waiting[a] == t && a in s.heap
    case Acquire => g.lock < 0
    case Unlock => g.lock == t
    case Poison(a) => Mine(g, a, t) && a in s.heap
    case Reset(a) => Mine(g, a, t) && a in s.heap
    case FreeNode(a) => Mine(g, a, t) && a in s.heap && s.heap[a].canFree
    case XchgPool(a) => Mine(g, a, t) && a in s.heap && s.heap[a].next == NULL
    case PoolLink(ot, a) =>
      && PoolLinkerOk(g, t, ot)
      && g.f <= g.role[ot].k < |g.pool| - 1 && g.pool[g.role[ot].k] == ot && g.pool[g.role[ot].k + 1] == a
    case Unpool(a, q) => g.lock == t && g.f < |g.pool| - 1 && a == g.pool[g.f] && q == g.pool[g.f + 1] && g.f !in g.pgap
    case Leave(i, _) => i < |g.slots| && g.slots[i] == t
    case _ => true
  }

  predicate Trans(s: State, g: Hist, t: nat, e: Event, pc: Pc, s': State, g': Hist) {
    && Shape(s, g) && t < |s.pcs| && Legal(s, g, t, e)
    && s' == After(s, t, e, pc) && g' == Record(g, t, e)
  }

  /** The event is legal; it moves thread t to pc and the nodes to their new places. */
  predicate Moves(s: State, g: Hist, t: nat, e: Event, pc: Pc, s': State, g': Hist) {
    && Shape(s, g) && t < |s.pcs| && Legal(s, g, t, e)
    && s'.pcs == s.pcs[t := pc] && g'.role == RoleAfter(g, t, e)
  }

  /** The same with the heap. */
  predicate Acts(s: State, g: Hist, t: nat, e: Event, pc: Pc, s': State, g': Hist) {
    Moves(s, g, t, e, pc, s', g') && s'.heap == HeapAfter(s.heap, e)
  }

  /** What the event adds to the lists, and how far their fronts are. */
  predicate Grown(g: Hist, e: Event, g': Hist) {
    && g'.nodes == (if e.XchgTail? then g.nodes + [e.a] else g.nodes)
    && g'.vals == (if e.XchgTail? then g.vals + [e.d] else g.vals)
    && g'.h == (if e.Win? then g.h + 1 else g.h)
    && g'.pool == (if e.XchgPool? then g.pool + [e.a] else g.pool)
    && g'.f == (if e.Unpool? then g.f + 1 else g.f)
  }

  /** What the event does to head, tail, fph and fpt. */
  predicate Ended(s: State, e: Event, s': State) {
    && s'.head == (if e.Win? then e.nh else s.head) && s'.tail == (if e.XchgTail? then e.a else s.tail)
    && s'.fph == (if e.Unpool? then e.q else s.fph) && s'.fpt == (if e.XchgPool? then e.a else s.fpt)
  }

  // ---- Places ----

  lemma KeepShape(s: State, g: Hist, t: nat, e: Event, pc: Pc, s': State, g': Hist)
    requires Trans(s, g, t, e, pc, s', g')
    ensures Shape(s', g')
  {
  }

  lemma KeepRoleKeys(s: State, g: Hist, t: nat, e: Event, pc: Pc, s': State, g': Hist)
    requires Acts(s, g, t, e, pc, s', g')
    requires RoleKeys(s, g) && QueuePlaces(g) && PoolPlaces(g)
    ensures RoleKeys(s', g')
  {
  }

  lemma KeepQueuePlaces(s: State, g: Hist, t: nat, e: Event, pc: Pc, s': State, g': Hist)
    requires Moves(s, g, t, e, pc, s', g') && Grown(g, e, g')
    requires RoleKeys(s, g) && QueuePlaces(g) && PoolPlaces(g)
    ensures QueuePlaces(g')
  {
  }

  lemma KeepPoolPlaces(s: State, g: Hist, t: nat, e: Event, pc: Pc, s': State, g': Hist)
    requires Moves(s, g, t, e, pc, s', g') && Grown(g, e, g')
    requires RoleKeys(s, g) && QueuePlaces(g) && PoolPlaces(g)
    ensures PoolPlaces(g')
  {
  }

  /** How the node that a thread owns changes at an event of its own. */
  predicate OwnStep(e: Event, from: Access, to: Access) {
    match e
    case Alloc(a) => from == Nothing && to == Addr(a)
    case Win(oh, _) => from == Nothing && to == Addr(oh)
    case Unpool(a, _) => from == Nothing && to == Addr(a)
    case XchgTail(a, _) => from == Addr(a) && to == Nothing
    case XchgPool(a) => from == Addr(a) && to == Nothing
    case FreeNode(a) => from == Addr(a) && to == Nothing
    case _ => from == to
  }

  lemma KeepOwners(s: State, g: Hist, t: nat, e: Event, pc: Pc, s': State, g': Hist)
    requires Moves(s, g, t, e, pc, s', g')
    requires RoleKeys(s, g) && QueuePlaces(g) && PoolPlaces(g) && Owners(s, g)
    requires OwnStep(e, Owns(s.pcs[t]), Owns(pc))
    ensures Owners(s', g')
  {
    hide Owns;
  }

  lemma KeepInPlace(s: State, g: Hist, t: nat, e: Event, pc: Pc, s': State, g': Hist, a: Ptr)
    requires t < |s.pcs| && s'.pcs == s.pcs[t := pc] && g'.role == RoleAfter(g, t, e) && Grown(g, e, g')
    requires g.h < |g.nodes| && (e.Win? ==> e.oh == g.nodes[g.h])
    requires g.f < |g.pool| && (e.Unpool? ==> e.a == g.pool[g.f])
    requires a in g'.role && (a in g.role ==> InPlace(s, g, a, g.role[a]))
    requires OwnStep(e, Owns(s.pcs[t]), Owns(pc))
    ensures InPlace(s', g', a, g'.role[a])
  {
    hide Owns;
  }

  lemma KeepRolesTrue(s: State, g: Hist, t: nat, e: Event, pc: Pc, s': State, g': Hist)
    requires Trans(s, g, t, e, pc, s', g')
    requires RolesTrue(s, g)
    requires OwnStep(e, Owns(s.pcs[t]), Owns(pc))
    ensures RolesTrue(s', g')
  {
    forall a | a in g'.role ensures InPlace(s', g', a, g'.role[a]) {
      KeepInPlace(s, g, t, e, pc, s', g', a);
    }
  }

  /** The first node of each list is where it should be. */
  predicate EndsPlaced(g: Hist) {
    && g.h < |g.nodes| && g.nodes[g.h] in g.role && g.role[g.nodes[g.h]] == Queued(g.h)
    && g.f < |g.pool| && g.pool[g.f] in g.role && g.role[g.pool[g.f]] == Pooled(g.f)
  }

  // ---- The queue ----

  lemma KeepQueueEnds(s: State, g: Hist, t: nat, e: Event, pc: Pc, s': State, g': Hist)
    requires Shape(s, g) && t < |s.pcs| && Legal(s, g, t, e) && s'.heap == HeapAfter(s.heap, e) && Grown(g, e, g')
    requires Ended(s, e, s') && Shape(s', g') && QueueEnds(s, g)
    requires g.nodes[|g.nodes| - 1] in g.role && g.role[g.nodes[|g.nodes| - 1]] == Queued(|g.nodes| - 1)
    ensures Shape(s', g') && QueueEnds(s', g')
  {
  }

  lemma KeepLinked(s: State, g: Hist, t: nat, e: Event, pc: Pc, s': State, g': Hist, k: nat)
    requires Shape(s, g) && t < |s.pcs| && Legal(s, g, t, e) && s'.heap == HeapAfter(s.heap, e) && Grown(g, e, g')
    requires g'.gap == GapAfter(g, t, e) && QueueEnds(s, g)
    requires g'.h <= k < |g'.nodes| - 1
    requires k < |g.nodes| && g.nodes[k] in g.role && g.role[g.nodes[k]] == Queued(k)
    requires k < |g.nodes| - 1 ==> Linked(s.heap, g.nodes, g.gap, k)
    ensures Linked(s'.heap, g'.nodes, g'.gap, k)
  {
  }

  lemma KeepQueueLinks(s: State, g: Hist, t: nat, e: Event, pc: Pc, s': State, g': Hist)
    requires Trans(s, g, t, e, pc, s', g')
    requires QueuePlaces(g) && QueueEnds(s, g) && QueueLinks(s, g)
    ensures QueueLinks(s', g')
  {
    assert g.h <= g'.h && |g'.nodes| <= |g.nodes| + 1;
    forall k: nat | g'.h <= k < |g'.nodes| - 1 ensures Linked(s'.heap, g'.nodes, g'.gap, k) {
      KeepLinked(s, g, t, e, pc, s', g', k);
    }
  }

  lemma KeepGap(s: State, g: Hist, t: nat, e: Event, pc: Pc, s': State, g': Hist, k: nat)
    requires Shape(s, g) && t < |s.pcs| && Legal(s, g, t, e) && Grown(g, e, g') && g'.gap == GapAfter(g, t, e)
    requires s'.pcs == s.pcs[t := pc]
    requires QueueEnds(s, g) && k in g'.gap && (k in g.gap ==> GapOk(s, g, k, g.gap[k]))
    requires k in g.gap ==> k < |g.nodes| && g.nodes[k] in g.role && g.role[g.nodes[k]] == Queued(k)
    requires e.XchgTail? ==> pc == EnqLink(s.tail, e.a)
    requires s.pcs[t].EnqLink? ==> e == Link(s.pcs[t].ot, s.pcs[t].a)
    ensures GapOk(s', g', k, g'.gap[k])
  {
  }

  lemma KeepGaps(s: State, g: Hist, t: nat, e: Event, pc: Pc, s': State, g': Hist)
    requires Trans(s, g, t, e, pc, s', g')
    requires QueuePlaces(g) && QueueEnds(s, g) && Gaps(s, g)
    requires e.XchgTail? ==> pc == EnqLink(s.tail, e.a)
    requires s.pcs[t].EnqLink? ==> e == Link(s.pcs[t].ot, s.pcs[t].a)
    ensures Gaps(s', g')
  {
    forall k | k in g'.gap ensures GapOk(s', g', k, g'.gap[k]) {
      KeepGap(s, g, t, e, pc, s', g', k);
    }
  }

  lemma LinkerStable(s: State, g: Hist, t: nat, e: Event, u: nat, ot: Ptr)
    requires Shape(s, g) && t < |s.pcs| && Legal(s, g, t, e)
    requires LinkerOk(g, u, ot) && ot in s.heap && (u == t ==> !e.Link?)
    requires g.role[ot].k < |g.nodes| - 1
    requires EndsPlaced(g)
    ensures LinkerOk(Record(g, t, e), u, ot)
  {
  }

  lemma KeepLinkers(s: State, g: Hist, t: nat, e: Event, pc: Pc, s': State, g': Hist)
    requires Trans(s, g, t, e, pc, s', g')
    requires RoleKeys(s, g) && QueuePlaces(g) && PoolPlaces(g) && QueueEnds(s, g) && Gaps(s, g) && Linkers(s, g)
    requires pc.EnqLink? ==> e.XchgTail? && pc.ot == s.tail
    ensures Linkers(s', g')
  {
    forall u: nat | u < |s'.pcs| && s'.pcs[u].EnqLink? ensures LinkerOk(g', u, s'.pcs[u].ot) {
      if u != t { LinkerStable(s, g, t, e, u, s.pcs[u].ot); }
    }
  }

  lemma KeepUnreadAt(s: State, g: Hist, t: nat, e: Event, pc: Pc, s': State, g': Hist, k: nat)
    requires Shape(s, g) && t < |s.pcs| && Legal(s, g, t, e) && s'.heap == HeapAfter(s.heap, e) && Grown(g, e, g')
    requires Shape(s', g')
    requires g'.h < k < |g'.nodes|
    requires k < |g.nodes| ==> UnreadAt(s, g, k) && g.nodes[k] in g.role && g.role[g.nodes[k]] == Queued(k)
    requires e.Mark? && e.a in g.role && g.role[e.a].Queued? ==> g.role[e.a].k <= g.h
    ensures UnreadAt(s', g', k)
  {
  }

  lemma KeepUnread(s: State, g: Hist, t: nat, e: Event, pc: Pc, s': State, g': Hist)
    requires Trans(s, g, t, e, pc, s', g')
    requires QueuePlaces(g) && Unread(s, g)
    requires e.Mark? && e.a in g.role && g.role[e.a].Queued? ==> g.role[e.a].k <= g.h
    ensures Shape(s', g') && Unread(s', g')
  {
    KeepShape(s, g, t, e, pc, s', g');
    assert g.h <= g'.h;
    forall k: nat | g'.h < k < |g'.nodes| ensures UnreadAt(s', g', k) {
      KeepUnreadAt(s, g, t, e, pc, s', g', k);
    }
  }

  lemma KeepPrivates(s: State, g: Hist, t: nat, e: Event, pc: Pc, s': State, g': Hist)
    requires Acts(s, g, t, e, pc, s', g')
    requires RoleKeys(s, g) && QueuePlaces(g) && PoolPlaces(g) && Owners(s, g) && Privates(s)
    requires pc.EnqData? ==> e == Alloc(pc.a)
    requires pc.EnqXchg? ==> e == WriteData(pc.a, pc.d)
    requires e.Mark? && e.a in g.role && g.role[e.a].Owned? ==> g.role[e.a].t < |s.pcs| && s.pcs[g.role[e.a].t].Run?
    ensures Privates(s')
  {
  }

  // ---- The retired list ----

  lemma KeepPoolEnds(s: State, g: Hist, t: nat, e: Event, pc: Pc, s': State, g': Hist)
    requires Shape(s, g) && t < |s.pcs| && Legal(s, g, t, e) && s'.heap == HeapAfter(s.heap, e) && Grown(g, e, g')
    requires Ended(s, e, s') && Shape(s', g') && PoolEnds(s, g)
    requires g.pool[|g.pool| - 1] in g.role && g.role[g.pool[|g.pool| - 1]] == Pooled(|g.pool| - 1)
    ensures Shape(s', g') && PoolEnds(s', g')
  {
    match e
    case XchgPool(_) =>
    case PoolLink(_, _) =>
    case Unpool(_, _) =>
    case _ =>
  }

  lemma KeepPoolLinked(s: State, g: Hist, t: nat, e: Event, pc: Pc, s': State, g': Hist, k: nat)
    requires Shape(s, g) && t < |s.pcs| && Legal(s, g, t, e) && s'.heap == HeapAfter(s.heap, e) && Grown(g, e, g')
    requires g'.pgap == PoolGapAfter(g, t, e) && PoolEnds(s, g)
    requires g'.f <= k < |g'.pool| - 1
    requires k < |g.pool| && g.pool[k] in g.role && g.role[g.pool[k]] == Pooled(k)
    requires k < |g.pool| - 1 ==> Linked(s.heap, g.pool, g.pgap, k)
    ensures Linked(s'.heap, g'.pool, g'.pgap, k)
  {
  }

  lemma KeepPoolLinks(s: State, g: Hist, t: nat, e: Event, pc: Pc, s': State, g': Hist)
    requires Trans(s, g, t, e, pc, s', g')
    requires PoolPlaces(g) && PoolEnds(s, g) && PoolLinks(s, g)
    ensures PoolLinks(s', g')
  {
    assert g.f <= g'.f && |g'.pool| <= |g.pool| + 1;
    forall k: nat | g'.f <= k < |g'.pool| - 1 ensures Linked(s'.heap, g'.pool, g'.pgap, k) {
      KeepPoolLinked(s, g, t, e, pc, s', g', k);
    }
  }

  lemma KeepPoolGap(s: State, g: Hist, t: nat, e: Event, pc: Pc, s': State, g': Hist, k: nat)
    requires Shape(s, g) && t < |s.pcs| && Legal(s, g, t, e) && Grown(g, e, g') && g'.pgap == PoolGapAfter(g, t, e)
    requires s'.pcs == s.pcs[t := pc]
    requires PoolEnds(s, g) && k in g'.pgap && (k in g.pgap ==> PoolGapOk(s, g, k, g.pgap[k]))
    requires k in g.pgap ==> k < |g.pool| && g.pool[k] in g.role && g.role[g.pool[k]] == Pooled(k)
    requires e.XchgPool? ==> EpLinking(pc, s.fpt, e.a)
    requires IsEpLink(s.pcs[t]) ==> e == PoolLink(s.pcs[t].op.f.ot, s.pcs[t].op.f.x)
    ensures PoolGapOk(s', g', k, g'.pgap[k])
  {
  }

  lemma KeepPoolGaps(s: State, g: Hist, t: nat, e: Event, pc: Pc, s': State, g': Hist)
    requires Trans(s, g, t, e, pc, s', g')
    requires PoolPlaces(g) && PoolEnds(s, g) && PoolGaps(s, g)
    requires e.XchgPool? ==> EpLinking(pc, s.fpt, e.a)
    requires IsEpLink(s.pcs[t]) ==> e == PoolLink(s.pcs[t].op.f.ot, s.pcs[t].op.f.x)
    ensures PoolGaps(s', g')
  {
    forall k | k in g'.pgap ensures PoolGapOk(s', g', k, g'.pgap[k]) {
      KeepPoolGap(s, g, t, e, pc, s', g', k);
    }
  }

  lemma PoolLinkerStable(s: State, g: Hist, t: nat, e: Event, u: nat, ot: Ptr)
    requires Shape(s, g) && t < |s.pcs| && Legal(s, g, t, e)
    requires PoolLinkerOk(g, u, ot) && ot in s.heap && (u == t ==> !e.PoolLink?)
    requires g.role[ot].k < |g.pool| - 1
    requires EndsPlaced(g)
    ensures PoolLinkerOk(Record(g, t, e), u, ot)
  {
  }

  lemma KeepPoolLinkers(s: State, g: Hist, t: nat, e: Event, pc: Pc, s': State, g': Hist)
    requires Trans(s, g, t, e, pc, s', g')
    requires RoleKeys(s, g) && QueuePlaces(g) && PoolPlaces(g) && PoolEnds(s, g) && PoolGaps(s, g) && PoolLinkers(s, g)
    requires IsEpLink(pc) ==> e.XchgPool? && pc.op.f.ot == s.fpt
    ensures PoolLinkers(s', g')
  {
    forall u: nat | u < |s'.pcs| && IsEpLink(s'.pcs[u]) ensures PoolLinkerOk(g', u, s'.pcs[u].op.f.ot) {
      if u != t { PoolLinkerStable(s, g, t, e, u, s.pcs[u].op.f.ot); }
    }
  }

  predicate RetireStep(e: Event, from: Pc, to: Pc) {
    && (IsEpXchg(to) ==> e == Reset(to.op.f.x))
    && (Removed(to).Addr? ==>
          || (e.Win? && Removed(to) == Addr(e.oh))
          || (Removed(from) == Removed(to) && !e.FreeNode? && !e.Reset? && !e.Poison?))
    && (Removed(from).Addr? ==> Owns(from) == Removed(from))
    && (IsEpXchg(from) ==> Owns(from) == Addr(from.op.f.x))
  }

  lemma KeepRetiree(s: State, g: Hist, t: nat, e: Event, pc: Pc, s': State, g': Hist, u: nat)
    requires Acts(s, g, t, e, pc, s', g') && u < |s.pcs| && RetireeOk(s, s.pcs[u])
    requires Owns(s.pcs[u]).Addr? ==> Mine(g, Owns(s.pcs[u]).a, u)
    requires Removed(s.pcs[u]).Addr? ==> Owns(s.pcs[u]) == Removed(s.pcs[u])
    requires IsEpXchg(s.pcs[u]) ==> Owns(s.pcs[u]) == Addr(s.pcs[u].op.f.x)
    requires RetireStep(e, s.pcs[t], pc)
    requires e.Win? ==> e.oh in s.heap && s.heap[e.oh].next != NULL
    requires e.Link? || e.PoolLink? ==> e.a != NULL
    ensures RetireeOk(s', s'.pcs[u])
  {
  }

  lemma KeepRetirees(s: State, g: Hist, t: nat, e: Event, pc: Pc, s': State, g': Hist)
    requires Trans(s, g, t, e, pc, s', g')
    requires RoleKeys(s, g) && QueuePlaces(g) && PoolPlaces(g) && Owners(s, g) && QueueLinks(s, g) && Retirees(s)
    requires RetireStep(e, s.pcs[t], pc)
    ensures Retirees(s')
  {
    if e.Win? { assert Linked(s.heap, g.nodes, g.gap, g.h) && g.nodes[g.h + 1] in g.role; }
    forall u: nat | u < |s'.pcs| ensures RetireeOk(s', s'.pcs[u]) {
      KeepRetiree(s, g, t, e, pc, s', g', u);
    }
  }

  /** How a pool head under inspection may change hands at an event of its own thread. */
  predicate FrontStep(s: State, g: Hist, e: Event, from: Pc, to: Pc)
    requires Shape(s, g)
  {
    && (Front(to).Addr? ==> e == Silent && (Front(from) == Front(to) || Front(to).a == s.fph))
    && (FrontLinked(to).Addr? ==> FrontLinked(from).Addr? || (g.f < |g.pool| - 1 && g.f !in g.pgap))
    && (IsFpStore(to) ==> g.f < |g.pool| - 1 && to.op.f.q == g.pool[g.f + 1])
  }

  lemma FrontStable(s: State, g: Hist, t: nat, e: Event, pc: Pc)
    requires Shape(s, g) && t < |s.pcs| && Legal(s, g, t, e)
    requires FrontOk(g, pc) && (Front(pc).Addr? ==> !e.Unpool?)
    ensures var g' := Record(g, t, e); g'.f < |g'.pool| && FrontOk(g', pc)
  {
  }

  lemma KeepFronts(s: State, g: Hist, t: nat, e: Event, pc: Pc, s': State, g': Hist)
    requires Trans(s, g, t, e, pc, s', g')
    requires PoolEnds(s, g) && Lock(s, g) && Fronts(s, g)
    requires FrontStep(s, g, e, s.pcs[t], pc)
    ensures Shape(s', g') && Fronts(s', g')
  {
    KeepShape(s, g, t, e, pc, s', g');
    forall u: nat | u < |s'.pcs| ensures FrontOk(g', s'.pcs[u]) {
      assert InCrit(s.pcs[u]) <==> g.lock == u;
      if u != t { FrontStable(s, g, t, e, s.pcs[u]); }
    }
  }

  // ---- The lock and the slots ----

  lemma KeepLock(s: State, g: Hist, t: nat, e: Event, pc: Pc, s': State, g': Hist)
    requires Trans(s, g, t, e, pc, s', g') && Lock(s, g)
    requires InCrit(pc) <==> e.Acquire? || (InCrit(s.pcs[t]) && !e.Unlock?)
    ensures Lock(s', g')
  {
  }

  /** How the slot of a thread changes at an event of its own ... */
  predicate SlotMove(s: State, e: Event, from: Pc, to: Pc) {
    && (to.Run? ==> e == TakeSlot(to.tid) || (from.Run? && from.tid == to.tid && !e.TakeSlot? && !e.Leave?))
    && (from.Run? && !to.Run? ==> e.Leave? && e.i == from.tid)
    && (e.TakeSlot? ==> to.Run? && !from.Run?)
    && (e.Leave? ==> from.Run? && e.i == from.tid && !to.Run?)
    && (to.TidCas? ==> to.i < |s.tidMap|)
  }

  /** ... and what it knows about its hazard pointer. */
  predicate HazardMove(e: Event, from: Pc, to: Pc) {
    && (e.Leave? ==> from.Run? && HpKnown(from.op) == Addr(NULL))
    && (e.Hazard? ==> from.Run? && e.i == from.tid)
    && (to.Run? && HpKnown(to.op).Addr? ==>
          if e.Hazard? then HpKnown(to.op).a == e.a else from.Run? && HpKnown(to.op) == HpKnown(from.op))
  }

  predicate SlotStep(s: State, e: Event, from: Pc, to: Pc) {
    SlotMove(s, e, from, to) && HazardMove(e, from, to)
  }

  /** The registers of the consumer slots after an event. */
  predicate Registers(s: State, g: Hist, t: nat, e: Event, pc: Pc, s': State, g': Hist)
    requires Shape(s, g)
  {
    && t < |s.pcs| && s'.pcs == s.pcs[t := pc]
    && (e.TakeSlot? || e.Hazard? || e.Leave? ==> e.i < |s.hp| && g.slots[e.i] == if e.TakeSlot? then -1 else t)
    && s'.tidMap == (if e.TakeSlot? then s.tidMap[e.i := true]
                     else if e.Leave? then s.tidMap[e.i := false] else s.tidMap)
    && s'.hp == (if e.Hazard? then s.hp[e.i := e.a] else s.hp)
    && g'.slots == (if e.TakeSlot? then g.slots[e.i := t] else if e.Leave? then g.slots[e.i := -1] else g.slots)
  }

  lemma KeepSlot(s: State, g: Hist, t: nat, e: Event, pc: Pc, s': State, g': Hist, i: nat)
    requires Shape(s, g) && Shape(s', g') && Registers(s, g, t, e, pc, s', g')
    requires i < |g.slots| && SlotOk(s, g, i) && RunnerOk(s, g, t, s.pcs[t])
    requires SlotStep(s, e, s.pcs[t], pc)
    ensures SlotOk(s', g', i)
  {
  }

  lemma KeepRunner(s: State, g: Hist, t: nat, e: Event, pc: Pc, s': State, g': Hist, u: nat)
    requires Shape(s, g) && Shape(s', g') && Registers(s, g, t, e, pc, s', g')
    requires u < |s.pcs| && RunnerOk(s, g, u, s.pcs[u]) && RunnerOk(s, g, t, s.pcs[t])
    requires SlotStep(s, e, s.pcs[t], pc)
    ensures RunnerOk(s', g', u, s'.pcs[u])
  {
  }

  lemma KeepSlots(s: State, g: Hist, t: nat, e: Event, pc: Pc, s': State, g': Hist)
    requires Trans(s, g, t, e, pc, s', g') && Slots(s, g)
    requires SlotStep(s, e, s.pcs[t], pc)
    ensures Shape(s', g') && Slots(s', g')
  {
    KeepShape(s, g, t, e, pc, s', g');
    forall i: nat | i < |g'.slots| ensures SlotOk(s', g', i) {
      KeepSlot(s, g, t, e, pc, s', g', i);
    }
    forall u: nat | u < |s'.pcs| ensures RunnerOk(s', g', u, s'.pcs[u]) {
      KeepRunner(s, g, t, e, pc, s', g', u);
    }
  }

  // ---- Hazard pointers ----

  predicate GuardStep(s: State, e: Event, from: Pc, to: Pc) {
    && (Guarded(to).Addr? ==>
          (e == Recheck(true) && Guarded(to).a == s.head) || (e == Silent && Guarded(from) == Guarded(to)))
    && (e.XchgTail? || e.WriteData? ==> !from.Run?)
    && (e.Win? || e.Unpool? ==> to.Run?)
    && (Owns(from).Addr? && from.Run? ==> to.Run?)
  }

  lemma GuardStable(s: State, g: Hist, t: nat, e: Event, pc: Pc, s': State, g': Hist, oh: Ptr, seen: nat)
    requires t < |s.pcs| && s'.pcs == s.pcs[t := pc] && g'.role == RoleAfter(g, t, e)
    requires g.h < |g.nodes| && g'.h == (if e.Win? then g.h + 1 else g.h)
    requires (e.Win? ==> e.oh == g.nodes[g.h]) && (e.XchgTail? ==> Mine(g, e.a, t))
    requires GuardOk(s, g, oh, seen) && InPlace(s, g, oh, g.role[oh])
    requires GuardStep(s, e, s.pcs[t], pc) && (e.FreeNode? ==> e.a != oh)
    requires e.Alloc? ==> e.a != oh
    ensures GuardOk(s', g', oh, seen)
  {
  }

  lemma KeepGuard(s: State, g: Hist, t: nat, e: Event, pc: Pc, s': State, g': Hist, u: nat)
    requires Shape(s, g) && t < |s.pcs| && s'.pcs == s.pcs[t := pc] && g'.role == RoleAfter(g, t, e)
    requires g'.notes == NotesAfter(g, t, e) && |g'.notes| == |g.notes| && g'.h == (if e.Win? then g.h + 1 else g.h)
    requires (e.Win? ==> e.oh == g.nodes[g.h]) && (e.XchgTail? ==> Mine(g, e.a, t))
    requires s.head == g.nodes[g.h] && s.head in g.role && g.role[s.head] == Queued(g.h)
    requires u < |s.pcs| && Guarded(s'.pcs[u]).Addr? && GuardStep(s, e, s.pcs[t], pc)
    requires Guarded(s.pcs[u]).Addr? ==>
               var oh := Guarded(s.pcs[u]).a;
               && GuardOk(s, g, oh, g.notes[u].seen) && InPlace(s, g, oh, g.role[oh])
               && e != FreeNode(oh) && e != Alloc(oh)
    ensures GuardOk(s', g', Guarded(s'.pcs[u]).a, g'.notes[u].seen)
  {
    if u != t || e == Silent {
      GuardStable(s, g, t, e, pc, s', g', Guarded(s.pcs[u]).a, g.notes[u].seen);
    }
  }

  lemma KeepGuards(s: State, g: Hist, t: nat, e: Event, pc: Pc, s': State, g': Hist)
    requires Trans(s, g, t, e, pc, s', g')
    requires RoleKeys(s, g) && QueuePlaces(g) && RolesTrue(s, g) && QueueEnds(s, g) && Guards(s, g) && Spared(s)
    requires GuardStep(s, e, s.pcs[t], pc)
    requires e.FreeNode? ==> forall i :: Condemns(s.pcs[t], e.a, i)
    ensures Shape(s', g') && Guards(s', g')
  {
    KeepShape(s, g, t, e, pc, s', g');
    forall u: nat | u < |s'.pcs| && Guarded(s'.pcs[u]).Addr?
      ensures GuardOk(s', g', Guarded(s'.pcs[u]).a, g'.notes[u].seen)
    {
      KeepGuard(s, g, t, e, pc, s', g', u);
    }
  }

  /** A thread that gets past slot i saw another value there. */
  ghost predicate CondemnStep(s: State, from: Pc, to: Pc) {
    forall a, i {:trigger Condemns(to, a, i)} | 0 <= i < |s.hp| && Condemns(to, a, i) ::
      Condemns(from, a, i) || s.hp[i] != a
  }

  lemma CondemnedPlace(s: State, g: Hist, v: nat, a: Ptr, i: int)
    requires Shape(s, g) && v < |s.pcs| && Condemns(s.pcs[v], a, i)
    requires Owners(s, g) && PoolPlaces(g) && Fronts(s, g)
    ensures a in g.role && !g.role[a].Queued?
  {
  }

  lemma KeepSpared(s: State, g: Hist, t: nat, e: Event, pc: Pc, s': State, g': Hist)
    requires Trans(s, g, t, e, pc, s', g')
    requires QueuePlaces(g) && QueueEnds(s, g) && Owners(s, g) && PoolPlaces(g) && Fronts(s, g) && Slots(s, g)
    requires Spared(s)
    requires GuardStep(s, e, s.pcs[t], pc) && CondemnStep(s, s.pcs[t], pc)
    requires Guarded(pc).Addr? ==> s.pcs[t].Run? && pc.tid == s.pcs[t].tid
    ensures Spared(s')
  {
    forall u: nat, v: nat | u < |s'.pcs| && v < |s'.pcs| && Guarded(s'.pcs[u]).Addr?
      ensures !Condemns(s'.pcs[v], Guarded(s'.pcs[u]).a, s'.pcs[u].tid)
    {
      var oh, tid := Guarded(s'.pcs[u]).a, s'.pcs[u].tid;
      if u != t {
        assert RunnerOk(s, g, u, s.pcs[u]) && !Condemns(s.pcs[v], oh, tid);
      } else if v != t && Condemns(s.pcs[v], oh, tid) {
        if e == Recheck(true) { CondemnedPlace(s, g, v, oh, tid); }
      }
    }
  }

  /** Only a dequeuer that has just read a non-null next gets to the CAS. */
  predicate NextStep(s: State, e: Event, from: Pc, to: Pc) {
    to.Run? && to.op.CasHead? ==>
      && e == Silent && from == Run(to.tid, ReadNext(to.op.oh))
      && to.op.oh in s.heap && to.op.nh == s.heap[to.op.oh].next && to.op.nh != NULL
  }

  lemma NextStable(s: State, g: Hist, t: nat, e: Event, nh: Ptr, seen: nat)
    requires Shape(s, g) && t < |s.pcs| && Legal(s, g, t, e) && NextOk(g, nh, seen) && seen <= g.h
    ensures NextOk(Record(g, t, e), nh, seen)
  {
  }

  /** The node that a dequeuer guards is not poisoned: the thread that did it would condemn the node. */
  lemma NotPoisoned(s: State, g: Hist, t: nat, oh: Ptr)
    requires t < |s.pcs| && Guarded(s.pcs[t]) == Addr(oh) && oh in s.heap
    requires RolesTrue(s, g) && Spared(s) && Poisons(s, g)
    ensures s.heap[oh].next != POISON
  {
    assert PoisonOk(s, g, oh);
  }

  /** A re-validated dequeuer that reads next reads neither poison nor a free_next. */
  lemma ReadNextOk(s: State, g: Hist, t: nat, oh: Ptr)
    requires Shape(s, g) && t < |s.pcs| && s.pcs[t].Run? && s.pcs[t].op == ReadNext(oh)
    requires RolesTrue(s, g) && QueueEnds(s, g) && QueueLinks(s, g) && Guards(s, g) && Spared(s) && Poisons(s, g)
    requires Races(s, g)
    ensures oh in s.heap ==> s.heap[oh].next == NULL || NextOk(g, s.heap[oh].next, g.notes[t].seen)
  {
    assert RaceOk(g, g.notes[t], s.pcs[t]);
    if oh in s.heap {
      NotPoisoned(s, g, t, oh);
      if g.notes[t].seen == g.h && g.h < |g.nodes| - 1 {
        assert Linked(s.heap, g.nodes, g.gap, g.h);
      }
    }
  }

  lemma KeepNexts(s: State, g: Hist, t: nat, e: Event, pc: Pc, s': State, g': Hist)
    requires Trans(s, g, t, e, pc, s', g')
    requires RolesTrue(s, g) && QueueEnds(s, g) && QueueLinks(s, g) && Guards(s, g) && Spared(s) && Poisons(s, g)
    requires Races(s, g) && Nexts(s, g)
    requires NextStep(s, e, s.pcs[t], pc)
    ensures Shape(s', g') && Nexts(s', g')
  {
    KeepShape(s, g, t, e, pc, s', g');
    forall u: nat | u < |s'.pcs| && s'.pcs[u].Run? && s'.pcs[u].op.CasHead?
      ensures NextOk(g', s'.pcs[u].op.nh, g'.notes[u].seen)
    {
      if u == t {
        ReadNextOk(s, g, t, pc.op.oh);
      } else {
        assert RaceOk(g, g.notes[u], s.pcs[u]);
        NextStable(s, g, t, e, s.pcs[u].op.nh, g.notes[u].seen);
      }
    }
  }

  lemma KeepPoison(s: State, g: Hist, t: nat, e: Event, pc: Pc, s': State, g': Hist, a: Ptr)
    requires Acts(s, g, t, e, pc, s', g') && a in s'.heap
    requires a in s.heap ==> PoisonOk(s, g, a) && a in g.role && InPlace(s, g, a, g.role[a])
    requires EndsPlaced(g) && (e.Link? || e.PoolLink? ==> 0 < e.a)
    requires e.Poison? ==> IsSfFree(pc)
    requires IsSfFree(s.pcs[t]) ==> e.FreeNode? && Owns(s.pcs[t]) == Addr(e.a)
    ensures PoisonOk(s', g', a)
  {
  }

  lemma KeepPoisons(s: State, g: Hist, t: nat, e: Event, pc: Pc, s': State, g': Hist)
    requires Trans(s, g, t, e, pc, s', g')
    requires RoleKeys(s, g) && QueuePlaces(g) && PoolPlaces(g) && RolesTrue(s, g) && Poisons(s, g)
    requires e.Poison? ==> IsSfFree(pc)
    requires IsSfFree(s.pcs[t]) ==> e.FreeNode? && Owns(s.pcs[t]) == Addr(e.a)
    ensures Poisons(s', g')
  {
    assert e.Link? || e.PoolLink? ==> 0 < e.a;
    forall a | a in s'.heap ensures PoisonOk(s', g', a) {
      KeepPoison(s, g, t, e, pc, s', g', a);
    }
  }

  // ---- Claims ----

  predicate PendStep(e: Event, from: Access, to: Access) {
    match e
    case Win(_, nh) => from == Nothing && to == Addr(nh)
    case Mark(a) => from == Addr(a) && to == Nothing
    case TakeSlot(_) => from == Nothing && to == Nothing
    case _ => from == to
  }

  lemma WaitStable(s: State, g: Hist, t: nat, e: Event, pc: Pc, s': State, g': Hist, a: Ptr, v: Val)
    requires t < |s.pcs| && s'.pcs == s.pcs[t := pc] && s'.heap == HeapAfter(s.heap, e)
    requires g'.role == RoleAfter(g, t, e) && g'.h == (if e.Win? then g.h + 1 else g.h)
    requires g.h < |g.nodes| && (e.Win? ==> e.oh == g.nodes[g.h]) && (e.WriteData? || e.XchgTail? ==> Mine(g, e.a, t))
    requires WaitOk(s, g, a, v) && InPlace(s, g, a, g.role[a])
    requires GuardStep(s, e, s.pcs[t], pc) && (e.Mark? ==> e.a != a) && (e.Alloc? || e.FreeNode? ==> e.a != a)
    ensures WaitOk(s', g', a, v)
  {
  }

  /** The new head that a CAS leaves to be read. */
  lemma WonWaits(s: State, g: Hist, t: nat, e: Event, pc: Pc, s': State, g': Hist)
    requires Acts(s, g, t, e, pc, s', g') && Grown(g, e, g') && e.Win?
    requires g.nodes[g.h] in g.role && g.role[g.nodes[g.h]] == Queued(g.h)
    requires UnreadAt(s, g, g.h + 1) && e.nh in g.role && g.role[e.nh] == Queued(g.h + 1)
    ensures WaitOk(s', g', e.nh, g.vals[g.h + 1])
  {
  }

  lemma KeepPending(s: State, g: Hist, t: nat, e: Event, pc: Pc, s': State, g': Hist, u: nat)
    requires Shape(s, g) && Shape(s', g') && t < |s.pcs| && u < |s.pcs| && s'.pcs == s.pcs[t := pc]
    requires Legal(s, g, t, e) && Grown(g, e, g')
    requires g'.notes == NotesAfter(g, t, e) && g'.waiting == WaitingAfter(g, t, e)
    requires e.Win? ==> WaitOk(s', g', e.nh, g.vals[g.h + 1]) && e.nh in g.role && g.role[e.nh] == Queued(g.h + 1)
    requires PendingOk(s, g, u, s.pcs[u], g.notes[u].claim)
    requires Pending(s.pcs[u]).Addr? ==>
               WaitOk(s', g', Pending(s.pcs[u]).a, g.vals[g.notes[u].claim]) || e == Mark(Pending(s.pcs[u]).a)
    requires PendStep(e, Pending(s.pcs[t]), Pending(pc)) && (e.Win? ==> pc.Run?)
    ensures PendingOk(s', g', u, s'.pcs[u], g'.notes[u].claim)
  {
  }

  lemma KeepWaiting(s: State, g: Hist, t: nat, e: Event, pc: Pc, s': State, g': Hist, a: Ptr)
    requires Shape(s, g) && t < |s.pcs| && Legal(s, g, t, e) && s'.pcs == s.pcs[t := pc]
    requires g'.waiting == WaitingAfter(g, t, e) && a in g'.waiting
    requires a in g.waiting ==> g.waiting[a] < |s.pcs| && Pending(s.pcs[g.waiting[a]]) == Addr(a)
    requires PendStep(e, Pending(s.pcs[t]), Pending(pc))
    ensures g'.waiting[a] < |s'.pcs| && Pending(s'.pcs[g'.waiting[a]]) == Addr(a)
  {
  }

  lemma KeepPendings(s: State, g: Hist, t: nat, e: Event, pc: Pc, s': State, g': Hist, u: nat)
    requires Trans(s, g, t, e, pc, s', g') && Shape(s', g') && u < |s.pcs|
    requires RoleKeys(s, g) && QueuePlaces(g) && RolesTrue(s, g) && Unread(s, g)
    requires PendingOk(s, g, u, s.pcs[u], g.notes[u].claim)
    requires GuardStep(s, e, s.pcs[t], pc) && PendStep(e, Pending(s.pcs[t]), Pending(pc))
    ensures PendingOk(s', g', u, s'.pcs[u], g'.notes[u].claim)
  {
    if Pending(s.pcs[u]).Addr? && e != Mark(Pending(s.pcs[u]).a) {
      WaitStable(s, g, t, e, pc, s', g', Pending(s.pcs[u]).a, g.vals[g.notes[u].claim]);
    }
    if e.Win? { WonWaits(s, g, t, e, pc, s', g'); }
    KeepPending(s, g, t, e, pc, s', g', u);
  }

  lemma KeepWaits(s: State, g: Hist, t: nat, e: Event, pc: Pc, s': State, g': Hist)
    requires Trans(s, g, t, e, pc, s', g')
    requires RoleKeys(s, g) && QueuePlaces(g) && RolesTrue(s, g) && Unread(s, g) && Waits(s, g)
    requires GuardStep(s, e, s.pcs[t], pc) && PendStep(e, Pending(s.pcs[t]), Pending(pc))
    ensures Shape(s', g') && Waits(s', g')
  {
    KeepShape(s, g, t, e, pc, s', g');
    forall u: nat | u < |s'.pcs| ensures PendingOk(s', g', u, s'.pcs[u], g'.notes[u].claim) {
      KeepPendings(s, g, t, e, pc, s', g', u);
    }
    forall a | a in g'.waiting ensures g'.waiting[a] < |s'.pcs| && Pending(s'.pcs[g'.waiting[a]]) == Addr(a) {
      KeepWaiting(s, g, t, e, pc, s', g', a);
    }
  }

  predicate DoomStep(s: State, e: Event, from: Pc, to: Pc) {
    Doomed(to).Addr? ==>
      || (Doomed(from) == Doomed(to) && !e.FreeNode?)
      || (e == Silent && Doomed(to).a in s.heap && s.heap[Doomed(to).a].canFree)
  }

  lemma KeepDoom(s: State, t: nat, e: Event, pc: Pc, s': State, u: nat)
    requires t < |s.pcs| && u < |s.pcs| && s'.pcs == s.pcs[t := pc] && s'.heap == HeapAfter(s.heap, e)
    requires DoomOk(s, s.pcs[u]) && (e.Alloc? ==> e.a !in s.heap)
    requires u != t && Doomed(s.pcs[u]).Addr? ==> e != FreeNode(Doomed(s.pcs[u]).a)
    requires DoomStep(s, e, s.pcs[t], pc)
    ensures DoomOk(s', s'.pcs[u])
  {
  }

  /** A node that one thread may free is not freed by another. */
  lemma DoomedElsewhere(s: State, g: Hist, t: nat, a: Ptr, u: nat)
    requires Shape(s, g) && u < |s.pcs| && u != t && Mine(g, a, t)
    requires Owners(s, g) && PoolPlaces(g) && Fronts(s, g)
    ensures Doomed(s.pcs[u]) != Addr(a)
  {
    assert FrontOk(g, s.pcs[u]);
  }

  lemma KeepDooms(s: State, g: Hist, t: nat, e: Event, pc: Pc, s': State, g': Hist)
    requires Trans(s, g, t, e, pc, s', g')
    requires Owners(s, g) && PoolPlaces(g) && Fronts(s, g) && Dooms(s)
    requires DoomStep(s, e, s.pcs[t], pc)
    ensures Dooms(s')
  {
    forall u: nat | u < |s'.pcs| ensures DoomOk(s', s'.pcs[u]) {
      if u != t && e.FreeNode? { DoomedElsewhere(s, g, t, e.a, u); }
      KeepDoom(s, t, e, pc, s', u);
    }
  }

  /** Nobody takes a mark away. */
  lemma MarksStay(heap: map<Ptr, Node>, e: Event, a: Ptr)
    requires a in HeapAfter(heap, e) && !HeapAfter(heap, e)[a].canFree
    ensures e == Alloc(a) || (a in heap && !heap[a].canFree)
    ensures e != FreeNode(a) && e != Mark(a)
  {
  }

  lemma UnreadStays(g: Hist, t: nat, e: Event, g': Hist, a: Ptr, k: nat)
    requires g'.role == RoleAfter(g, t, e) && g'.h == (if e.Win? then g.h + 1 else g.h)
    requires g'.waiting == WaitingAfter(g, t, e)
    requires g.h < k < |g.nodes| && g.nodes[k] == a && a in g.role && g.role[a] == Queued(k)
    requires e.Win? ==> e.oh != a && g.h + 1 < |g.nodes| && e.nh == g.nodes[g.h + 1]
    requires e.Unpool? || e.XchgPool? ==> e.a != a
    requires e != FreeNode(a) && e != Alloc(a) && (e.XchgTail? ==> e.a != a) && e != Mark(a)
    ensures a in g'.waiting || (a in g'.role && g'.role[a].Queued? && g'.role[a].k > g'.h)
  {
  }

  /** What a private node becomes at an event. */
  lemma PrivateStays(s: State, g: Hist, t: nat, e: Event, pc: Pc, s': State, g': Hist, a: Ptr)
    requires Moves(s, g, t, e, pc, s', g') && EndsPlaced(g) && g'.waiting == WaitingAfter(g, t, e) && Grown(g, e, g')
    requires a in g.role && g.role[a].Owned? && g.role[a].t < |s.pcs| && !s.pcs[g.role[a].t].Run?
    requires Owns(s.pcs[g.role[a].t]) == Addr(a) && e != FreeNode(a) && (e.XchgPool? ==> s.pcs[t].Run?)
    requires (e.Alloc? ==> e.a != a) && (!s.pcs[t].Run? && Owns(s.pcs[t]).Addr? ==> !pc.Run?)
    ensures MarkOk(s', g', a)
  {
  }

  lemma KeepMark(s: State, g: Hist, t: nat, e: Event, pc: Pc, s': State, g': Hist, a: Ptr)
    requires Acts(s, g, t, e, pc, s', g') && Grown(g, e, g') && g'.waiting == WaitingAfter(g, t, e)
    requires EndsPlaced(g) && (a in s.heap ==> a in g.role && InPlace(s, g, a, g.role[a]))
    requires a in s.heap && !s.heap[a].canFree ==> MarkOk(s, g, a)
    requires (e.Alloc? ==> !pc.Run?) && (e.XchgPool? ==> s.pcs[t].Run?)
    requires !s.pcs[t].Run? && Owns(s.pcs[t]).Addr? ==> !pc.Run?
    requires a in s'.heap && !s'.heap[a].canFree
    ensures MarkOk(s', g', a)
  {
    MarksStay(s.heap, e, a);
    if e != Alloc(a) && a !in g.waiting {
      if g.role[a].Queued? { UnreadStays(g, t, e, g', a, g.role[a].k); }
      else { PrivateStays(s, g, t, e, pc, s', g', a); }
    }
  }

  lemma KeepMarks(s: State, g: Hist, t: nat, e: Event, pc: Pc, s': State, g': Hist)
    requires Trans(s, g, t, e, pc, s', g')
    requires RoleKeys(s, g) && QueuePlaces(g) && PoolPlaces(g) && RolesTrue(s, g) && Marks(s, g)
    requires (e.Alloc? ==> !pc.Run?) && (e.XchgPool? ==> s.pcs[t].Run?)
    requires !s.pcs[t].Run? && Owns(s.pcs[t]).Addr? ==> !pc.Run?
    ensures Marks(s', g')
  {
    forall a | a in s'.heap && !s'.heap[a].canFree ensures MarkOk(s', g', a) {
      KeepMark(s, g, t, e, pc, s', g', a);
    }
  }

  predicate ClaimStep(e: Event, from: Pc, to: Pc) {
    match e
    case Win(_, _) => !Claiming(from) && Claiming(to)
    case TakeSlot(_) => !Claiming(from) && !Claiming(to)
    case Leave(_, ret) => (Claiming(from) <==> ret.Got?) && !Claiming(to)
    case _ => Claiming(from) == Claiming(to)
  }

  lemma KeepClaim(s: State, g: Hist, t: nat, e: Event, pc: Pc, s': State, g': Hist, u: nat)
    requires Shape(s, g) && Shape(s', g') && t < |s.pcs| && u < |s.pcs| && s'.pcs == s.pcs[t := pc]
    requires g'.notes == NotesAfter(g, t, e) && g'.claimant == ClaimantAfter(g, t, e)
    requires ClaimOk(g, u, s.pcs[u], g.notes[u].claim) && ClaimOk(g, t, s.pcs[t], g.notes[t].claim)
    requires Claiming(s.pcs[u]) ==> g.notes[u].claim <= g.h
    requires ClaimStep(e, s.pcs[t], pc)
    ensures ClaimOk(g', u, s'.pcs[u], g'.notes[u].claim)
  {
  }

  lemma KeepClaimant(s: State, g: Hist, t: nat, e: Event, pc: Pc, s': State, g': Hist, c: nat)
    requires Shape(s, g) && Shape(s', g') && t < |s.pcs| && s'.pcs == s.pcs[t := pc]
    requires g'.notes == NotesAfter(g, t, e) && g'.claimant == ClaimantAfter(g, t, e) && g'.got == GotAfter(g, t, e)
    requires g'.h == (if e.Win? then g.h + 1 else g.h)
    requires ClaimOk(g, t, s.pcs[t], g.notes[t].claim)
    requires c in g'.claimant && (c in g.claimant ==> ClaimantOk(s, g, c))
    requires ClaimStep(e, s.pcs[t], pc)
    requires g.h + 1 !in g.got
    ensures ClaimantOk(s', g', c)
  {
  }

  lemma KeepClaimants(s: State, g: Hist, t: nat, e: Event, pc: Pc, s': State, g': Hist)
    requires Trans(s, g, t, e, pc, s', g') && Claimants(s, g) && Results(s, g)
    requires ClaimStep(e, s.pcs[t], pc)
    ensures Shape(s', g') && Claimants(s', g')
  {
    KeepShape(s, g, t, e, pc, s', g');
    assert ClaimOk(g, t, s.pcs[t], g.notes[t].claim);
    forall u: nat | u < |s'.pcs| ensures ClaimOk(g', u, s'.pcs[u], g'.notes[u].claim) {
      assert ClaimOk(g, u, s.pcs[u], g.notes[u].claim);
      if Claiming(s.pcs[u]) { assert ClaimantOk(s, g, g.notes[u].claim); }
      KeepClaim(s, g, t, e, pc, s', g', u);
    }
    forall c | c in g'.claimant ensures ClaimantOk(s', g', c) {
      KeepClaimant(s, g, t, e, pc, s', g', c);
    }
  }

  predicate ResultStep(s: State, e: Event, from: Pc, to: Pc) {
    && (Result(to).Addr? ==>
          || (Result(from) == Result(to) && !e.TakeSlot? && !e.Win?)
          || (e == Silent && Pending(from).Addr? && Pending(from).a in s.heap
              && Result(to).a == s.heap[Pending(from).a].data))
    && (e.Leave? && e.ret.Got? ==> Claiming(from) && Result(from) == Addr(e.ret.v))
  }

  lemma KeepResult(s: State, g: Hist, t: nat, e: Event, pc: Pc, s': State, g': Hist, u: nat)
    requires Trans(s, g, t, e, pc, s', g') && Shape(s', g') && u < |s.pcs|
    requires PendingOk(s, g, u, s.pcs[u], g.notes[u].claim) && ResultOk(g, s.pcs[u], g.notes[u].claim)
    requires ResultStep(s, e, s.pcs[t], pc)
    ensures ResultOk(g', s'.pcs[u], g'.notes[u].claim)
  {
  }

  lemma KeepGot(s: State, g: Hist, t: nat, e: Event, pc: Pc, s': State, g': Hist)
    requires Trans(s, g, t, e, pc, s', g') && Shape(s', g') && Results(s, g)
    requires Claiming(s.pcs[t]) ==> 1 <= g.notes[t].claim <= g.h
    requires ResultOk(g, s.pcs[t], g.notes[t].claim) && ResultStep(s, e, s.pcs[t], pc)
    ensures forall c | c in g'.got :: 1 <= c <= g'.h && g'.got[c] == g'.vals[c]
    ensures forall c {:trigger c in g'.got} | 1 <= c <= g'.h :: c in g'.got || c in g'.claimant
  {
  }

  lemma KeepResults(s: State, g: Hist, t: nat, e: Event, pc: Pc, s': State, g': Hist)
    requires Trans(s, g, t, e, pc, s', g') && Waits(s, g) && Claimants(s, g) && Results(s, g)
    requires ResultStep(s, e, s.pcs[t], pc)
    ensures Shape(s', g') && Results(s', g')
  {
    KeepShape(s, g, t, e, pc, s', g');
    var mine := g.notes[t].claim;
    assert ClaimOk(g, t, s.pcs[t], mine) && ResultOk(g, s.pcs[t], mine);
    if mine in g.claimant { assert ClaimantOk(s, g, mine); }
    KeepGot(s, g, t, e, pc, s', g');
    forall u: nat | u < |s'.pcs| ensures ResultOk(g', s'.pcs[u], g'.notes[u].claim) {
      assert ResultOk(g, s.pcs[u], g.notes[u].claim) && PendingOk(s, g, u, s.pcs[u], g.notes[u].claim);
      KeepResult(s, g, t, e, pc, s', g', u);
    }
  }

  // ---- Races ----

  predicate RaceStep(s: State, e: Event, from: Pc, to: Pc) {
    && (to.Run? ==> from.Run? || e.TakeSlot?)
    && (Looping(to) ==>
          || ((e == See || e == Recheck(true)) && SeenHead(to) == s.head)
          || ((e == Silent || e.Hazard?) && Looping(from) && SeenHead(from) == SeenHead(to)))
    && (e == Recheck(false) || e == Lose ==> Looping(from) && SeenHead(from) != s.head)
    && (e.TakeSlot? ==> !Looping(to))
  }

  lemma KeepRace(s: State, g: Hist, t: nat, e: Event, pc: Pc, s': State, g': Hist, u: nat)
    requires Shape(s, g) && Shape(s', g') && t < |s.pcs| && s'.pcs == s.pcs[t := pc]
    requires g'.notes == NotesAfter(g, t, e) && Grown(g, e, g')
    requires s.head == g.nodes[g.h] && (e.TakeSlot? ==> e.i < |g.slots|) && (e.Win? ==> g.notes[t].seen == g.h)
    requires u < |s.pcs| && RaceOk(g, g.notes[u], s.pcs[u])
    requires RaceStep(s, e, s.pcs[t], pc)
    ensures RaceOk(g', g'.notes[u], s'.pcs[u])
  {
  }

  lemma KeepRaces(s: State, g: Hist, t: nat, e: Event, pc: Pc, s': State, g': Hist)
    requires Trans(s, g, t, e, pc, s', g') && QueueEnds(s, g) && Races(s, g)
    requires RaceStep(s, e, s.pcs[t], pc)
    ensures Shape(s', g') && Races(s', g')
  {
    KeepShape(s, g, t, e, pc, s', g');
    forall u: nat | u < |s'.pcs| ensures RaceOk(g', g'.notes[u], s'.pcs[u]) {
      KeepRace(s, g, t, e, pc, s', g', u);
    }
  }
}
