/** Lists of nodes in the heap: how they read, and what a change of the heap leaves of them. */
module LfqLists {
  import opened LfqModel

  function Elems(list: seq<Ptr>): set<Ptr> {
    if list == [] then {} else {list[0]} + Elems(list[1..])
  }

  lemma {:induction false} ElemsIn(list: seq<Ptr>, x: Ptr)
    ensures x in Elems(list) <==> x in list
  {
    if list != [] { ElemsIn(list[1..], x); }
  }

  lemma {:induction false} ElemsAt(list: seq<Ptr>, i: nat)
    requires i < |list|
    ensures list[i] in Elems(list)
  {
    if i > 0 { ElemsAt(list[1..], i - 1); }
  }

  lemma {:induction false} ElemsSplit(list: seq<Ptr>, n: nat)
    requires n <= |list|
    ensures Elems(list) == Elems(list[..n]) + Elems(list[n..])
  {
    if n > 0 {
      ElemsSplit(list[1..], n - 1);
      assert list[1..][n - 1..] == list[n..] && list[..n][1..] == list[1..][..n - 1];
    } else {
      assert list[0..] == list;
    }
  }

  lemma {:induction false} ElemsSnoc(list: seq<Ptr>, x: Ptr)
    ensures Elems(list + [x]) == Elems(list) + {x}
  {
    if list != [] {
      assert (list + [x])[1..] == list[1..] + [x];
      ElemsSnoc(list[1..], x);
    }
  }

  lemma {:induction false} ElemsConcat(a: seq<Ptr>, b: seq<Ptr>)
    ensures Elems(a + b) == Elems(a) + Elems(b)
  {
    if a == [] {
      assert a + b == b;
    } else {
      assert (a + b)[1..] == a[1..] + b;
      ElemsConcat(a[1..], b);
    }
  }

  /** The nodes of list are distinct and allocated, and next leads from each to the following one. */
  ghost predicate Chain(heap: map<Ptr, Node>, list: seq<Ptr>) {
    list == [] || (
      && 0 < list[0] && list[0] in heap && list[0] !in Elems(list[1..])
      && heap[list[0]].next == (if |list| > 1 then list[1] else NULL)
      && Chain(heap, list[1..]))
  }

  /** Every node of list is marked can_free. */
  ghost predicate AllFree(heap: map<Ptr, Node>, list: seq<Ptr>) {
    list == [] || (list[0] in heap && heap[list[0]].canFree && AllFree(heap, list[1..]))
  }

  /** The nodes of list hold the values still to be read; none of them is marked. */
  ghost predicate Holds(heap: map<Ptr, Node>, list: seq<Ptr>, unread: seq<Val>) {
    if list == [] then unread == []
    else
      && unread != [] && list[0] in heap && heap[list[0]].data == unread[0] && !heap[list[0]].canFree
      && Holds(heap, list[1..], unread[1..])
  }

  // ---- Reading a chain ----

  lemma {:induction false} ChainKeys(h: map<Ptr, Node>, list: seq<Ptr>)
    requires Chain(h, list)
    ensures Elems(list) <= h.Keys && NULL !in Elems(list)
  {
    if list != [] { ChainKeys(h, list[1..]); }
  }

  lemma {:induction false} ChainAt(h: map<Ptr, Node>, list: seq<Ptr>, i: nat)
    requires Chain(h, list) && i < |list|
    ensures 0 < list[i] && list[i] in h && h[list[i]].next == if i + 1 < |list| then list[i + 1] else NULL
  {
    if i > 0 { ChainAt(h, list[1..], i - 1); }
  }

  lemma {:induction false} ChainDrop(h: map<Ptr, Node>, list: seq<Ptr>, n: nat)
    requires Chain(h, list) && n <= |list|
    ensures Chain(h, list[n..])
  {
    if n > 0 {
      ChainDrop(h, list[1..], n - 1);
      assert list[1..][n - 1..] == list[n..];
    } else {
      assert list[0..] == list;
    }
  }

  lemma {:induction false} ChainDistinct(h: map<Ptr, Node>, list: seq<Ptr>, n: nat)
    requires Chain(h, list) && n <= |list|
    ensures Elems(list[..n]) !! Elems(list[n..])
  {
    if n > 0 {
      ChainDistinct(h, list[1..], n - 1);
      ElemsSplit(list[1..], n - 1);
      assert list[1..][n - 1..] == list[n..] && list[..n][1..] == list[1..][..n - 1];
    }
  }

  lemma {:induction false} ChainSize(h: map<Ptr, Node>, list: seq<Ptr>)
    requires Chain(h, list)
    ensures |Elems(list)| == |list|
  {
    if list != [] { ChainSize(h, list[1..]); }
  }

  // ---- Changing the heap ----

  lemma {:induction false} ChainSet(h: map<Ptr, Node>, list: seq<Ptr>, x: Ptr, node: Node)
    requires Chain(h, list) && (x !in Elems(list) || (x in h && node.next == h[x].next))
    ensures Chain(h[x := node], list)
  {
    if list != [] { ChainSet(h, list[1..], x, node); }
  }

  lemma {:induction false} ChainMinus(h: map<Ptr, Node>, list: seq<Ptr>, gone: set<Ptr>)
    requires Chain(h, list) && Elems(list) !! gone
    ensures Chain(h - gone, list)
  {
    if list != [] { ChainMinus(h, list[1..], gone); }
  }

  /** A node without successor becomes the successor of the last one. */
  lemma {:induction false} ChainLink(h: map<Ptr, Node>, list: seq<Ptr>, a: Ptr)
    requires 0 < |list| && Chain(h, list) && 0 < a && a in h && h[a].next == NULL && a !in Elems(list)
    ensures Chain(SetNext(h, list[|list| - 1], a), list + [a])
  {
    var rest, last := list[1..], list[|list| - 1];
    assert (list + [a])[1..] == rest + [a];
    if rest == [] {
      assert [a][1..] == [];
    } else {
      ChainLink(h, rest, a);
      ElemsAt(rest, |rest| - 1);
      ElemsSnoc(rest, a);
    }
  }

  lemma {:induction false} FreeSet(h: map<Ptr, Node>, list: seq<Ptr>, x: Ptr, node: Node)
    requires AllFree(h, list) && (x in Elems(list) ==> node.canFree)
    ensures AllFree(h[x := node], list)
  {
    if list != [] { FreeSet(h, list[1..], x, node); }
  }

  lemma {:induction false} FreeMinus(h: map<Ptr, Node>, list: seq<Ptr>, gone: set<Ptr>)
    requires AllFree(h, list) && Elems(list) !! gone
    ensures AllFree(h - gone, list)
  {
    if list != [] { FreeMinus(h, list[1..], gone); }
  }

  lemma {:induction false} FreeSnoc(h: map<Ptr, Node>, list: seq<Ptr>, x: Ptr)
    requires AllFree(h, list) && x in h && h[x].canFree
    ensures AllFree(h, list + [x])
  {
    if list == [] {
      assert [x][1..] == [];
    } else {
      assert (list + [x])[1..] == list[1..] + [x];
      FreeSnoc(h, list[1..], x);
    }
  }

  lemma {:induction false} FreeDrop(h: map<Ptr, Node>, list: seq<Ptr>, n: nat)
    requires AllFree(h, list) && n <= |list|
    ensures AllFree(h, list[n..])
  {
    if n > 0 {
      FreeDrop(h, list[1..], n - 1);
      assert list[1..][n - 1..] == list[n..];
    } else {
      assert list[0..] == list;
    }
  }

  lemma {:induction false} HoldsSet(h: map<Ptr, Node>, list: seq<Ptr>, unread: seq<Val>, x: Ptr, node: Node)
    requires Holds(h, list, unread)
    requires x !in Elems(list) || (x in h && node.data == h[x].data && node.canFree == h[x].canFree)
    ensures Holds(h[x := node], list, unread)
  {
    if list != [] { HoldsSet(h, list[1..], unread[1..], x, node); }
  }

  lemma {:induction false} HoldsMinus(h: map<Ptr, Node>, list: seq<Ptr>, unread: seq<Val>, gone: set<Ptr>)
    requires Holds(h, list, unread) && Elems(list) !! gone
    ensures Holds(h - gone, list, unread)
  {
    if list != [] { HoldsMinus(h, list[1..], unread[1..], gone); }
  }

  lemma {:induction false} HoldsSnoc(h: map<Ptr, Node>, list: seq<Ptr>, unread: seq<Val>, x: Ptr)
    requires Holds(h, list, unread) && x in h && !h[x].canFree
    ensures Holds(h, list + [x], unread + [h[x].data])
  {
    if list == [] {
      assert [x][1..] == [] && (unread + [h[x].data])[1..] == [];
    } else {
      assert (list + [x])[1..] == list[1..] + [x];
      assert (unread + [h[x].data])[1..] == unread[1..] + [h[x].data];
      HoldsSnoc(h, list[1..], unread[1..], x);
    }
  }

  lemma {:induction false} HoldsSize(h: map<Ptr, Node>, list: seq<Ptr>, unread: seq<Val>)
    requires Holds(h, list, unread)
    ensures |list| == |unread|
  {
    if list != [] { HoldsSize(h, list[1..], unread[1..]); }
  }

  // ---- Two lists that make up the heap ----

  /** No node is on both lists. */
  ghost predicate Apart(a: seq<Ptr>, b: seq<Ptr>) {
    a == [] || (a[0] !in Elems(b) && Apart(a[1..], b))
  }

  lemma {:induction false} ApartMeans(a: seq<Ptr>, b: seq<Ptr>)
    ensures Apart(a, b) <==> Elems(a) !! Elems(b)
  {
    if a != [] { ApartMeans(a[1..], b); }
  }

  lemma SameSet(a: set<Ptr>, b: set<Ptr>)
    requires a <= b && |a| == |b|
    ensures a == b
  {
    assert |b - a| == |b| - |a|;
    assert b == a + (b - a);
  }

  /** Two chains that share nothing are the whole heap exactly if they have as many nodes. */
  lemma HeapCount(h: map<Ptr, Node>, a: seq<Ptr>, b: seq<Ptr>)
    requires Chain(h, a) && Chain(h, b) && Apart(a, b)
    ensures |h| == |a| + |b| <==> h.Keys == Elems(a) + Elems(b)
  {
    ApartMeans(a, b);
    ChainKeys(h, a);
    ChainKeys(h, b);
    ChainSize(h, a);
    ChainSize(h, b);
    assert |h.Keys| == |h| && |Elems(a) + Elems(b)| == |a| + |b|;
    if |h| == |a| + |b| { SameSet(Elems(a) + Elems(b), h.Keys); }
  }

  // ---- The settled queue ----

  /**
   A queue on which no call is running: dummy and unread nodes from head to tail, retired nodes from
   fph to fpt, and no other node.
   */
  ghost predicate Settled(heap: map<Ptr, Node>, queue: seq<Ptr>, unread: seq<Val>, pool: seq<Ptr>) {
    && 0 < |queue| && 0 < |pool| && Chain(heap, queue) && Chain(heap, pool)
    && Apart(queue, pool) && |heap| == |queue| + |pool|
    && heap[queue[0]].canFree && Holds(heap, queue[1..], unread) && AllFree(heap, pool)
  }

  lemma SettledKeys(h: map<Ptr, Node>, queue: seq<Ptr>, unread: seq<Val>, pool: seq<Ptr>)
    requires Settled(h, queue, unread, pool)
    ensures Elems(queue) !! Elems(pool) && h.Keys == Elems(queue) + Elems(pool)
  {
    ApartMeans(queue, pool);
    HeapCount(h, queue, pool);
  }

  lemma MakesSettled(h: map<Ptr, Node>, queue: seq<Ptr>, unread: seq<Val>, pool: seq<Ptr>)
    requires 0 < |queue| && 0 < |pool| && Chain(h, queue) && Chain(h, pool)
    requires Elems(queue) !! Elems(pool) && h.Keys == Elems(queue) + Elems(pool)
    requires h[queue[0]].canFree && Holds(h, queue[1..], unread) && AllFree(h, pool)
    ensures Settled(h, queue, unread, pool)
  {
    ApartMeans(queue, pool);
    HeapCount(h, queue, pool);
  }

  /** lfq_init: one node on each list. */
  lemma InitSettled(dummy: Ptr, spare: Ptr)
    requires 0 < dummy && 0 < spare && dummy != spare
    ensures var h := map[dummy := Node(0, NULL, true), spare := Node(0, NULL, true)];
            Settled(h, [dummy], [], [spare]) && Chain(h, [spare])
  {
    var h := map[dummy := Node(0, NULL, true), spare := Node(0, NULL, true)];
    assert Elems([dummy][1..]) == {} && Elems([spare][1..]) == {};
    MakesSettled(h, [dummy], [], [spare]);
  }

  /** A settled queue has a node for each unread value, the dummy, and the retired ones. */
  lemma SettledSize(h: map<Ptr, Node>, queue: seq<Ptr>, unread: seq<Val>, pool: seq<Ptr>)
    requires Settled(h, queue, unread, pool)
    ensures |queue| == |unread| + 1 && |h| == |unread| + 1 + |pool|
  {
    HoldsSize(h, queue[1..], unread);
  }

  /** The heap after lfq_enqueue. */
  function Linked(h: map<Ptr, Node>, last: Ptr, a: Ptr, d: Val): map<Ptr, Node> {
    SetNext(h[a := Node(d, NULL, false)], last, a)
  }

  lemma SettledEnqueue(h: map<Ptr, Node>, queue: seq<Ptr>, unread: seq<Val>, pool: seq<Ptr>, a: Ptr, d: Val)
    requires Settled(h, queue, unread, pool) && 0 < a && a !in h
    ensures queue[|queue| - 1] in h
    ensures Settled(Linked(h, queue[|queue| - 1], a, d), queue + [a], unread + [d], pool)
  {
    var last, node := queue[|queue| - 1], Node(d, NULL, false);
    EnqueueKeys(h, queue, unread, pool, a, d);
    ChainSet(h, queue, a, node);
    ChainLink(h[a := node], queue, a);
    EnqueuePool(h, pool, a, last, node);
    EnqueueHolds(h, queue, unread, a, last, node);
    ChainAt(h, queue, 0);
    MakesSettled(Linked(h, last, a, d), queue + [a], unread + [d], pool);
  }

  lemma EnqueueKeys(h: map<Ptr, Node>, queue: seq<Ptr>, unread: seq<Val>, pool: seq<Ptr>, a: Ptr, d: Val)
    requires Settled(h, queue, unread, pool) && a !in h
    ensures var last := queue[|queue| - 1];
            && last in h && last !in Elems(pool) && a !in Elems(queue) && a !in Elems(pool)
            && Elems(queue + [a]) !! Elems(pool)
            && Linked(h, last, a, d).Keys == Elems(queue + [a]) + Elems(pool)
  {
    SettledKeys(h, queue, unread, pool);
    ElemsAt(queue, |queue| - 1);
    ElemsSnoc(queue, a);
  }

  lemma EnqueuePool(h: map<Ptr, Node>, pool: seq<Ptr>, a: Ptr, last: Ptr, node: Node)
    requires Chain(h, pool) && AllFree(h, pool) && a !in Elems(pool) && last !in Elems(pool)
    ensures Chain(SetNext(h[a := node], last, a), pool) && AllFree(SetNext(h[a := node], last, a), pool)
  {
    var h1 := h[a := node];
    ChainSet(h, pool, a, node);
    FreeSet(h, pool, a, node);
    if last in h1 {
      ChainSet(h1, pool, last, h1[last].(next := a));
      FreeSet(h1, pool, last, h1[last].(next := a));
    }
  }

  lemma EnqueueHolds(h: map<Ptr, Node>, queue: seq<Ptr>, unread: seq<Val>, a: Ptr, last: Ptr, node: Node)
    requires 0 < |queue| && Holds(h, queue[1..], unread) && a !in Elems(queue) && !node.canFree
    ensures Holds(SetNext(h[a := node], last, a), (queue + [a])[1..], unread + [node.data])
  {
    var h1 := h[a := node];
    HoldsSet(h, queue[1..], unread, a, node);
    HoldsSnoc(h1, queue[1..], unread, a);
    assert (queue + [a])[1..] == queue[1..] + [a];
    if last in h1 { HoldsSet(h1, queue[1..] + [a], unread + [node.data], last, h1[last].(next := a)); }
  }

  // ---- free_pool ----

  /**
   How many nodes free_pool may take from the front of a retired list: marked ones that no hazard
   pointer in hz names, and never the last.
   */
  function Releasable(heap: map<Ptr, Node>, pool: seq<Ptr>, hz: seq<Ptr>): (n: nat)
    ensures n <= |pool| && (0 < |pool| ==> n < |pool|)
    ensures forall i | 0 <= i < n :: pool[i] in heap && heap[pool[i]].canFree && pool[i] !in hz
    ensures n + 1 < |pool| && pool[n] in heap ==> !heap[pool[n]].canFree || pool[n] in hz
  {
    if |pool| <= 1 || pool[0] !in heap || !heap[pool[0]].canFree || pool[0] in hz then 0
    else 1 + Releasable(heap, pool[1..], hz)
  }

  function Min(a: nat, b: nat): nat { if a < b then a else b }

  /** The number of nodes one call of free_pool takes. */
  function Released(heap: map<Ptr, Node>, pool: seq<Ptr>, hz: seq<Ptr>, all: bool): (n: nat)
    ensures n <= Releasable(heap, pool, hz)
  {
    if all then Releasable(heap, pool, hz) else Min(MAXFREE, Releasable(heap, pool, hz))
  }

  function Without(heap: map<Ptr, Node>, gone: seq<Ptr>): map<Ptr, Node> { heap - Elems(gone) }

  /** No hazard pointer is set. */
  ghost predicate NoneHeld(hz: seq<Ptr>) {
    forall i | 0 <= i < |hz| :: hz[i] == NULL
  }

  /** What is left of a retired list when its first n nodes are freed. */
  lemma PoolRest(h: map<Ptr, Node>, list: seq<Ptr>, n: nat)
    requires Chain(h, list) && n <= |list|
    ensures Chain(Without(h, list[..n]), list[n..])
  {
    ChainDrop(h, list, n);
    ChainDistinct(h, list, n);
    ChainMinus(h, list[n..], Elems(list[..n]));
  }

  lemma RestOf(h: map<Ptr, Node>, list: seq<Ptr>, n: nat) returns (rest: seq<Ptr>)
    requires Chain(h, list) && n < |list|
    ensures rest == list[n..] && Chain(Without(h, list[..n]), rest)
    ensures 0 < |rest| && rest[0] == list[n] && rest[|rest| - 1] == list[|list| - 1]
  {
    PoolRest(h, list, n);
    rest := list[n..];
  }

  /** The tests of free_pool on the front node tell whether it is releasable. */
  lemma PoolTest(h: map<Ptr, Node>, list: seq<Ptr>, hz: seq<Ptr>, i: nat)
    requires Chain(h, list) && i < |list| && i <= Releasable(h, list, hz)
    ensures var h1 := Without(h, list[..i]);
            && 0 < list[i] && list[i] in h1 && h1 - {list[i]} == Without(h, list[..i + 1])
            && (i + 1 < |list| ==> h1[list[i]].next == list[i + 1])
            && (i < Releasable(h, list, hz) <==> h1[list[i]].canFree && h1[list[i]].next != NULL && list[i] !in hz)
  {
    ChainAt(h, list, i);
    ChainDistinct(h, list, i);
    assert list[i..][0] == list[i];
    ElemsAt(list[i..], 0);
    if i + 1 < |list| { ChainAt(h, list, i + 1); }
    assert list[..i + 1] == list[..i] + [list[i]];
    ElemsSnoc(list[..i], list[i]);
  }

  /** How the releasable prefix of a list reads when marked nodes are followed by unmarked ones. */
  lemma {:induction false} ReleasablePrefix(h: map<Ptr, Node>, front: seq<Ptr>, back: seq<Ptr>, hz: seq<Ptr>)
    requires AllFree(h, front) && NULL !in Elems(front) && NoneHeld(hz)
    requires 0 < |back| ==> back[0] in h && !h[back[0]].canFree
    ensures 0 < |back| ==> Releasable(h, front + back, hz) == |front|
    ensures |back| == 0 < |front| ==> Releasable(h, front + back, hz) == |front| - 1
  {
    if |front| > 0 {
      assert (front + back)[1..] == front[1..] + back;
      ReleasablePrefix(h, front[1..], back, hz);
    } else {
      assert front + back == back;
    }
  }

  // ---- safe_free ----

  /** The test of safe_free; busy says that another thread holds is_freeing. */
  predicate MayFree(heap: map<Ptr, Node>, x: Ptr, hz: seq<Ptr>, busy: bool) {
    x in heap && heap[x].canFree && x !in hz && !busy
  }

  /** What safe_free leaves before it calls free_pool: the node is freed, or on the retired list. */
  function RetireHeap(heap: map<Ptr, Node>, last: Ptr, x: Ptr, free: bool): map<Ptr, Node> {
    if free then heap - {x} else SetNext(SetNext(heap, x, NULL), last, x)
  }

  function RetirePool(pool: seq<Ptr>, x: Ptr, free: bool): seq<Ptr> {
    if free then pool else pool + [x]
  }

  /** How many nodes the free_pool at the end of safe_free takes. */
  function TidiedUp(heap: map<Ptr, Node>, pool: seq<Ptr>, x: Ptr, hz: seq<Ptr>, busy: bool): (n: nat)
    requires 0 < |pool|
    ensures n < |RetirePool(pool, x, MayFree(heap, x, hz, busy))|
  {
    var free := MayFree(heap, x, hz, busy);
    if busy then 0 else Released(RetireHeap(heap, pool[|pool| - 1], x, free), RetirePool(pool, x, free), hz, false)
  }

  /** The nodes after safe_free. */
  function HeapLeft(heap: map<Ptr, Node>, pool: seq<Ptr>, x: Ptr, hz: seq<Ptr>, busy: bool): map<Ptr, Node>
    requires 0 < |pool|
  {
    var free := MayFree(heap, x, hz, busy);
    Without(RetireHeap(heap, pool[|pool| - 1], x, free), RetirePool(pool, x, free)[..TidiedUp(heap, pool, x, hz, busy)])
  }

  /** The retired list after safe_free. */
  function PoolLeft(heap: map<Ptr, Node>, pool: seq<Ptr>, x: Ptr, hz: seq<Ptr>, busy: bool): (p: seq<Ptr>)
    requires 0 < |pool|
    ensures 0 < |p|
  {
    RetirePool(pool, x, MayFree(heap, x, hz, busy))[TidiedUp(heap, pool, x, hz, busy)..]
  }

  /** Marked, and named by no hazard pointer. */
  predicate Unneeded(h: map<Ptr, Node>, x: Ptr, hz: seq<Ptr>) {
    x in h && h[x].canFree && forall i | 0 <= i < |hz| :: hz[i] != x
  }

  /**
   What safe_free(x) does to the nodes h and the retired list p, whatever the hazard pointers hz and the lock
   say.  A node that some hz[i] names stays.  With the lock taken nothing is freed.  x goes exactly if it is
   marked, not named and the lock is open, and else it is appended.  Besides it go the nodes at the front of
   the list that are marked and not named: all of them but the last of the list, or 150.
   */
  ghost predicate Reclaims(h: map<Ptr, Node>, p: seq<Ptr>, x: Ptr, hz: seq<Ptr>, busy: bool,
          h': map<Ptr, Node>, p': seq<Ptr>) {
    var list := if x in h' then p + [x] else p;
    var n := |list| - |p'|;
    && (forall i | 0 <= i < |hz| && hz[i] in h :: hz[i] in h')
    && (busy ==> h'.Keys == h.Keys && p' == p + [x])
    && (x !in h' <==> Unneeded(h, x, hz) && !busy)
    && 0 <= n <= MAXFREE && 0 < |p'| && p' == list[n..]
    && (forall a | a in h && a != x :: a in h' <==> a !in list[..n])
    && (forall i | 0 <= i < n :: Unneeded(h, list[i], hz))
    && (busy || n == MAXFREE || |p'| == 1 || !Unneeded(h, p'[0], hz))
  }

  /** safe_free has its nodes, and x is not on the retired list. */
  predicate Retirable(h: map<Ptr, Node>, p: seq<Ptr>, x: Ptr) {
    x in h && 0 < |p| && (forall i | 0 <= i < |p| :: p[i] in h) && x !in p
  }

  lemma TidiedUnneeded(h: map<Ptr, Node>, p: seq<Ptr>, x: Ptr, hz: seq<Ptr>, busy: bool, i: nat)
    requires Retirable(h, p, x) && i < TidiedUp(h, p, x, hz, busy)
    ensures var list := RetirePool(p, x, MayFree(h, x, hz, busy)); list[i] in p && Unneeded(h, list[i], hz)
  {
    var free := MayFree(h, x, hz, busy);
    var h1 := RetireHeap(h, p[|p| - 1], x, free);
    assert RetirePool(p, x, free)[i] in h1;
  }

  lemma LeftNodes(h: map<Ptr, Node>, p: seq<Ptr>, x: Ptr, hz: seq<Ptr>, busy: bool, a: Ptr)
    requires Retirable(h, p, x) && a in h
    ensures var free := MayFree(h, x, hz, busy);
            a in HeapLeft(h, p, x, hz, busy)
            <==> a !in RetirePool(p, x, free)[..TidiedUp(h, p, x, hz, busy)] && !(free && a == x)
  {
    hide TidiedUp;
    ElemsIn(RetirePool(p, x, MayFree(h, x, hz, busy))[..TidiedUp(h, p, x, hz, busy)], a);
  }

  lemma TidiedFully(h: map<Ptr, Node>, p: seq<Ptr>, x: Ptr, hz: seq<Ptr>, busy: bool)
    requires Retirable(h, p, x)
    ensures var n, p' := TidiedUp(h, p, x, hz, busy), PoolLeft(h, p, x, hz, busy);
            n <= MAXFREE && (busy || n == MAXFREE || |p'| == 1 || !Unneeded(h, p'[0], hz))
  {
    var free, n := MayFree(h, x, hz, busy), TidiedUp(h, p, x, hz, busy);
    var h1, p1 := RetireHeap(h, p[|p| - 1], x, free), RetirePool(p, x, free);
    assert p1[n] in h1 && h1[p1[n]].canFree == h[p1[n]].canFree;
  }

  lemma FreeExactly(h: map<Ptr, Node>, x: Ptr, hz: seq<Ptr>, busy: bool)
    ensures MayFree(h, x, hz, busy) <==> Unneeded(h, x, hz) && !busy
  {
  }

  lemma NamedNeeded(h: map<Ptr, Node>, hz: seq<Ptr>)
    ensures forall i | 0 <= i < |hz| :: !Unneeded(h, hz[i], hz)
  {
  }

  lemma LockedKeys(h: map<Ptr, Node>, p: seq<Ptr>, x: Ptr, hz: seq<Ptr>)
    requires Retirable(h, p, x)
    ensures HeapLeft(h, p, x, hz, true).Keys == h.Keys && TidiedUp(h, p, x, hz, true) == 0
  {
  }

  lemma ReclaimsSo(h: map<Ptr, Node>, p: seq<Ptr>, x: Ptr, hz: seq<Ptr>, busy: bool)
    requires Retirable(h, p, x)
    ensures Reclaims(h, p, x, hz, busy, HeapLeft(h, p, x, hz, busy), PoolLeft(h, p, x, hz, busy))
  {
    hide TidiedUp, HeapLeft, Unneeded;
    var free, n := MayFree(h, x, hz, busy), TidiedUp(h, p, x, hz, busy);
    forall a | a in h ensures a in HeapLeft(h, p, x, hz, busy) <==>
        a !in RetirePool(p, x, free)[..n] && !(free && a == x) {
      LeftNodes(h, p, x, hz, busy, a);
    }
    forall i | 0 <= i < n ensures RetirePool(p, x, free)[i] in p && Unneeded(h, RetirePool(p, x, free)[i], hz) {
      TidiedUnneeded(h, p, x, hz, busy, i);
    }
    FreeExactly(h, x, hz, busy);
    NamedNeeded(h, hz);
    TidiedFully(h, p, x, hz, busy);
    if busy { LockedKeys(h, p, x, hz); }
  }

  /** enpool and the retired list. */
  lemma EnpoolChain(h: map<Ptr, Node>, pool: seq<Ptr>, x: Ptr)
    requires Chain(h, pool) && 0 < |pool| && 0 < x && x in h && x !in Elems(pool)
    ensures pool[|pool| - 1] in h && pool[|pool| - 1] != x
    ensures Chain(RetireHeap(h, pool[|pool| - 1], x, false), pool + [x])
  {
    ElemsAt(pool, |pool| - 1);
    ChainKeys(h, pool);
    ChainSet(h, pool, x, h[x].(next := NULL));
    ChainLink(h[x := h[x].(next := NULL)], pool, x);
  }

  /** enpool and another list. */
  lemma EnpoolOther(h: map<Ptr, Node>, list: seq<Ptr>, last: Ptr, x: Ptr)
    requires Chain(h, list) && last !in Elems(list) && x !in Elems(list)
    ensures Chain(RetireHeap(h, last, x, false), list)
  {
    var h1 := SetNext(h, x, NULL);
    if x in h { ChainSet(h, list, x, h[x].(next := NULL)); }
    if last in h1 { ChainSet(h1, list, last, h1[last].(next := x)); }
  }

  /** enpool touches neither the data nor the marks. */
  lemma EnpoolHolds(h: map<Ptr, Node>, list: seq<Ptr>, unread: seq<Val>, last: Ptr, x: Ptr)
    requires Holds(h, list, unread)
    ensures Holds(RetireHeap(h, last, x, false), list, unread)
  {
    var h1 := SetNext(h, x, NULL);
    if x in h { HoldsSet(h, list, unread, x, h[x].(next := NULL)); }
    if last in h1 { HoldsSet(h1, list, unread, last, h1[last].(next := x)); }
  }

  lemma {:induction false} FreeIn(h: map<Ptr, Node>, list: seq<Ptr>, x: Ptr)
    requires AllFree(h, list) && x in Elems(list)
    ensures x in h && h[x].canFree
  {
    if x != list[0] { FreeIn(h, list[1..], x); }
  }

  lemma EnpoolFree(h: map<Ptr, Node>, list: seq<Ptr>, last: Ptr, x: Ptr)
    requires AllFree(h, list)
    ensures AllFree(RetireHeap(h, last, x, false), list)
  {
    var h1 := SetNext(h, x, NULL);
    if x in h {
      if x in Elems(list) { FreeIn(h, list, x); }
      FreeSet(h, list, x, h[x].(next := NULL));
    }
    if last in h1 {
      if last in Elems(list) { FreeIn(h1, list, last); }
      FreeSet(h1, list, last, h1[last].(next := x));
    }
  }

  lemma ChainRetirable(h: map<Ptr, Node>, p: seq<Ptr>, x: Ptr)
    requires Chain(h, p) && 0 < |p| && x in h && x !in Elems(p)
    ensures Retirable(h, p, x)
  {
    ChainKeys(h, p);
    ElemsIn(p, x);
    forall i | 0 <= i < |p| ensures p[i] in h { ElemsAt(p, i); }
  }

  /** The result of safe_free for a node beside the retired list. */
  lemma Reclaimed(h: map<Ptr, Node>, p: seq<Ptr>, x: Ptr, hz: seq<Ptr>, busy: bool, h': map<Ptr, Node>, p': seq<Ptr>)
    requires Chain(h, p) && 0 < |p| && x in h && x !in Elems(p)
    requires h' == HeapLeft(h, p, x, hz, busy) && p' == PoolLeft(h, p, x, hz, busy)
    ensures Reclaims(h, p, x, hz, busy, h', p')
  {
    hide Reclaims, HeapLeft, PoolLeft;
    ChainRetirable(h, p, x);
    ReclaimsSo(h, p, x, hz, busy);
  }

  // ---- A dequeue ----

  function Marked(h: map<Ptr, Node>, x: Ptr): map<Ptr, Node> {
    if x in h then h[x := h[x].(canFree := true)] else h
  }

  /** What a dequeue finds in a settled queue. */
  lemma SettledFront(h: map<Ptr, Node>, queue: seq<Ptr>, unread: seq<Val>, pool: seq<Ptr>)
    requires Settled(h, queue, unread, pool) && 1 < |queue|
    ensures queue[0] in h && queue[1] in h && 0 < queue[0] && queue[0] !in Elems(pool) && queue[0] != queue[1]
    ensures h[queue[0]].next == queue[1] != NULL && unread != [] && h[queue[1]].data == unread[0] && h[queue[0]].canFree
    ensures queue[1] !in Elems(pool) && queue[0] !in Elems(queue[1..])
  {
    SettledKeys(h, queue, unread, pool);
    ElemsAt(queue, 0);
    ElemsAt(queue, 1);
    ElemsAt(queue[1..], 0);
    ChainAt(h, queue, 1);
    assert queue[1..][0] == queue[1];
  }

  lemma MarkedChain(h: map<Ptr, Node>, list: seq<Ptr>, x: Ptr)
    requires Chain(h, list)
    ensures Chain(Marked(h, x), list)
  {
    if x in h { ChainSet(h, list, x, h[x].(canFree := true)); }
  }

  /** Marking the new head. */
  lemma MarkedLists(h: map<Ptr, Node>, queue: seq<Ptr>, unread: seq<Val>, pool: seq<Ptr>)
    requires Settled(h, queue, unread, pool) && 1 < |queue|
    ensures var m := Marked(h, queue[1]);
            && Chain(m, queue[1..]) && Chain(m, pool) && AllFree(m, pool) && Holds(m, queue[1..][1..], unread[1..])
            && m[queue[0]].canFree && m[queue[1]].canFree && m.Keys == h.Keys
  {
    var x := queue[1];
    var node := h[x].(canFree := true);
    SettledFront(h, queue, unread, pool);
    ChainSet(h, queue[1..], x, node);
    ChainSet(h, pool, x, node);
    FreeSet(h, pool, x, node);
    assert queue[1..][0] == x;
    HoldsSet(h, queue[1..][1..], unread[1..], x, node);
  }

  /** The head moves on and the old dummy is freed. */
  lemma SettledFreed(h: map<Ptr, Node>, queue: seq<Ptr>, unread: seq<Val>, pool: seq<Ptr>)
    requires Settled(h, queue, unread, pool) && 1 < |queue|
    ensures Settled(Marked(h, queue[1]) - {queue[0]}, queue[1..], unread[1..], pool)
  {
    var m, rest, gone := Marked(h, queue[1]), queue[1..], {queue[0]};
    SettledKeys(h, queue, unread, pool);
    SettledFront(h, queue, unread, pool);
    MarkedLists(h, queue, unread, pool);
    ChainMinus(m, rest, gone);
    ChainMinus(m, pool, gone);
    FreeMinus(m, pool, gone);
    assert Elems(rest) == {rest[0]} + Elems(rest[1..]);
    HoldsMinus(m, rest[1..], unread[1..], gone);
    MakesSettled(m - gone, rest, unread[1..], pool);
  }

  /** The head moves on and the old dummy joins the retired list. */
  lemma SettledPooled(h: map<Ptr, Node>, queue: seq<Ptr>, unread: seq<Val>, pool: seq<Ptr>)
    requires Settled(h, queue, unread, pool) && 1 < |queue|
    ensures Settled(RetireHeap(Marked(h, queue[1]), pool[|pool| - 1], queue[0], false), queue[1..], unread[1..],
                    pool + [queue[0]])
  {
    var m, rest, last, x := Marked(h, queue[1]), queue[1..], pool[|pool| - 1], queue[0];
    SettledFront(h, queue, unread, pool);
    MarkedLists(h, queue, unread, pool);
    PooledKeys(h, queue, unread, pool);
    EnpoolChain(m, pool, x);
    EnpoolOther(m, rest, last, x);
    EnpoolHolds(m, rest[1..], unread[1..], last, x);
    EnpoolFree(m, pool, last, x);
    FreeSnoc(RetireHeap(m, last, x, false), pool, x);
    MakesSettled(RetireHeap(m, last, x, false), rest, unread[1..], pool + [x]);
  }

  lemma PooledKeys(h: map<Ptr, Node>, queue: seq<Ptr>, unread: seq<Val>, pool: seq<Ptr>)
    requires Settled(h, queue, unread, pool) && 1 < |queue|
    ensures var last, x := pool[|pool| - 1], queue[0];
            && last !in Elems(queue[1..]) && Elems(queue[1..]) !! Elems(pool + [x])
            && RetireHeap(Marked(h, queue[1]), last, x, false).Keys == Elems(queue[1..]) + Elems(pool + [x])
  {
    SettledKeys(h, queue, unread, pool);
    SettledFront(h, queue, unread, pool);
    ElemsAt(pool, |pool| - 1);
    ElemsSnoc(pool, queue[0]);
  }

  /** A settled queue stays settled when free_pool takes nodes off the retired list. */
  lemma SettledRelease(h: map<Ptr, Node>, queue: seq<Ptr>, unread: seq<Val>, pool: seq<Ptr>, n: nat)
    requires Settled(h, queue, unread, pool) && n < |pool|
    ensures Settled(Without(h, pool[..n]), queue, unread, pool[n..])
  {
    var gone := Elems(pool[..n]);
    SettledKeys(h, queue, unread, pool);
    ElemsSplit(pool, n);
    ChainDistinct(h, pool, n);
    PoolRest(h, pool, n);
    ChainMinus(h, queue, gone);
    FreeDrop(h, pool, n);
    FreeMinus(h, pool[n..], gone);
    assert Elems(queue) == {queue[0]} + Elems(queue[1..]);
    HoldsMinus(h, queue[1..], unread, gone);
    MakesSettled(h - gone, queue, unread, pool[n..]);
  }

  /** safe_free of the old dummy, before free_pool. */
  lemma SettledRetire(h: map<Ptr, Node>, queue: seq<Ptr>, unread: seq<Val>, pool: seq<Ptr>, free: bool)
    requires Settled(h, queue, unread, pool) && 1 < |queue|
    ensures Settled(RetireHeap(Marked(h, queue[1]), pool[|pool| - 1], queue[0], free), queue[1..], unread[1..],
                    RetirePool(pool, queue[0], free))
  {
    if free { SettledFreed(h, queue, unread, pool); } else { SettledPooled(h, queue, unread, pool); }
  }

  /** The whole effect of a dequeue on a settled queue, whatever the other consumers hold. */
  lemma SettledAfter(h: map<Ptr, Node>, queue: seq<Ptr>, unread: seq<Val>, pool: seq<Ptr>, hz: seq<Ptr>, busy: bool,
          h': map<Ptr, Node>, pool': seq<Ptr>)
    requires Settled(h, queue, unread, pool) && 1 < |queue|
    requires h' == HeapLeft(Marked(h, queue[1]), pool, queue[0], hz, busy)
    requires pool' == PoolLeft(Marked(h, queue[1]), pool, queue[0], hz, busy)
    ensures Settled(h', queue[1..], unread[1..], pool')
  {
    var m, x := Marked(h, queue[1]), queue[0];
    var free := MayFree(m, x, hz, busy);
    SettledRetire(h, queue, unread, pool, free);
    SettledRelease(RetireHeap(m, pool[|pool| - 1], x, free), queue[1..], unread[1..], RetirePool(pool, x, free),
                   TidiedUp(m, pool, x, hz, busy));
  }

  lemma UnmarkedReclaims(h: map<Ptr, Node>, m: map<Ptr, Node>, p: seq<Ptr>, x: Ptr, y: Ptr, hz: seq<Ptr>, busy: bool,
          h': map<Ptr, Node>, p': seq<Ptr>)
    requires m == Marked(h, y) && y != x && y !in p && Reclaims(m, p, x, hz, busy, h', p')
    ensures Reclaims(h, p, x, hz, busy, h', p')
  {
    var list := if x in h' then p + [x] else p;
    assert m.Keys == h.Keys && (forall a :: a in m <==> a in h);
    forall a | a != y ensures Unneeded(m, a, hz) == Unneeded(h, a, hz) {}
    assert forall i | 0 <= i < |list| :: list[i] != y;
    assert p'[0] == list[|list| - |p'|];
  }

  /** A dequeue reclaims the old dummy. */
  lemma DequeueReclaims(h: map<Ptr, Node>, queue: seq<Ptr>, unread: seq<Val>, pool: seq<Ptr>, hz: seq<Ptr>, busy: bool,
          h': map<Ptr, Node>, pool': seq<Ptr>)
    requires Settled(h, queue, unread, pool) && 1 < |queue| && 0 < |pool|
    requires h' == HeapLeft(Marked(h, queue[1]), pool, queue[0], hz, busy)
    requires pool' == PoolLeft(Marked(h, queue[1]), pool, queue[0], hz, busy)
    ensures Reclaims(h, pool, queue[0], hz, busy, h', pool')
  {
    hide Reclaims, HeapLeft, PoolLeft;
    SettledFront(h, queue, unread, pool);
    MarkedChain(h, pool, queue[1]);
    ElemsIn(pool, queue[1]);
    Reclaimed(Marked(h, queue[1]), pool, queue[0], hz, busy, h', pool');
    UnmarkedReclaims(h, Marked(h, queue[1]), pool, queue[0], queue[1], hz, busy, h', pool');
  }

  /** With no other consumer about, the old dummy is freed and up to 150 retired nodes with it. */
  lemma LeftAlone(h: map<Ptr, Node>, pool: seq<Ptr>, x: Ptr, hz: seq<Ptr>)
    requires Chain(h, pool) && 0 < |pool| && AllFree(h, pool) && x != NULL && x in h && h[x].canFree
    requires x !in Elems(pool) && NoneHeld(hz)
    ensures PoolLeft(h, pool, x, hz, false) == pool[Min(MAXFREE, |pool| - 1)..]
  {
    ChainKeys(h, pool);
    FreeMinus(h, pool, {x});
    ReleasablePrefix(h - {x}, pool, [], hz);
    assert pool + [] == pool;
  }
}
