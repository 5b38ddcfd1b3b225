/** What lfq_clean does to the lists of a queue on which no call is running. */
module LfqClean {
  import opened LfqModel
  import opened LfqLists

  /**
   lfq_clean has passed i of the nodes q on to safe_free: the unread ones among them follow what is
   left of the old retired list.
   */
  ghost predicate Cleaning(h: map<Ptr, Node>, q: seq<Ptr>, unread: seq<Val>, i: nat, front: seq<Ptr>, pool: seq<Ptr>) {
    && 0 < |q| && i <= |q| && pool == front + q[Min(1, i)..i]
    && Chain(h, q[i..]) && AllFree(h, front) && Holds(h, q[1..], unread)
    && (i == 0 ==> q[0] in h && h[q[0]].canFree)
    && Chain(h, pool) && Apart(q[i..], pool) && |h| == |q| - i + |pool|
  }

  /** The nodes still to come and the retired ones are the heap. */
  lemma CleaningKeys(h: map<Ptr, Node>, q: seq<Ptr>, unread: seq<Val>, i: nat, front: seq<Ptr>, pool: seq<Ptr>)
    requires Cleaning(h, q, unread, i, front, pool)
    ensures Elems(q[i..]) !! Elems(pool) && h.Keys == Elems(q[i..]) + Elems(pool)
  {
    ApartMeans(q[i..], pool);
    HeapCount(h, q[i..], pool);
  }

  lemma MakesCleaning(h: map<Ptr, Node>, q: seq<Ptr>, unread: seq<Val>, i: nat, front: seq<Ptr>, pool: seq<Ptr>)
    requires 0 < |q| && i <= |q| && pool == front + q[Min(1, i)..i] && Chain(h, q[i..]) && Chain(h, pool)
    requires AllFree(h, front) && Holds(h, q[1..], unread) && (i == 0 ==> q[0] in h && h[q[0]].canFree)
    requires Elems(q[i..]) !! Elems(pool) && h.Keys == Elems(q[i..]) + Elems(pool)
    ensures Cleaning(h, q, unread, i, front, pool)
  {
    ApartMeans(q[i..], pool);
    HeapCount(h, q[i..], pool);
  }

  lemma CleaningStart(h: map<Ptr, Node>, queue: seq<Ptr>, unread: seq<Val>, pool: seq<Ptr>)
    requires Settled(h, queue, unread, pool)
    ensures Cleaning(h, queue, unread, 0, pool, pool) && 0 < queue[0]
  {
    assert queue[0..] == queue && pool + queue[0..0] == pool;
  }

  /** free_pool takes nodes of the old retired list. */
  lemma CleaningRelease(h: map<Ptr, Node>, q: seq<Ptr>, unread: seq<Val>, i: nat, front: seq<Ptr>, pool: seq<Ptr>,
          n: nat)
    requires Cleaning(h, q, unread, i, front, pool) && n <= |front|
    ensures Cleaning(Without(h, pool[..n]), q, unread, i, front[n..], pool[n..])
  {
    ReleaseCount(h, q, unread, i, front, pool, n);
    ReleaseFrame(h, q, unread, i, front, pool, n);
    PoolRest(h, pool, n);
    ReleaseOrder(front, q[Min(1, i)..i], n);
  }

  lemma ReleaseOrder(front: seq<Ptr>, back: seq<Ptr>, n: nat)
    requires n <= |front|
    ensures (front + back)[n..] == front[n..] + back
  {
  }

  lemma ReleaseCount(h: map<Ptr, Node>, q: seq<Ptr>, unread: seq<Val>, i: nat, front: seq<Ptr>, pool: seq<Ptr>, n: nat)
    requires Cleaning(h, q, unread, i, front, pool) && n <= |front|
    ensures Apart(q[i..], pool[n..]) && |Without(h, pool[..n])| == |q| - i + |pool[n..]|
  {
    ReleaseKeys(h, q, unread, i, front, pool, n);
    ChainMinus(h, q[i..], Elems(pool[..n]));
    PoolRest(h, pool, n);
    ApartMeans(q[i..], pool[n..]);
    HeapCount(Without(h, pool[..n]), q[i..], pool[n..]);
  }

  /** What goes is none of what stays. */
  lemma ReleaseKeys(h: map<Ptr, Node>, q: seq<Ptr>, unread: seq<Val>, i: nat, front: seq<Ptr>, pool: seq<Ptr>, n: nat)
    requires Cleaning(h, q, unread, i, front, pool) && n <= |front|
    ensures var gone := Elems(pool[..n]);
            && Elems(q[i..]) !! gone && Elems(front[n..]) !! gone && Elems(q[1..]) !! gone
            && Elems(q[i..]) !! Elems(pool[n..]) && (h - gone).Keys == Elems(q[i..]) + Elems(pool[n..])
  {
    var back := q[Min(1, i)..i];
    assert pool[n..] == front[n..] + back;
    CleaningKeys(h, q, unread, i, front, pool);
    ElemsSplit(pool, n);
    ChainDistinct(h, pool, n);
    ElemsConcat(front[n..], back);
    UnreadPlaces(q, i);
    ReleaseSets(h.Keys, Elems(q[i..]), Elems(pool[..n]), Elems(front[n..]), Elems(back), Elems(q[1..]));
  }

  lemma ReleaseSets(keys: set<Ptr>, rest: set<Ptr>, gone: set<Ptr>, front: set<Ptr>, back: set<Ptr>, unread: set<Ptr>)
    requires keys == rest + (gone + (front + back)) && rest !! gone + (front + back) && gone !! front + back
    requires unread <= back + rest
    ensures rest !! gone && front !! gone && unread !! gone && rest !! front + back
    ensures keys - gone == rest + (front + back)
  {
  }

  lemma ReleaseFrame(h: map<Ptr, Node>, q: seq<Ptr>, unread: seq<Val>, i: nat, front: seq<Ptr>, pool: seq<Ptr>, n: nat)
    requires Cleaning(h, q, unread, i, front, pool) && n <= |front|
    ensures var h' := Without(h, pool[..n]);
            && Chain(h', q[i..]) && AllFree(h', front[n..]) && Holds(h', q[1..], unread)
            && (i == 0 ==> q[0] in h' && h'[q[0]].canFree)
  {
    var gone := Elems(pool[..n]);
    ReleaseKeys(h, q, unread, i, front, pool, n);
    ChainMinus(h, q[i..], gone);
    FreeDrop(h, front, n);
    FreeMinus(h, front[n..], gone);
    HoldsMinus(h, q[1..], unread, gone);
  }

  /** The unread nodes are those passed on and those to come. */
  lemma UnreadPlaces(q: seq<Ptr>, i: nat)
    requires 0 < |q| && i <= |q|
    ensures Elems(q[1..]) <= Elems(q[Min(1, i)..i]) + Elems(q[i..])
  {
    if i == 0 {
      assert q[0..] == q;
    } else {
      ElemsSplit(q[1..], i - 1);
      assert q[1..][..i - 1] == q[1..i] && q[1..][i - 1..] == q[i..];
    }
  }

  lemma {:induction false} HoldsAt(h: map<Ptr, Node>, list: seq<Ptr>, unread: seq<Val>, i: nat)
    requires Holds(h, list, unread) && i < |list|
    ensures list[i] in h && !h[list[i]].canFree
  {
    if i > 0 { HoldsAt(h, list[1..], unread[1..], i - 1); }
  }

  /** The node that is passed on next. */
  lemma CleaningHead(h: map<Ptr, Node>, q: seq<Ptr>, unread: seq<Val>, i: nat, front: seq<Ptr>, pool: seq<Ptr>)
    requires Cleaning(h, q, unread, i, front, pool) && i < |q|
    ensures 0 < q[i] && q[i] in h && q[i] !in Elems(pool) && q[i] !in Elems(q[i + 1..])
    ensures h[q[i]].next == (if i + 1 < |q| then q[i + 1] else NULL) && (i + 1 < |q| ==> 0 < q[i + 1])
    ensures h[q[i]].canFree <==> i == 0
    ensures Chain(h, q[i + 1..]) && Elems(q[i..]) == {q[i]} + Elems(q[i + 1..])
  {
    assert q[i] == q[i..][0] && q[i..][1..] == q[i + 1..];
    CleaningKeys(h, q, unread, i, front, pool);
    if i + 1 < |q| { ChainAt(h, q[i..], 1); }
    if i > 0 { HoldsAt(h, q[1..], unread, i - 1); }
  }

  lemma DummyFrame(h: map<Ptr, Node>, rest: seq<Ptr>, unread: seq<Val>, front: seq<Ptr>, pool: seq<Ptr>, x: Ptr)
    requires Chain(h, rest) && Chain(h, pool) && AllFree(h, front) && Holds(h, rest, unread)
    requires x !in Elems(rest) && x !in Elems(pool) && Elems(front) <= Elems(pool)
    ensures Chain(h - {x}, rest) && Chain(h - {x}, pool) && AllFree(h - {x}, front) && Holds(h - {x}, rest, unread)
  {
    ChainMinus(h, rest, {x});
    ChainMinus(h, pool, {x});
    FreeMinus(h, front, {x});
    HoldsMinus(h, rest, unread, {x});
  }

  /** The first round frees the dummy. */
  lemma CleaningDummy(h: map<Ptr, Node>, q: seq<Ptr>, unread: seq<Val>, front: seq<Ptr>, pool: seq<Ptr>)
    requires Cleaning(h, q, unread, 0, front, pool)
    ensures Cleaning(h - {q[0]}, q, unread, 1, front, pool)
  {
    var gone := {q[0]};
    CleaningHead(h, q, unread, 0, front, pool);
    CleaningKeys(h, q, unread, 0, front, pool);
    assert front + q[0..0] == front == front + q[1..1];
    DummyFrame(h, q[1..], unread, front, pool, q[0]);
    MakesCleaning(h - gone, q, unread, 1, front, pool);
  }

  /** Each later round puts an unread node on the retired list. */
  lemma CleaningUnread(h: map<Ptr, Node>, q: seq<Ptr>, unread: seq<Val>, i: nat, front: seq<Ptr>, pool: seq<Ptr>)
    requires Cleaning(h, q, unread, i, front, pool) && 0 < |pool| && 0 < i < |q|
    ensures Cleaning(RetireHeap(h, pool[|pool| - 1], q[i], false), q, unread, i + 1, front, pool + [q[i]])
  {
    var last, x := pool[|pool| - 1], q[i];
    CleaningHead(h, q, unread, i, front, pool);
    UnreadKeys(h, q, unread, i, front, pool);
    EnpoolChain(h, pool, x);
    EnpoolOther(h, q[i + 1..], last, x);
    EnpoolFree(h, front, last, x);
    EnpoolHolds(h, q[1..], unread, last, x);
    UnreadOrder(q, i, front);
    MakesCleaning(RetireHeap(h, last, x, false), q, unread, i + 1, front, pool + [x]);
  }

  lemma UnreadOrder(q: seq<Ptr>, i: nat, front: seq<Ptr>)
    requires 0 < i < |q|
    ensures front + q[1..i] + [q[i]] == front + q[1..i + 1]
  {
    assert q[1..i + 1] == q[1..i] + [q[i]];
  }

  /** The node changes lists. */
  lemma UnreadKeys(h: map<Ptr, Node>, q: seq<Ptr>, unread: seq<Val>, i: nat, front: seq<Ptr>, pool: seq<Ptr>)
    requires Cleaning(h, q, unread, i, front, pool) && 0 < |pool| && 0 < i < |q|
    ensures var last, x := pool[|pool| - 1], q[i];
            && last !in Elems(q[i + 1..])
            && Elems(q[i + 1..]) !! Elems(pool + [x])
            && RetireHeap(h, last, x, false).Keys == Elems(q[i + 1..]) + Elems(pool + [x])
  {
    CleaningHead(h, q, unread, i, front, pool);
    CleaningKeys(h, q, unread, i, front, pool);
    KeysMove(h, Elems(q[i + 1..]), pool, q[i]);
  }

  lemma KeysMove(h: map<Ptr, Node>, rest: set<Ptr>, pool: seq<Ptr>, x: Ptr)
    requires 0 < |pool| && x !in rest && {x} + rest !! Elems(pool) && h.Keys == {x} + rest + Elems(pool)
    ensures pool[|pool| - 1] !in rest && rest !! Elems(pool + [x])
    ensures RetireHeap(h, pool[|pool| - 1], x, false).Keys == rest + Elems(pool + [x])
  {
    ElemsAt(pool, |pool| - 1);
    ElemsSnoc(pool, x);
  }

  /** How far free_pool can go: through the old retired nodes, but never past an unread one. */
  lemma CleaningReleasable(h: map<Ptr, Node>, q: seq<Ptr>, unread: seq<Val>, i: nat, front: seq<Ptr>, pool: seq<Ptr>,
          hz: seq<Ptr>)
    requires Cleaning(h, q, unread, i, front, pool) && 0 < |pool| && 0 < i && NoneHeld(hz)
    ensures Releasable(h, pool, hz) == if i == 1 then |front| - 1 else |front|
  {
    var back := q[1..i];
    if i > 1 {
      HoldsAt(h, q[1..], unread, 0);
      assert back[0] == q[1] == q[1..][0];
    }
    ChainKeys(h, pool);
    ElemsConcat(front, back);
    ReleasablePrefix(h, front, back, hz);
  }

  /** safe_free of the next node, before free_pool. */
  lemma CleaningRetire(h: map<Ptr, Node>, q: seq<Ptr>, unread: seq<Val>, i: nat, front: seq<Ptr>, pool: seq<Ptr>,
          free: bool)
    requires Cleaning(h, q, unread, i, front, pool) && 0 < |pool| && i < |q| && (free <==> i == 0)
    ensures Cleaning(RetireHeap(h, pool[|pool| - 1], q[i], free), q, unread, i + 1, front, RetirePool(pool, q[i], free))
  {
    if i == 0 { CleaningDummy(h, q, unread, front, pool); } else { CleaningUnread(h, q, unread, i, front, pool); }
  }

  /** One round: safe_free takes the node, and free_pool n nodes of the retired list. */
  lemma CleaningRound(h: map<Ptr, Node>, q: seq<Ptr>, unread: seq<Val>, i: nat, front: seq<Ptr>, pool: seq<Ptr>,
          hz: seq<Ptr>)
    returns (n: nat)
    requires Cleaning(h, q, unread, i, front, pool) && 0 < |pool| && i < |q| && NoneHeld(hz)
    ensures 0 < q[i] && q[i] in h && q[i] !in Elems(pool)
    ensures h[q[i]].next == (if i + 1 < |q| then q[i + 1] else NULL) && (i + 1 < |q| ==> 0 < q[i + 1])
    ensures n <= |front|
    ensures Cleaning(HeapLeft(h, pool, q[i], hz, false), q, unread, i + 1, front[n..],
                     PoolLeft(h, pool, q[i], hz, false))
  {
    hide Cleaning, Chain, Elems, RetireHeap, RetirePool;
    CleaningHead(h, q, unread, i, front, pool);
    n := TidiedUp(h, pool, q[i], hz, false);
    var free := MayFree(h, q[i], hz, false);
    var h1, p1 := RetireHeap(h, pool[|pool| - 1], q[i], free), RetirePool(pool, q[i], free);
    CleaningRetire(h, q, unread, i, front, pool, free);
    CleaningReleasable(h1, q, unread, i + 1, front, p1, hz);
    CleaningRelease(h1, q, unread, i + 1, front, p1, n);
  }

  /** After the first loop, free_pool(true) leaves the unread nodes, or one node if there is at most one. */
  lemma CleaningEnd(h: map<Ptr, Node>, q: seq<Ptr>, unread: seq<Val>, front: seq<Ptr>, pool: seq<Ptr>, hz: seq<Ptr>)
    requires Cleaning(h, q, unread, |q|, front, pool) && 0 < |pool| && NoneHeld(hz)
    ensures var n := Released(h, pool, hz, true);
            var h', p' := Without(h, pool[..n]), pool[n..];
            && n < |pool| && h'.Keys == Elems(p')
            && (|unread| > 0 ==> p' == q[1..] && Holds(h', p', unread))
            && (pool[n] == pool[|pool| - 1] <==> |unread| <= 1)
            && (|unread| <= 1 ==> h' - {pool[n]} == map[])
  {
    var n := Released(h, pool, hz, true);
    HoldsSize(h, q[1..], unread);
    CleaningReleasable(h, q, unread, |q|, front, pool, hz);
    CleaningRelease(h, q, unread, |q|, front, pool, n);
    CleaningRest(Without(h, pool[..n]), q, unread, front[n..], pool[n..]);
    LastApart(h, pool, n);
  }

  /** What is left is exactly the unread nodes, or one retired node. */
  lemma CleaningRest(h: map<Ptr, Node>, q: seq<Ptr>, unread: seq<Val>, front: seq<Ptr>, pool: seq<Ptr>)
    requires Cleaning(h, q, unread, |q|, front, pool) && |front| == if |q| == 1 then 1 else 0
    requires |unread| == |q| - 1
    ensures 0 < |pool|
    ensures h.Keys == Elems(pool) && (|unread| > 0 ==> pool == q[1..] && Holds(h, pool, unread))
    ensures |pool| == (if |unread| == 0 then 1 else |unread|)
    ensures |unread| <= 1 ==> h - {pool[0]} == map[]
  {
    CleaningKeys(h, q, unread, |q|, front, pool);
    assert q[1..|q|] == q[1..] && q[|q|..] == [];
    if |unread| <= 1 {
      assert pool == [pool[0]];
      assert Elems(pool) == {pool[0]} + Elems([]);
    }
  }

  lemma LastApart(h: map<Ptr, Node>, pool: seq<Ptr>, n: nat)
    requires Chain(h, pool) && n < |pool|
    ensures pool[n] == pool[|pool| - 1] <==> n == |pool| - 1
  {
    if n < |pool| - 1 {
      ChainDistinct(h, pool, n + 1);
      ElemsAt(pool[..n + 1], n);
      ElemsAt(pool[n + 1..], |pool| - n - 2);
    }
  }
}
