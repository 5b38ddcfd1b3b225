/**
 The queue context of adaptor/lfq.h as an object, with the code of adaptor/lfq.c as its methods, for
 callers that run one at a time.  The object carries the part of the C heap that holds its nodes, so
 that a use after free or a double free is a failed precondition.
 */
module LfqContext {
  import opened LfqModel
  import opened LfqLists
  import opened LfqClean

  /** What lfq_dequeue answers: -1, or what lfq_dequeue_tid returns. */
  datatype Answer = NoSlot | Answer(ret: Ret)

  class LfqCtx {
    var heap: map<Ptr, Node>
    var head: Ptr
    var tail: Ptr
    var fph: Ptr
    var fpt: Ptr
    var isFreeing: bool
    var hp: array?<Ptr>
    var tidMap: array?<bool>
    var maxHpSize: nat

    // what the lists hold
    ghost var queue: seq<Ptr>
    ghost var unread: seq<Val>
    ghost var pool: seq<Ptr>

    ghost function Repr(): set<object>
      reads this
    {
      {this} + (if hp == null then {} else {hp}) + (if tidMap == null then {} else {tidMap})
    }

    /** The consumer slots exist. */
    ghost predicate HasSlots()
      reads this
    {
      hp != null && tidMap != null && 0 < maxHpSize && hp.Length == tidMap.Length == maxHpSize
    }

    /** No consumer is about: no hazard pointer is set, and the lock is open. */
    ghost predicate Alone()
      reads this, hp
    {
      hp != null && !isFreeing && forall i | 0 <= i < hp.Length :: hp[i] == NULL
    }

    ghost predicate PoolValid()
      reads this
    {
      && HasSlots() && 0 < |pool| && Chain(heap, pool)
      && fph == pool[0] && fpt == pool[|pool| - 1]
    }

    /** The lists are settled; other consumers may have set hazard pointers or hold the lock. */
    ghost predicate Quiet()
      reads this
    {
      && PoolValid() && Settled(heap, queue, unread, pool)
      && head == queue[0] && tail == queue[|queue| - 1]
    }

    /** Between two calls. */
    ghost predicate Valid()
      reads this, hp, tidMap
    {
      Quiet() && Alone() && forall i | 0 <= i < tidMap.Length :: !tidMap[i]
    }

    /** lfq_init; dummy and spare are the two addresses calloc returns. */
    constructor (maxConsumeThread: nat, dummy: Ptr, spare: Ptr)
      requires 0 < maxConsumeThread && 0 < dummy && 0 < spare && dummy != spare
      ensures Valid() && fresh(Repr())
      ensures unread == [] && queue == [dummy] && pool == [spare] && maxHpSize == maxConsumeThread
    {
      heap := map[dummy := Node(0, NULL, true), spare := Node(0, NULL, true)];
      maxHpSize := maxConsumeThread;
      hp := new Ptr[maxConsumeThread](_ => NULL);
      tidMap := new bool[maxConsumeThread](_ => false);
      head, tail := dummy, dummy;
      fph, fpt := spare, spare;
      isFreeing := false;
      queue, unread, pool := [dummy], [], [spare];
      new;
      InitSettled(dummy, spare);
    }

    /** An address that is not in the lists is not in use. */
    lemma Unused(a: Ptr)
      requires Valid() && a !in Elems(queue) && a !in Elems(pool)
      ensures a !in heap
    {
      SettledKeys(heap, queue, unread, pool);
    }

    /** lfq_enqueue; a is the address calloc returns. */
    method Enqueue(data: Val, a: Ptr)
      requires Quiet() && 0 < a && a !in heap
      modifies this`heap, this`tail, this`queue, this`unread
      ensures Quiet() && (old(Valid()) ==> Valid())
      ensures unread == old(unread) + [data] && queue == old(queue) + [a]
      ensures heap == Linked(old(heap), old(tail), a, data)
    {
      SettledEnqueue(heap, queue, unread, pool, a, data);
      heap := heap[a := Node(0, NULL, false)];
      heap := heap[a := heap[a].(data := data)];
      assert heap == old(heap)[a := Node(data, NULL, false)];
      var oldTail := tail;
      tail := a;
      heap := heap[oldTail := heap[oldTail].(next := a)];
      queue := queue + [a];
      unread := unread + [data];
    }

    /** What the hazard pointers are. */
    ghost predicate Hazards(hz: seq<Ptr>)
      reads this, hp
    {
      hp != null && |hz| == hp.Length && forall i | 0 <= i < |hz| :: hz[i] == hp[i]
    }

    /** inHP: some consumer announces that it reads lfn. */
    method InHP(lfn: Ptr, ghost hz: seq<Ptr>) returns (found: bool)
      requires HasSlots() && Hazards(hz)
      ensures found <==> lfn in hz
    {
      for i := 0 to maxHpSize
        invariant forall k | 0 <= k < i :: hz[k] != lfn
      {
        if hp[i] == lfn {
          assert hz[i] == lfn;
          return true;
        }
      }
      return false;
    }

    /** enpool: append lfn to the retired list. */
    method Enpool(lfn: Ptr)
      requires PoolValid() && lfn in heap && 0 < lfn && lfn !in Elems(pool)
      modifies this`heap, this`fpt, this`pool
      ensures PoolValid() && pool == old(pool) + [lfn]
      ensures heap == RetireHeap(old(heap), old(fpt), lfn, false)
    {
      EnpoolChain(heap, pool, lfn);
      heap := heap[lfn := heap[lfn].(next := NULL)];
      var oldTail := fpt;
      fpt := lfn;
      heap := heap[oldTail := heap[oldTail].(next := lfn)];
      pool := pool + [lfn];
    }

    /** The tests of free_pool on p. */
    method MayRelease(p: Ptr, ghost hz: seq<Ptr>) returns (ok: bool)
      requires HasSlots() && Hazards(hz) && p in heap
      ensures ok <==> heap[p].canFree && heap[p].next != NULL && p !in hz
    {
      var protected := InHP(p, hz);
      ok := heap[p].canFree && heap[p].next != NULL && !protected;
    }

    /** The loop of free_pool: it takes what may be released from the front of the list, and fph along. */
    method ReleaseFront(freeall: bool, ghost hz: seq<Ptr>) returns (ghost n: nat)
      requires PoolValid() && Hazards(hz)
      modifies this`heap, this`fph
      ensures n == Released(old(heap), pool, hz, freeall)
      ensures heap == Without(old(heap), pool[..n]) && fph == pool[n]
    {
      ghost var h0 := heap;
      var i := 0;
      while i < MAXFREE || freeall
        invariant i <= Releasable(h0, pool, hz) && (freeall || i <= MAXFREE) && Hazards(hz)
        invariant heap == Without(h0, pool[..i]) && fph == pool[i] && HasSlots()
        decreases Releasable(h0, pool, hz) - i
      {
        var p := fph;
        PoolTest(h0, pool, hz, i);
        var ok := MayRelease(p, hz);
        if !ok { break; }
        fph := heap[p].next;
        heap := heap - {p};
        i := i + 1;
      }
      n := i;
    }

    /**
     free_pool: unless another thread is at it, free marked nodes that no consumer reads from the front,
     at most MAXFREE unless freeall, never the last one.
     */
    method FreePool(freeall: bool, ghost hz: seq<Ptr>)
      requires PoolValid() && Hazards(hz)
      modifies this`heap, this`fph, this`pool, this`isFreeing
      ensures PoolValid() && isFreeing == old(isFreeing)
      ensures var n := if old(isFreeing) then 0 else Released(old(heap), old(pool), hz, freeall);
              pool == old(pool)[n..] && heap == Without(old(heap), old(pool)[..n])
    {
      if isFreeing { return; }
      isFreeing := true;
      ghost var n := ReleaseFront(freeall, hz);
      pool := RestOf(old(heap), pool, n);
      isFreeing := false;
    }

    /** safe_free: free a marked node that no consumer reads, else retire it; then tidy the retired list. */
    method SafeFree(lfn: Ptr, ghost hz: seq<Ptr>)
      requires PoolValid() && Hazards(hz) && lfn in heap && 0 < lfn && lfn !in Elems(pool)
      modifies this`heap, this`fph, this`fpt, this`pool, this`isFreeing
      ensures PoolValid() && isFreeing == old(isFreeing)
      ensures heap == HeapLeft(old(heap), old(pool), lfn, hz, old(isFreeing))
      ensures pool == PoolLeft(old(heap), old(pool), lfn, hz, old(isFreeing))
      ensures Reclaims(old(heap), old(pool), lfn, hz, old(isFreeing), heap, pool)
    {
      hide Reclaims;
      ChainMinus(heap, pool, {lfn});
      var inUse := InHP(lfn, hz);
      if heap[lfn].canFree && !inUse && !isFreeing {
        isFreeing := true;
        heap := heap[lfn := heap[lfn].(next := POISON)];
        heap := heap - {lfn};
        isFreeing := false;
        assert heap == old(heap) - {lfn};
      } else {
        Enpool(lfn);
      }
      FreePool(false, hz);
      Reclaimed(old(heap), old(pool), lfn, hz, old(isFreeing), heap, pool);
    }

    /** alloc_tid: the first free slot, or -1. */
    method AllocTid() returns (tid: int)
      requires HasSlots()
      modifies tidMap
      ensures -1 <= tid < maxHpSize
      ensures tid == -1 ==> forall i | 0 <= i < maxHpSize :: tidMap[i] && old(tidMap[i])
      ensures tid >= 0 ==> (forall i | 0 <= i < tid :: old(tidMap[i])) && !old(tidMap[tid]) && tidMap[tid]
      ensures forall i | 0 <= i < maxHpSize && i != tid :: tidMap[i] == old(tidMap[i])
    {
      for i := 0 to maxHpSize
        invariant forall k | 0 <= k < i :: tidMap[k]
        invariant forall k | 0 <= k < maxHpSize :: tidMap[k] == old(tidMap[k])
      {
        if !tidMap[i] {
          tidMap[i] := true;
          return i;
        }
      }
      return -1;
    }

    /** free_tid */
    method FreeTid(tid: nat)
      requires HasSlots() && tid < maxHpSize
      modifies tidMap
      ensures !tidMap[tid] && forall i | 0 <= i < maxHpSize && i != tid :: tidMap[i] == old(tidMap[i])
    {
      tidMap[tid] := false;
    }

    /** The end of lfq_dequeue_tid, once the CAS has moved head: read, mark, retire the old dummy. */
    method FinishDequeue(oldHead: Ptr, newHead: Ptr, ghost hz: seq<Ptr>) returns (v: Val)
      requires PoolValid() && Hazards(hz) && newHead in heap && Chain(Marked(heap, newHead), pool)
      requires 0 < oldHead && oldHead in heap && oldHead !in Elems(pool)
      modifies this`heap, this`fph, this`fpt, this`pool, this`isFreeing
      ensures PoolValid() && isFreeing == old(isFreeing) && v == old(heap)[newHead].data
      ensures heap == HeapLeft(Marked(old(heap), newHead), old(pool), oldHead, hz, old(isFreeing))
      ensures pool == PoolLeft(Marked(old(heap), newHead), old(pool), oldHead, hz, old(isFreeing))
      ensures Reclaims(Marked(old(heap), newHead), old(pool), oldHead, hz, old(isFreeing), heap, pool)
    {
      hide Reclaims;
      v := heap[newHead].data;
      heap := heap[newHead := heap[newHead].(canFree := true)];
      assert heap == Marked(old(heap), newHead);
      SafeFree(oldHead, hz);
    }

    /**
     What lfq_dequeue_tid does to the lists; hz are the hazard pointers that the others have set, and
     busy says that one of them holds the lock.
     */
    ghost predicate Dequeued(h: map<Ptr, Node>, q: seq<Ptr>, u: seq<Val>, p: seq<Ptr>, hz: seq<Ptr>, busy: bool,
            ret: Ret)
      requires 0 < |p|
      reads this
    {
      if u == [] then ret == Empty && unread == [] && queue == q && pool == p && heap == h
      else
        && ret == Got(u[0]) && unread == u[1..] && 1 < |q| && queue == q[1..]
        && heap == HeapLeft(Marked(h, q[1]), p, q[0], hz, busy)
        && pool == PoolLeft(Marked(h, q[1]), p, q[0], hz, busy)
    }

    /** The call that has moved head: it reads the value and retires the old dummy. */
    method Collect(oldHead: Ptr, newHead: Ptr, ghost hz: seq<Ptr>) returns (ret: Ret)
      requires PoolValid() && Hazards(hz) && unread != [] && 1 < |queue|
      requires queue[1] in heap && heap[queue[1]].data == unread[0] && Chain(Marked(heap, queue[1]), pool)
      requires 0 < queue[0] && queue[0] in heap && queue[0] !in Elems(pool)
      requires oldHead == queue[0] && newHead == queue[1]
      modifies this`heap, this`fph, this`fpt, this`pool, this`isFreeing, this`queue, this`unread
      ensures PoolValid() && isFreeing == old(isFreeing) && Hazards(hz)
      ensures Dequeued(old(heap), old(queue), old(unread), old(pool), hz, old(isFreeing), ret)
    {
      hide Reclaims;
      var v := FinishDequeue(oldHead, newHead, hz);
      queue, unread := queue[1..], unread[1..];
      ret := Got(v);
    }

    /** After either answer the lists are settled again. */
    lemma StillQuiet(h: map<Ptr, Node>, q: seq<Ptr>, u: seq<Val>, p: seq<Ptr>, hz: seq<Ptr>, busy: bool, ret: Ret)
      requires Settled(h, q, u, p) && Dequeued(h, q, u, p, hz, busy, ret) && PoolValid()
      requires head == (if u == [] || |q| <= 1 then q[0] else q[1]) && tail == q[|q| - 1]
      ensures Quiet()
    {
      if u != [] { SettledAfter(h, q, u, p, hz, busy, heap, pool); }
    }

    /** The same with what the lists are: it leaves them settled. */
    method Claimed(oldHead: Ptr, newHead: Ptr, ghost hz: seq<Ptr>) returns (ret: Ret)
      requires PoolValid() && Hazards(hz) && Settled(heap, queue, unread, pool) && 1 < |queue|
      requires oldHead == queue[0] && newHead == head == queue[1] && tail == queue[|queue| - 1]
      modifies this`heap, this`fph, this`fpt, this`pool, this`isFreeing, this`queue, this`unread
      ensures Quiet() && isFreeing == old(isFreeing) && Hazards(hz)
      ensures Dequeued(old(heap), old(queue), old(unread), old(pool), hz, old(isFreeing), ret)
    {
      ghost var h, q, u, p, busy := heap, queue, unread, pool, isFreeing;
      SettledFront(h, q, u, p);
      MarkedChain(h, p, q[1]);
      ret := Collect(oldHead, newHead, hz);
      StillQuiet(h, q, u, p, hz, busy, ret);
    }

    /** The loop of lfq_dequeue_tid: it leaves with the CAS won, or with newHead NULL. */
    method ClaimHead(tid: nat) returns (oldHead: Ptr, newHead: Ptr)
      requires Quiet() && tid < maxHpSize
      modifies this`head, hp
      ensures forall i | 0 <= i < hp.Length && i != tid :: hp[i] == old(hp[i])
      ensures newHead == NULL <==> |queue| == 1
      ensures if newHead == NULL then head == queue[0] else oldHead == queue[0] && newHead == head == queue[1]
    {
      QueueFront();
      oldHead, newHead := NULL, NULL;
      var done := false;
      while !done
        invariant forall i | 0 <= i < hp.Length && i != tid :: hp[i] == old(hp[i])
        invariant done ==> (newHead == NULL <==> |queue| == 1)
        invariant if done && newHead != NULL then oldHead == queue[0] && newHead == head == queue[1]
                  else head == queue[0]
        decreases !done
      {
        oldHead := head;
        hp[tid] := oldHead;
        if oldHead == head {
          newHead := heap[oldHead].next;
          if newHead == NULL {
            done := true;
          } else if head == oldHead {
            head := newHead;
            done := true;
          }
        }
      }
    }

    /** The consumer takes its hazard pointer down; hz are all of them then. */
    method Unprotect(tid: nat) returns (ghost hz: seq<Ptr>)
      requires HasSlots() && tid < maxHpSize
      modifies hp
      ensures Hazards(hz) && hp[tid] == NULL && forall i | 0 <= i < hp.Length && i != tid :: hp[i] == old(hp[i])
    {
      hp[tid] := NULL;
      hz := hp[..];
    }

    /**
     lfq_dequeue_tid, for a caller whom no other call overtakes, whatever hazard pointers the others have
     set; hz are all hazard pointers afterwards.
     */
    method DequeueTid(tid: nat) returns (ret: Ret, ghost hz: seq<Ptr>)
      requires Quiet() && tid < maxHpSize
      modifies this`heap, this`head, this`fph, this`fpt, this`pool, this`isFreeing, this`queue, this`unread, hp
      ensures Quiet() && isFreeing == old(isFreeing) && Hazards(hz)
      ensures hp[tid] == NULL && forall i | 0 <= i < hp.Length && i != tid :: hp[i] == old(hp[i])
      ensures Dequeued(old(heap), old(queue), old(unread), old(pool), hz, old(isFreeing), ret)
      ensures old(unread) != [] ==>
                Reclaims(old(heap), old(pool), old(queue[0]), hz, old(isFreeing), heap, pool)
    {
      hide Reclaims;
      ghost var h, q, u, p, busy := heap, queue, unread, pool, isFreeing;
      QueueFront();
      var oldHead, newHead := ClaimHead(tid);
      hz := Unprotect(tid);
      assert Hazards(hz) && isFreeing == old(isFreeing) && heap == old(heap);
      assert queue == old(queue) && unread == old(unread) && pool == old(pool);
      if newHead == NULL {
        assert unread == [];
        return Empty, hz;
      }
      ret := Claimed(oldHead, newHead, hz);
      DequeueReclaims(h, q, u, p, hz, busy, heap, pool);
    }

    /** What the first node of the queue says. */
    lemma QueueFront()
      requires Quiet()
      ensures queue[0] in heap && heap[queue[0]].next == (if 1 < |queue| then queue[1] else NULL)
      ensures 1 < |queue| ==> queue[1] != NULL
      ensures |queue| == |unread| + 1
    {
      HoldsSize(heap, queue[1..], unread);
      ChainAt(heap, queue, 0);
      if 1 < |queue| { ChainAt(heap, queue, 1); }
    }

    /** lfq_dequeue: it answers -1 exactly if every slot is taken. */
    method Dequeue() returns (answer: Answer, ghost hz: seq<Ptr>)
      requires Quiet()
      modifies this`heap, this`head, this`fph, this`fpt, this`pool, this`isFreeing, this`queue, this`unread, hp, tidMap
      ensures Quiet() && isFreeing == old(isFreeing) && Hazards(hz)
      ensures forall i | 0 <= i < maxHpSize :: tidMap[i] == old(tidMap[i]) && (hp[i] == old(hp[i]) || hp[i] == NULL)
      ensures answer == NoSlot <==> forall i | 0 <= i < maxHpSize :: tidMap[i]
      ensures answer == NoSlot ==>
                unread == old(unread) && queue == old(queue) && pool == old(pool) && heap == old(heap)
      ensures answer != NoSlot ==>
                Dequeued(old(heap), old(queue), old(unread), old(pool), hz, old(isFreeing), answer.ret)
      ensures answer != NoSlot && old(unread) != [] ==>
                Reclaims(old(heap), old(pool), old(queue[0]), hz, old(isFreeing), heap, pool)
    {
      hide Reclaims;
      hz := hp[..];
      var tid := AllocTid();
      if tid == -1 { return NoSlot, hz; }
      var ret;
      ret, hz := DequeueTid(tid);
      FreeTid(tid);
      assert !tidMap[tid];
      answer := Answer(ret);
    }

    /** The same for the only caller: there is a slot, and a value if any is unread. */
    method DequeueAlone() returns (ret: Ret)
      requires Valid()
      modifies this`heap, this`head, this`fph, this`fpt, this`pool, this`isFreeing, this`queue, this`unread, hp, tidMap
      ensures Valid()
      ensures ret == if old(unread) == [] then Empty else Got(old(unread)[0])
      ensures unread == if old(unread) == [] then [] else old(unread)[1..]
    {
      var answer, _ := Dequeue();
      assert !tidMap[0];
      ret := answer.ret;
    }

    /** lfg_count_freelist */
    method CountFreelist() returns (count: nat)
      requires PoolValid()
      ensures count == |pool|
    {
      count := 0;
      var p := fph;
      while p != NULL
        invariant count <= |pool| && p == if count < |pool| then pool[count] else NULL
        decreases |pool| - count
      {
        ChainAt(heap, pool, count);
        if count + 1 < |pool| { ChainAt(heap, pool, count + 1); }
        count := count + 1;
        p := heap[p].next;
      }
      if count < |pool| { ChainAt(heap, pool, count); }
    }

    /** One turn of the first loop of lfq_clean. */
    method CleanOne(ghost hz: seq<Ptr>)
      requires PoolValid() && !isFreeing && Hazards(hz) && head in heap && 0 < head && head !in Elems(pool)
      modifies this`heap, this`head, this`fph, this`fpt, this`pool, this`isFreeing
      ensures PoolValid() && !isFreeing && head == old(heap[head].next)
      ensures heap == HeapLeft(old(heap), old(pool), old(head), hz, false)
      ensures pool == PoolLeft(old(heap), old(pool), old(head), hz, false)
    {
      hide Reclaims;
      var tmp := heap[head].next;
      SafeFree(head, hz);
      head := tmp;
    }

    /** The first loop of lfq_clean: every node of the queue goes through safe_free. */
    method CleanQueue(ghost q: seq<Ptr>, ghost u: seq<Val>, ghost hz: seq<Ptr>) returns (ghost front: seq<Ptr>)
      requires PoolValid() && !isFreeing && Hazards(hz) && NoneHeld(hz) && 0 < |q| && head == q[0] && 0 < q[0]
      requires Cleaning(heap, q, u, 0, pool, pool)
      modifies this`heap, this`head, this`fph, this`fpt, this`pool, this`isFreeing
      ensures PoolValid() && !isFreeing && head == NULL
      ensures Cleaning(heap, q, u, |q|, front, pool)
    {
      ghost var i, h, p := 0, heap, pool;
      front := pool;
      while head != NULL
        invariant PoolValid() && !isFreeing && Hazards(hz) && i <= |q| && heap == h && pool == p
        invariant Cleaning(h, q, u, i, front, p)
        invariant head == (if i < |q| then q[i] else NULL) && (i < |q| ==> 0 < q[i])
        decreases |q| - i
      {
        ghost var n := CleaningRound(h, q, u, i, front, p, hz);
        CleanOne(hz);
        h, p := HeapLeft(h, p, q[i], hz, false), PoolLeft(h, p, q[i], hz, false);
        i, front := i + 1, front[n..];
      }
    }

    /** The rest of lfq_clean: the retired list, then the slots. */
    method CleanPool(ghost q: seq<Ptr>, ghost u: seq<Val>, ghost front: seq<Ptr>, ghost hz: seq<Ptr>) returns (r: int)
      requires PoolValid() && !isFreeing && Hazards(hz) && NoneHeld(hz) && Cleaning(heap, q, u, |q|, front, pool)
      modifies this`heap, this`fph, this`fpt, this`pool, this`isFreeing, this`hp, this`tidMap, this`maxHpSize
      ensures |u| <= 1 ==>
                r == 0 && heap == map[] && hp == null && tidMap == null && maxHpSize == 0 && fph == fpt == NULL
      ensures |u| > 1 ==>
                r == -1 && PoolValid() && pool == q[1..] && Holds(heap, pool, u) && heap.Keys == Elems(pool)
    {
      CleaningEnd(heap, q, u, front, pool, hz);
      FreePool(true, hz);
      if fph != fpt { return -1; }
      heap := heap - {fpt};
      fph, fpt, pool := NULL, NULL, [];
      hp, tidMap := null, null;
      isFreeing, maxHpSize := false, 0;
      return 0;
    }

    /** lfq_clean: 0 with everything freed, or -1 with the unread nodes left on the retired list. */
    method Clean() returns (r: int)
      requires Valid()
      modifies this
      ensures head == tail == NULL
      ensures |old(unread)| <= 1 ==>
                r == 0 && heap == map[] && hp == null && tidMap == null && maxHpSize == 0 && fph == fpt == NULL
      ensures |old(unread)| > 1 ==>
                && r == -1 && PoolValid() && pool == old(queue)[1..] && Holds(heap, pool, old(unread))
                && heap.Keys == Elems(pool)
    {
      CleaningStart(heap, queue, unread, pool);
      ghost var hz := hp[..];
      ghost var front := CleanQueue(queue, unread, hz);
      tail := NULL;
      r := CleanPool(queue, unread, front, hz);
      queue, unread := [], [];
    }
  }
}
