/**
 An empty answer does not mean that the queue is empty: two runs in which lfq_dequeue answers "empty"
 although values are in the queue whose lfq_enqueue has returned.
 */
module LfqEmpty {
  import opened LfqModel

  lemma RunSnoc(s: State, sched: seq<Move>, m: Move)
    ensures RunFrom(s, sched + [m]) == Exec(RunFrom(s, sched), m.t, m.c)
  {
    assert (sched + [m])[..|sched|] == sched;
  }

  lemma {:induction false} RunConcat(s: State, a: seq<Move>, b: seq<Move>)
    ensures RunFrom(s, a + b) == RunFrom(RunFrom(s, a), b)
  {
    if b == [] {
      assert a + b == a;
    } else {
      var rest, last := b[..|b| - 1], b[|b| - 1];
      RunConcat(s, a, rest);
      assert (a + b)[..|a + b| - 1] == a + rest && (a + b)[|a + b| - 1] == last;
    }
  }

  const GO := Choice.Go

  predicate NoEnqueue(sched: seq<Move>) {
    forall k | 0 <= k < |sched| :: !sched[k].c.StartEnq?
  }

  /** One more move, which is no enqueue. */
  lemma Then(s: State, sched: seq<Move>, s1: State, t: nat, c: Choice) returns (longer: seq<Move>)
    requires RunFrom(s, sched) == s1 && NoEnqueue(sched) && !c.StartEnq?
    ensures RunFrom(s, longer) == Exec(s1, t, c) && NoEnqueue(longer)
  {
    RunSnoc(s, sched, Move(t, c));
    longer := sched + [Move(t, c)];
  }

  /** One more move of a schedule that starts an enqueue. */
  lemma Also(s: State, sched: seq<Move>, s1: State, t: nat, c: Choice, m: Move) returns (longer: seq<Move>)
    requires RunFrom(s, sched) == s1 && (m in sched || m == Move(t, c))
    ensures RunFrom(s, longer) == Exec(s1, t, c) && m in longer
  {
    RunSnoc(s, sched, Move(t, c));
    longer := sched + [Move(t, c)];
  }

  /** A run continued. */
  lemma Onward(s: State, a: seq<Move>, s1: State, b: seq<Move>, s2: State) returns (both: seq<Move>)
    requires RunFrom(s, a) == s1 && RunFrom(s1, b) == s2 && NoEnqueue(a) && NoEnqueue(b)
    ensures RunFrom(s, both) == s2 && NoEnqueue(both)
  {
    RunConcat(s, a, b);
    both := a + b;
  }

  /** The same for two schedules that each start an enqueue. */
  lemma Along(s: State, a: seq<Move>, s1: State, b: seq<Move>, s2: State, m: Move, n: Move) returns (both: seq<Move>)
    requires RunFrom(s, a) == s1 && RunFrom(s1, b) == s2 && m in a && n in b
    ensures RunFrom(s, both) == s2 && m in both && n in both
  {
    RunConcat(s, a, b);
    both := a + b;
  }

  /** The next step of thread t ends its lfq_dequeue with the answer ret. */
  predicate Returning(s: State, t: nat, ret: Ret) {
    && t < |s.pcs| && !Dangling(s, s.pcs[t])
    && Next(s, s.pcs[t], GO).e.Leave? && Next(s, s.pcs[t], GO).e.ret == ret && Next(s, s.pcs[t], GO).pc == Idle
  }

  // ---- lfq_enqueue, step by step ----

  lemma Enqueues(s: State, t: nat, d: Val, a: Ptr)
    requires t < |s.pcs|
    ensures s.pcs[t] == Idle && 0 < a && a !in s.heap ==>
              Exec(s, t, StartEnq(d, a))
              == s.(heap := s.heap[a := Node(0, NULL, false)], pcs := s.pcs[t := EnqData(a, d)])
    ensures s.pcs[t] == EnqData(a, d) && a in s.heap ==>
              Exec(s, t, GO) == s.(heap := s.heap[a := s.heap[a].(data := d)], pcs := s.pcs[t := EnqXchg(a, d)])
    ensures s.pcs[t] == EnqXchg(a, d) ==> Exec(s, t, GO) == s.(tail := a, pcs := s.pcs[t := EnqLink(s.tail, a)])
  {
  }

  lemma Links(s: State, t: nat, ot: Ptr, a: Ptr)
    requires t < |s.pcs| && s.pcs[t] == EnqLink(ot, a) && ot in s.heap
    ensures Exec(s, t, GO) == s.(heap := s.heap[ot := s.heap[ot].(next := a)], pcs := s.pcs[t := Idle])
  {
  }

  /** A thread has exchanged tail for its node, but not linked it. */
  lemma Stalled(s: State, t: nat, d: Val, a: Ptr) returns (sched: seq<Move>)
    requires t < |s.pcs| && s.pcs[t] == Idle && 0 < a && a !in s.heap
    ensures Move(t, StartEnq(d, a)) in sched
    ensures RunFrom(s, sched) ==
            s.(heap := s.heap[a := Node(d, NULL, false)], tail := a, pcs := s.pcs[t := EnqLink(s.tail, a)])
  {
    var m := Move(t, StartEnq(d, a));
    Enqueues(s, t, d, a);
    sched := Also(s, [], s, t, StartEnq(d, a), m);
    var s1 := s.(heap := s.heap[a := Node(0, NULL, false)], pcs := s.pcs[t := EnqData(a, d)]);
    Enqueues(s1, t, d, a);
    sched := Also(s, sched, s1, t, GO, m);
    var s2 := s.(heap := s.heap[a := Node(d, NULL, false)], pcs := s.pcs[t := EnqXchg(a, d)]);
    assert s2 == Exec(s1, t, GO);
    Enqueues(s2, t, d, a);
    sched := Also(s, sched, s2, t, GO, m);
  }

  /** A complete enqueue: the thread is idle again. */
  lemma Completed(s: State, t: nat, d: Val, a: Ptr) returns (sched: seq<Move>)
    requires t < |s.pcs| && s.pcs[t] == Idle && 0 < a && a !in s.heap && s.tail in s.heap
    ensures Move(t, StartEnq(d, a)) in sched
    ensures RunFrom(s, sched) ==
            s.(heap := s.heap[a := Node(d, NULL, false)][s.tail := s.heap[s.tail].(next := a)], tail := a)
  {
    sched := Stalled(s, t, d, a);
    var s1 := RunFrom(s, sched);
    Links(s1, t, s.tail, a);
    sched := Also(s, sched, s1, t, GO, Move(t, StartEnq(d, a)));
    assert s1.pcs[t := Idle] == s.pcs;
  }

  // ---- lfq_dequeue, step by step ----

  lemma Begins(s: State, t: nat, i: nat)
    requires t < |s.pcs| && i < |s.tidMap| == |s.hp|
    ensures s.pcs[t] == Idle ==> Exec(s, t, StartDeq) == s.(pcs := s.pcs[t := TidRead(0)])
    ensures s.pcs[t] == TidRead(i) ==>
              Exec(s, t, GO) == s.(pcs := s.pcs[t := if s.tidMap[i] then TidRead(i + 1) else TidCas(i)])
    ensures s.pcs[t] == TidCas(i) && !s.tidMap[i] ==>
              Exec(s, t, GO) == s.(tidMap := s.tidMap[i := true], pcs := s.pcs[t := Run(i, ReadHead)])
    ensures s.pcs[t] == Run(i, ReadHead) ==> Exec(s, t, GO) == s.(pcs := s.pcs[t := Run(i, Publish(s.head))])
  {
  }

  lemma Tries(s: State, t: nat, i: nat, oh: Ptr)
    requires t < |s.pcs| && i < |s.tidMap| == |s.hp|
    ensures s.pcs[t] == Run(i, Publish(oh)) ==>
              Exec(s, t, GO) == s.(hp := s.hp[i := oh], pcs := s.pcs[t := Run(i, Validate(oh))])
    ensures s.pcs[t] == Run(i, Validate(oh)) && oh == s.head ==>
              Exec(s, t, GO) == s.(pcs := s.pcs[t := Run(i, ReadNext(oh))])
    ensures s.pcs[t] == Run(i, ReadNext(oh)) && oh in s.heap ==>
              Exec(s, t, GO) ==
              var nh := s.heap[oh].next;
              s.(pcs := s.pcs[t := Run(i, if nh == NULL then ClearEmpty(oh) else CasHead(oh, nh))])
  {
  }

  lemma Answers(s: State, t: nat, i: nat, oh: Ptr)
    requires t < |s.pcs| && i < |s.tidMap| == |s.hp|
    ensures s.pcs[t] == Run(i, ClearEmpty(oh)) ==>
              Exec(s, t, GO) == s.(hp := s.hp[i := NULL], pcs := s.pcs[t := Run(i, Release(Empty))])
    ensures s.pcs[t] == Run(i, Release(Empty)) ==> Returning(s, t, Empty)
  {
  }

  lemma Wins(s: State, t: nat, i: nat, oh: Ptr, nh: Ptr)
    requires t < |s.pcs| && i < |s.tidMap| == |s.hp|
    ensures s.pcs[t] == Run(i, CasHead(oh, nh)) && s.head == oh ==>
              Exec(s, t, GO) == s.(head := nh, pcs := s.pcs[t := Run(i, ClearHp(oh, nh))])
    ensures s.pcs[t] == Run(i, ClearHp(oh, nh)) ==>
              Exec(s, t, GO) == s.(hp := s.hp[i := NULL], pcs := s.pcs[t := Run(i, ReadData(oh, nh))])
    ensures s.pcs[t] == Run(i, ReadData(oh, nh)) && nh in s.heap ==>
              Exec(s, t, GO) == s.(pcs := s.pcs[t := Run(i, SetCanFree(oh, nh, s.heap[nh].data))])
  {
  }

  lemma Marks(s: State, t: nat, i: nat, oh: Ptr, nh: Ptr, v: Val)
    requires t < |s.pcs| && i < |s.tidMap| == |s.hp| && s.pcs[t] == Run(i, SetCanFree(oh, nh, v)) && nh in s.heap
    ensures Exec(s, t, GO) ==
            s.(heap := s.heap[nh := s.heap[nh].(canFree := true)], pcs := s.pcs[t := At(i, v, SfCheck(oh))])
  {
  }

  lemma Retires(s: State, t: nat, i: nat, x: Ptr, v: Val)
    requires t < |s.pcs| && i < |s.tidMap| == |s.hp| && x in s.heap
    ensures s.pcs[t] == At(i, v, SfCheck(x)) && s.heap[x].canFree ==>
              Exec(s, t, GO) == s.(pcs := s.pcs[t := At(i, v, SfScan(x, 0))])
    ensures s.pcs[t] == At(i, v, SfScan(x, 0)) && s.hp[0] == x ==>
              Exec(s, t, GO) == s.(pcs := s.pcs[t := At(i, v, EpNull(x))])
    ensures s.pcs[t] == At(i, v, EpNull(x)) ==>
              Exec(s, t, GO) ==
              s.(heap := s.heap[x := s.heap[x].(next := NULL)], pcs := s.pcs[t := At(i, v, EpXchg(x))])
  {
  }

  // ---- Stages of a dequeue ----

  /** The thread takes the free slot it is at, and reads head. */
  lemma Slotted(s: State, t: nat, i: nat) returns (sched: seq<Move>)
    requires t < |s.pcs| && s.pcs[t] == TidRead(i) && i < |s.tidMap| == |s.hp| && !s.tidMap[i]
    ensures NoEnqueue(sched)
    ensures RunFrom(s, sched) == s.(tidMap := s.tidMap[i := true], pcs := s.pcs[t := Run(i, Publish(s.head))])
  {
    Begins(s, t, i);
    sched := Then(s, [], s, t, GO);
    var s1 := s.(pcs := s.pcs[t := TidCas(i)]);
    Begins(s1, t, i);
    sched := Then(s, sched, s1, t, GO);
    var s2 := s.(tidMap := s.tidMap[i := true], pcs := s.pcs[t := Run(i, ReadHead)]);
    Begins(s2, t, i);
    sched := Then(s, sched, s2, t, GO);
  }

  /** It publishes and validates head. */
  lemma Validated(s: State, t: nat, i: nat) returns (sched: seq<Move>)
    requires t < |s.pcs| && s.pcs[t] == Run(i, Publish(s.head)) && i < |s.tidMap| == |s.hp|
    ensures NoEnqueue(sched)
    ensures RunFrom(s, sched) == s.(hp := s.hp[i := s.head], pcs := s.pcs[t := Run(i, ReadNext(s.head))])
  {
    Tries(s, t, i, s.head);
    sched := Then(s, [], s, t, GO);
    var s1 := s.(hp := s.hp[i := s.head], pcs := s.pcs[t := Run(i, Validate(s.head))]);
    Tries(s1, t, i, s.head);
    sched := Then(s, sched, s1, t, GO);
  }

  /** It reads NULL, and its next step returns "empty". */
  lemma Answered(s: State, t: nat, i: nat, oh: Ptr) returns (sched: seq<Move>)
    requires t < |s.pcs| && s.pcs[t] == Run(i, ReadNext(oh)) && i < |s.tidMap| == |s.hp|
    requires oh in s.heap && s.heap[oh].next == NULL
    ensures NoEnqueue(sched)
    ensures RunFrom(s, sched) == s.(hp := s.hp[i := NULL], pcs := s.pcs[t := Run(i, Release(Empty))])
  {
    Tries(s, t, i, oh);
    sched := Then(s, [], s, t, GO);
    var s1 := s.(pcs := s.pcs[t := Run(i, ClearEmpty(oh))]);
    Answers(s1, t, i, oh);
    sched := Then(s, sched, s1, t, GO);
  }

  /** It reads a successor and wins the CAS. */
  lemma Claims(s: State, t: nat, i: nat, nh: Ptr) returns (sched: seq<Move>)
    requires t < |s.pcs| && s.pcs[t] == Run(i, ReadNext(s.head)) && i < |s.tidMap| == |s.hp|
    requires s.head in s.heap && s.heap[s.head].next == nh != NULL
    ensures NoEnqueue(sched)
    ensures RunFrom(s, sched) == s.(head := nh, pcs := s.pcs[t := Run(i, ClearHp(s.head, nh))])
  {
    var oh := s.head;
    Tries(s, t, i, oh);
    sched := Then(s, [], s, t, GO);
    var s1 := s.(pcs := s.pcs[t := Run(i, CasHead(oh, nh))]);
    Wins(s1, t, i, oh, nh);
    sched := Then(s, sched, s1, t, GO);
  }

  /** It gives up its hazard pointer and reads the value. */
  lemma Reads(s: State, t: nat, i: nat, oh: Ptr, nh: Ptr) returns (sched: seq<Move>)
    requires t < |s.pcs| && s.pcs[t] == Run(i, ClearHp(oh, nh)) && i < |s.tidMap| == |s.hp| && nh in s.heap
    ensures NoEnqueue(sched)
    ensures RunFrom(s, sched) ==
            s.(hp := s.hp[i := NULL], pcs := s.pcs[t := Run(i, SetCanFree(oh, nh, s.heap[nh].data))])
  {
    Wins(s, t, i, oh, nh);
    sched := Then(s, [], s, t, GO);
    var s1 := s.(hp := s.hp[i := NULL], pcs := s.pcs[t := Run(i, ReadData(oh, nh))]);
    Wins(s1, t, i, oh, nh);
    sched := Then(s, sched, s1, t, GO);
  }

  /** It marks the new dummy and turns to the old one. */
  lemma Marked(s: State, t: nat, i: nat, oh: Ptr, nh: Ptr, v: Val) returns (sched: seq<Move>)
    requires t < |s.pcs| && s.pcs[t] == Run(i, SetCanFree(oh, nh, v)) && i < |s.tidMap| == |s.hp| && nh in s.heap
    ensures NoEnqueue(sched)
    ensures RunFrom(s, sched) ==
            s.(heap := s.heap[nh := s.heap[nh].(canFree := true)], pcs := s.pcs[t := At(i, v, SfCheck(oh))])
  {
    Marks(s, t, i, oh, nh, v);
    sched := Then(s, [], s, t, GO);
  }

  /** Slot 0 protects the old dummy, so enpool takes it, and sets its free_next to NULL. */
  lemma Retired(s: State, t: nat, i: nat, oh: Ptr, v: Val) returns (sched: seq<Move>)
    requires t < |s.pcs| && s.pcs[t] == At(i, v, SfCheck(oh)) && i < |s.tidMap| == |s.hp|
    requires oh in s.heap && s.heap[oh].canFree && s.hp[0] == oh
    ensures NoEnqueue(sched)
    ensures RunFrom(s, sched) ==
            s.(heap := s.heap[oh := s.heap[oh].(next := NULL)], pcs := s.pcs[t := At(i, v, EpXchg(oh))])
  {
    Retires(s, t, i, oh, v);
    sched := Then(s, [], s, t, GO);
    var s1 := s.(pcs := s.pcs[t := At(i, v, SfScan(oh, 0))]);
    Retires(s1, t, i, oh, v);
    sched := Then(s, sched, s1, t, GO);
    var s2 := s.(pcs := s.pcs[t := At(i, v, EpNull(oh))]);
    Retires(s2, t, i, oh, v);
    sched := Then(s, sched, s2, t, GO);
  }

  // ---- The enqueuer in front has not linked ----

  /**
   From lfq_init on, schedule a: 7 has its place but is not linked, and the enqueue of 8 has returned.
   Then schedule b, in which nothing else runs: lfq_dequeue returns "empty" with both in the queue.
   */
  lemma FalseEmpty() returns (a: seq<Move>, b: seq<Move>)
    ensures var s := RunFrom(Init(1, 2, 1, 2), a);
            && Move(1, StartEnq(8, 4)) in a && s.pcs == [EnqLink(1, 3), Idle] && s.head == 1 && s.tail == 4
            && 3 in s.heap && 4 in s.heap && s.heap[3] == Node(7, 4, false) && s.heap[4] == Node(8, NULL, false)
    ensures NoEnqueue(b)
    ensures var s := RunFrom(Init(1, 2, 1, 2), a + b);
            |s.pcs| == 2 && s.pcs[0] == EnqLink(1, 3) && Returning(s, 1, Empty) && s.head == 1 && s.tail == 4
  {
    var s0 := Init(1, 2, 1, 2);
    assert s0.pcs == [Idle, Idle] && s0.tidMap == [false] && s0.hp == [NULL];
    var a1 := Stalled(s0, 0, 7, 3);
    var s1 := RunFrom(s0, a1);
    var a2 := Completed(s1, 1, 8, 4);
    var s2 := RunFrom(s1, a2);
    a := Along(s0, a1, s1, a2, s2, Move(0, StartEnq(7, 3)), Move(1, StartEnq(8, 4)));
    b := EmptyAnswer(s2, 1);
    RunConcat(s0, a, b);
    Answers(RunFrom(s2, b), 1, 0, 1);
  }

  /** A dequeue in slot 0 that reads NULL, up to its return. */
  lemma EmptyAnswer(s: State, t: nat) returns (sched: seq<Move>)
    requires t < |s.pcs| && s.pcs[t] == Idle && 0 < |s.tidMap| == |s.hp| && !s.tidMap[0]
    requires s.head in s.heap && s.heap[s.head].next == NULL
    ensures NoEnqueue(sched)
    ensures RunFrom(s, sched) ==
            s.(hp := s.hp[0 := NULL], tidMap := s.tidMap[0 := true], pcs := s.pcs[t := Run(0, Release(Empty))])
  {
    sched := Guarded(s, t);
    var s1 := RunFrom(s, sched);
    var more := Answered(s1, t, 0, s.head);
    sched := Onward(s, sched, s1, more, RunFrom(s1, more));
  }

  /** A dequeue in slot 0 up to its read of next. */
  lemma Guarded(s: State, t: nat) returns (sched: seq<Move>)
    requires t < |s.pcs| && s.pcs[t] == Idle && 0 < |s.tidMap| == |s.hp| && !s.tidMap[0]
    ensures NoEnqueue(sched)
    ensures RunFrom(s, sched) ==
            s.(hp := s.hp[0 := s.head], tidMap := s.tidMap[0 := true], pcs := s.pcs[t := Run(0, ReadNext(s.head))])
  {
    Begins(s, t, 0);
    sched := Then(s, [], s, t, StartDeq);
    var s1 := s.(pcs := s.pcs[t := TidRead(0)]);
    var more := Slotted(s1, t, 0);
    var s2 := s.(tidMap := s.tidMap[0 := true], pcs := s.pcs[t := Run(0, Publish(s.head))]);
    sched := Onward(s, sched, s1, more, s2);
    more := Validated(s2, t, 0);
    sched := Onward(s, sched, s2, more, RunFrom(s2, more));
  }

  // ---- Another dequeuer retires the node ----

  /** While slot 0 protects head, a dequeue in slot 1 moves head on and reads the value ... */
  lemma Takes(s: State, t: nat, nh: Ptr) returns (sched: seq<Move>)
    requires t < |s.pcs| && s.pcs[t] == Idle && s.tidMap == [true, false] && |s.hp| == 2
    requires s.head in s.heap && nh in s.heap && s.heap[s.head].next == nh && nh != NULL
    ensures NoEnqueue(sched)
    ensures RunFrom(s, sched) ==
            s.(head := nh, hp := s.hp[1 := NULL], tidMap := [true, true],
               pcs := s.pcs[t := Run(1, SetCanFree(s.head, nh, s.heap[nh].data))])
  {
    sched := GuardedSecond(s, t);
    var s1 := RunFrom(s, sched);
    var more := Claims(s1, t, 1, nh);
    var s2 := RunFrom(s1, more);
    sched := Onward(s, sched, s1, more, s2);
    more := Reads(s2, t, 1, s.head, nh);
    sched := Onward(s, sched, s2, more, RunFrom(s2, more));
  }

  /** ... and starts to retire the old dummy. */
  lemma Overtaken(s: State, t: nat, nh: Ptr) returns (sched: seq<Move>)
    requires t < |s.pcs| && s.pcs[t] == Idle && s.tidMap == [true, false] && |s.hp| == 2 && s.hp[0] == s.head
    requires s.head in s.heap && nh in s.heap && s.heap[s.head].next == nh && nh != NULL && nh != s.head
    requires s.heap[s.head].canFree
    ensures NoEnqueue(sched)
    ensures RunFrom(s, sched) ==
            s.(heap := s.heap[nh := s.heap[nh].(canFree := true)][s.head := s.heap[s.head].(next := NULL)], head := nh,
               hp := s.hp[1 := NULL], tidMap := [true, true], pcs := s.pcs[t := At(1, s.heap[nh].data, EpXchg(s.head))])
  {
    var oh, v := s.head, s.heap[nh].data;
    sched := Takes(s, t, nh);
    var s3 := s.(head := nh, hp := s.hp[1 := NULL], tidMap := [true, true],
                 pcs := s.pcs[t := Run(1, SetCanFree(oh, nh, v))]);
    var more := Marked(s3, t, 1, oh, nh, v);
    var s4 := s3.(heap := s.heap[nh := s.heap[nh].(canFree := true)], pcs := s.pcs[t := At(1, v, SfCheck(oh))]);
    sched := Onward(s, sched, s3, more, s4);
    more := Retired(s4, t, 1, oh, v);
    sched := Onward(s, sched, s4, more, RunFrom(s4, more));
  }

  /** A dequeue that finds slot 0 taken goes on to slot 1. */
  lemma Passes(s: State, t: nat) returns (sched: seq<Move>)
    requires t < |s.pcs| && s.pcs[t] == Idle && s.tidMap == [true, false] && |s.hp| == 2
    ensures NoEnqueue(sched)
    ensures RunFrom(s, sched) == s.(pcs := s.pcs[t := TidRead(1)])
  {
    Begins(s, t, 0);
    sched := Then(s, [], s, t, StartDeq);
    var s1 := s.(pcs := s.pcs[t := TidRead(0)]);
    Begins(s1, t, 0);
    sched := Then(s, sched, s1, t, GO);
  }

  /** ... and takes it, up to its read of next. */
  lemma GuardedSecond(s: State, t: nat) returns (sched: seq<Move>)
    requires t < |s.pcs| && s.pcs[t] == Idle && s.tidMap == [true, false] && |s.hp| == 2
    ensures NoEnqueue(sched)
    ensures RunFrom(s, sched) ==
            s.(hp := s.hp[1 := s.head], tidMap := [true, true], pcs := s.pcs[t := Run(1, ReadNext(s.head))])
  {
    sched := Passes(s, t);
    var s1 := s.(pcs := s.pcs[t := TidRead(1)]);
    var more := Slotted(s1, t, 1);
    var s2 := s.(tidMap := [true, true], pcs := s.pcs[t := Run(1, Publish(s.head))]);
    sched := Onward(s, sched, s1, more, s2);
    more := Validated(s2, t, 1);
    sched := Onward(s, sched, s2, more,
      s.(hp := s.hp[1 := s.head], tidMap := [true, true], pcs := s.pcs[t := Run(1, ReadNext(s.head))]));
  }

  /**
   From lfq_init on, schedule a: the enqueues of 7 and of 8 have returned.  Then schedule b, with no
   enqueue: one dequeue takes 7, and another returns "empty" with 8 unread.
   */
  lemma RetiredEmpty() returns (a: seq<Move>, b: seq<Move>)
    ensures var s := RunFrom(Init(1, 2, 2, 2), a);
            && Move(0, StartEnq(7, 3)) in a && Move(0, StartEnq(8, 4)) in a && s.pcs == [Idle, Idle]
            && s.head == 1 && s.tail == 4
    ensures NoEnqueue(b)
    ensures var s := RunFrom(Init(1, 2, 2, 2), a + b);
            && s.head == 3 && s.tail == 4 && 3 in s.heap && 4 in s.heap
            && s.heap[3].next == 4 && s.heap[4] == Node(8, NULL, false)
            && |s.pcs| == 2 && Returning(s, 0, Empty) && s.pcs[1] == At(1, 7, EpXchg(1))
  {
    var s0 := Init(1, 2, 2, 2);
    assert s0.pcs == [Idle, Idle] && s0.tidMap == [false, false] && s0.hp == [NULL, NULL];
    var a1 := Completed(s0, 0, 7, 3);
    var s1 := RunFrom(s0, a1);
    var a2 := Completed(s1, 0, 8, 4);
    var s2 := RunFrom(s1, a2);
    a := Along(s0, a1, s1, a2, s2, Move(0, StartEnq(7, 3)), Move(0, StartEnq(8, 4)));
    var b1 := Guarded(s2, 0);
    var s3 := RunFrom(s2, b1);
    var b2 := Overtaken(s3, 1, 3);
    var s4 := RunFrom(s3, b2);
    b := Onward(s2, b1, s3, b2, s4);
    var b3 := Answered(s4, 0, 0, 1);
    b := Onward(s2, b, s4, b3, RunFrom(s4, b3));
    RunConcat(s0, a, b);
    Answers(RunFrom(s2, b), 0, 0, 1);
  }
}
