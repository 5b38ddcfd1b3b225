/**
 Auxiliary variables for LfqModel: what happened so far in a run.  They are computed beside the
 run and never influence it (Exec does not see them).
 */
module LfqHistory {
  import opened LfqModel

  /** Who holds an allocated node: the k-th place of the queue, of the retired list, or a thread. */
  datatype Role = Queued(k: nat) | Pooled(k: nat) | Owned(t: nat)

  /** Per-thread notes on its current dequeue. */
  datatype Note = Note(
    claim: nat,     // number of the head CAS it won
    seen: nat,      // number of head CASes done when it last saw `head`
    fails: nat,     // failed re-validations plus failed CASes
    rivals: nat)    // successful head CASes of other threads since it got its slot

  datatype Hist = Hist(
    role: map<Ptr, Role>,
    // nodes in the order of their tail XCHG, with the data enqueued; h head CASes succeeded
    nodes: seq<Ptr>, vals: seq<Val>, h: nat,
    gap: map<nat, nat>,        // gap[k] = t: t still has to link place k to place k + 1
    // nodes in the order of their fpt XCHG; the first f of them were taken out again
    pool: seq<Ptr>, f: nat,
    pgap: map<nat, nat>,
    lock: int,                 // the thread in the is_freeing section, or -1
    slots: seq<int>,           // the thread that owns each consumer slot, or -1
    waiting: map<Ptr, nat>,    // waiting[a] = t: t took node a as its new_head and has not set can_free
    notes: seq<Note>,
    got: map<nat, Val>,        // got[c]: value returned by the call that won the c-th head CAS
    claimant: map<nat, nat>)   // the thread whose running call won the c-th head CAS

  function InitHist(dummy: Ptr, pool: Ptr, slots: nat, threads: nat): Hist {
    Hist(map[dummy := Queued(0), pool := Pooled(0)],
         [dummy], [0], 0, map[], [pool], 0, map[], -1, seq(slots, _ => -1), map[],
         seq(threads, _ => Note(0, 0, 0, 0)), map[], map[])
  }

  function Bumped(notes: seq<Note>, t: nat): (r: seq<Note>) {
    seq(|notes|, u requires 0 <= u < |notes| => if u == t then notes[u] else notes[u].(rivals := notes[u].rivals + 1))
  }

  function RoleAfter(g: Hist, t: nat, e: Event): map<Ptr, Role> {
    match e
    case Alloc(a) => g.role[a := Owned(t)]
    case XchgTail(a, _) => g.role[a := Queued(|g.nodes|)]
    case Win(oh, _) => g.role[oh := Owned(t)]
    case FreeNode(a) => g.role - {a}
    case XchgPool(a) => g.role[a := Pooled(|g.pool|)]
    case Unpool(a, _) => g.role[a := Owned(t)]
    case _ => g.role
  }

  function GapAfter(g: Hist, t: nat, e: Event): map<nat, nat>
    requires 0 < |g.nodes|
  {
    if e.XchgTail? then g.gap[|g.nodes| - 1 := t]
    else if e.Link? && e.ot in g.role && g.role[e.ot].Queued? then g.gap - {g.role[e.ot].k}
    else g.gap
  }

  function PoolGapAfter(g: Hist, t: nat, e: Event): map<nat, nat>
    requires 0 < |g.pool|
  {
    if e.XchgPool? then g.pgap[|g.pool| - 1 := t]
    else if e.PoolLink? && e.ot in g.role && g.role[e.ot].Pooled? then g.pgap - {g.role[e.ot].k}
    else g.pgap
  }

  function NotesAfter(g: Hist, t: nat, e: Event): seq<Note>
    requires t < |g.notes|
  {
    var me := g.notes[t];
    match e
    case TakeSlot(i) => if i < |g.slots| then g.notes[t := Note(0, 0, 0, 0)] else g.notes
    case See => g.notes[t := me.(seen := g.h)]
    case Recheck(same) => g.notes[t := if same then me.(seen := g.h) else me.(fails := me.fails + 1)]
    case Win(_, _) => Bumped(g.notes, t)[t := me.(claim := g.h + 1)]
    case Lose => g.notes[t := me.(fails := me.fails + 1)]
    case _ => g.notes
  }

  function WaitingAfter(g: Hist, t: nat, e: Event): map<Ptr, nat> {
    if e.Win? then g.waiting[e.nh := t] else if e.Mark? then g.waiting - {e.a} else g.waiting
  }

  function GotAfter(g: Hist, t: nat, e: Event): map<nat, Val>
    requires t < |g.notes|
  {
    if e.Leave? && e.ret.Got? then g.got[g.notes[t].claim := e.ret.v] else g.got
  }

  function ClaimantAfter(g: Hist, t: nat, e: Event): map<nat, nat>
    requires t < |g.notes|
  {
    if e.Win? then g.claimant[g.h + 1 := t]
    else if e.Leave? && e.ret.Got? then g.claimant - {g.notes[t].claim}
    else g.claimant
  }

  /** The history after event e of thread t. */
  function Record(g: Hist, t: nat, e: Event): Hist
    requires t < |g.notes| && 0 < |g.nodes| && 0 < |g.pool|
  {
    Hist(RoleAfter(g, t, e),
         if e.XchgTail? then g.nodes + [e.a] else g.nodes,
         if e.XchgTail? then g.vals + [e.d] else g.vals,
         if e.Win? then g.h + 1 else g.h,
         GapAfter(g, t, e),
         if e.XchgPool? then g.pool + [e.a] else g.pool,
         if e.Unpool? then g.f + 1 else g.f,
         PoolGapAfter(g, t, e),
         if e.Acquire? then t else if e.Unlock? then -1 else g.lock,
         if (e.TakeSlot? || e.Leave?) && e.i < |g.slots| then g.slots[e.i := if e.TakeSlot? then t else -1]
         else g.slots,
         WaitingAfter(g, t, e),
         NotesAfter(g, t, e),
         GotAfter(g, t, e),
         ClaimantAfter(g, t, e))
  }
}
