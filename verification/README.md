# A verified model of the adaptor

The repository connects a simulated NDN network (ndnSIM) with a real one. Its middle part, the *adaptor*,
is eight cooperative coroutines that move messages between sockets through a lock-free queue
(`adaptor/lfq.c`), a pool of recycled buffers and a table of pending interests
(`adaptor/name_udp_table.c`). This project models those three and the name format spoken at the ndnSIM
side, and proves what they promise.

## The four parts

**The lock-free queue, with any number of threads** (`LfqModel`, `LfqHistory`, `LfqInvariant`, `LfqSteps`,
`LfqInductive`, `LfqTheorems`, `LfqAnswers`, `LfqProgress`, `LfqRegimes`, `LfqEmpty`). `LfqModel.Exec` is one step of one thread: each
shared read, write, CAS and XCHG of `lfq_enqueue`, `lfq_dequeue`, `lfq_dequeue_tid`, `safe_free`, `enpool`
and `free_pool`, and each slot read by `inHP` and `alloc_tid`, is a step of its own, named by a program
counter. Steps of different threads interleave in every possible way under sequential consistency. The
heap holds the nodes that are allocated now; `calloc` may return any address that is not in it, also one
that was freed a moment ago, so a stale pointer can come to name a new node. `next` and `free_next` are one
field, as in the union of `adaptor/lfq.h`. A step that would touch an unallocated node sets `fault`, and
the model stops that thread there. `LfqHistory` adds auxiliary variables (the order of the exchanges on
`tail`, who holds which node, who won which CAS on `head`); `Exec` does not see them, and
`LfqTheorems.HistoryIsPassive` says so. `LfqInductive.StepKeepsInv` shows the invariant inductive, for every
number of threads, slots, producers and consumers; the theorems of `LfqTheorems` follow from it for every
reachable state. `LfqAnswers` speaks of schedules: which readings, earlier in the same call, led a call to its
answer or to its choice in `safe_free` and `free_pool`. `LfqProgress` counts the steps of a call.

**The queue as an object** (`LfqLists`, `LfqClean`, `LfqContext`). The class `LfqCtx` has the fields of
`lfq_ctx` over an explicit heap of nodes and the functions of `lfq.c` as methods with their loops, including
`lfq_clean` and `lfg_count_freelist`. Its ghost fields say what the lists hold. While a method runs, other
consumers may have set hazard pointers and may hold the lock; no step of another thread comes between two
of its own. `LfqRegimes.Settles` joins the two views: whenever every call of a concurrent run has returned,
heap and context satisfy what the class assumes between calls. `LfqLists` and `LfqClean` say what each
operation makes of the lists, without the object.

**The pending-interest table** (`NameTable`, `NameTableArray`). The class `Nut` is the growable array with
tombstones. Its specification is a map from the last 1024 bytes of a name to 1 to 8 client addresses;
`NameTable.View` says which map an array stands for. Growth, deleted entries and truncation of long names
cannot be seen in the map.

**The adaptor** (`AdaptorModel`, `AdaptorProofs`, `AdaptorAccounts`, `AdaptorTheorems`, `AdaptorEvents`,
`AdaptorFault`, `AdaptorContext`, `AdaptorSystem`). A step is what a coroutine does between two points where it may yield.
The sending coroutines may yield between taking a buffer, sending it and giving it back; `udp_data_out` may
yield after every send of its loop, while it keeps a pointer into the table. `AdaptorModel` uses the
sequences and the map that the classes are proved to implement, and a log of what was received and sent;
`AdaptorEvents` ties that log to the events themselves, message by message.
`AdaptorSystem.Adaptor` is the whole adaptor as one object: a free list and four queues that are `LfqCtx`
objects, a `Nut` table, the buffers, and what each coroutine holds. `Adaptor.Valid(s)` says that the object
is in state `s` of the model; every coroutine turn is a method that is proved to take it from `s` to
`AdaptorModel.Step(s, e)`. `AdaptorSystem.RunAdaptor` takes the object from `init_adaptor` through any run in
which no turn of the send loop meets a stale pointer: it ends in the state of the model, and what has gone
out is what the log says. Sockets are the environment: any well-formed message may arrive at any time, and
`calloc` may answer each time with any address that is not in use.

**Names** (`MixsimNames`). `"%s/%u"` printed into a buffer on one side, the backward scan for the last slash,
two copies and `atoi` on the other.

## What the proofs show about the code

- Reclamation is safe, FIFO order is exact, no node leaks and none is freed twice, in every interleaving.
- A call of `lfq_enqueue` takes three steps once it has its node. A call of `lfq_dequeue` takes fewer than
  1219 + 153 n steps with n slots, and five more for each time another thread moves `head` on meanwhile
  (`LfqProgress.DequeueBound`).
- A node is put on the retired list only if the call saw it unmarked, saw a hazard pointer to it, or found the
  lock taken, and it is freed at once only if the call saw none of these (`LfqAnswers.RetiredBecause`,
  `LfqAnswers.FreedBecause`).
- An answer "empty" does not mean that the queue is empty, and `LfqTheorems.EmptyMeans` gives the three
  situations in which line 191 is reached. While `head` is still `old_head`, NULL is read exactly if the queue
  is empty or an enqueuer is about to link its node behind `old_head`, never both; with `head` moved on, only
  from a node that is being retired (`LfqTheorems.EmptyTrue`). With one slot `head` never moves on meanwhile
  (`LfqRegimes.SingleSlotEmptyTrue`). Both ways to be wrong happen. In `LfqEmpty.FalseEmpty` an enqueue has its
  place but has not linked, a second enqueue returns, and `lfq_dequeue` answers "empty". In
  `LfqEmpty.RetiredEmpty` no enqueue is running at all: both have returned, another dequeuer has taken 7 and
  writes NULL into `free_next`, and `lfq_dequeue` answers "empty" with 8 unread.
- `lfq_clean` frees everything exactly if at most one value is unread; otherwise it answers -1 and leaves
  just the unread nodes on the retired list, with `head` and `tail` cleared.
- With one consumer slot, which is how the adaptor calls it, nothing is ever put on the retired list and no
  attempt of a dequeue ever fails.
- The `nut_entry` pointer of `udp_data_out` is used after `nut_grow` has freed its buffer. The input is in
  `AdaptorFault.PointerFault`: 32 interests for different names, data for one of them, and an interest for a
  33rd name while the send loop yields. As long as no pointer is stale, the next turn of the send loop fails
  after an event exactly if that event is an interest with a new name, the loop is running, and every place
  of the table is taken (`AdaptorTheorems.StaleNext`); over a whole run, exactly if that ever was so
  (`AdaptorTheorems.FaultExactly`). It cannot happen while no more than 32 names were pending at once
  (`AdaptorTheorems.SmallTableSafe`). `nut_create(64)` makes 32 entries, as sizes from 32 up become 32.
- The buffers of interests for which `nut_set` does not answer 1, and of data for which `nut_get` answers
  NULL, are lost, and no others are (`AdaptorTheorems.LostExactly`).
- A printed name can be taken apart exactly if the number is below 10^9, because `seqbuf` has ten bytes
  (`MixsimNames.SplittableExactly`).

## Assumptions

`calloc` and `malloc` succeed. Messages are well formed: name and data fit the 2040 bytes of a buffer, and a
datagram is not longer than a record and holds what its lengths announce. `lfq_clean` runs alone, as the
FIXME at `adaptor/lfq.c:188` asks. The build is the one compiled by default: `XCHG` on `tail`, hazard
pointers on. Integers are unbounded. NULL is not enqueued: the models let a value be 0, which a C caller of
`lfq_dequeue` could not tell from "empty", and what a caller makes of that is not modelled.

What a program does after it has used freed memory is not modelled: once `udp_data_out` has used a stale
`nut_entry` pointer, `AdaptorModel.State.fault` is set and no event changes anything more. The laws of
`AdaptorTheorems` that speak of any run therefore say nothing about the time after the first such use. By
`AdaptorTheorems.FaultExactly` that use comes only after an interest with a new name met a full table inside
a send loop.

## Model

| member | source | states |
|---|---|---|
| LfqInductive.InitKeepsInv | adaptor/lfq.c:88-106 | What `lfq_init` builds satisfies the inductive invariant, for any number of consumer slots and threads. |
| LfqInductive.StepKeepsInv | adaptor/lfq.c:147-230 | Every step of every thread keeps the inductive invariant, whatever address `calloc` picks. |
| LfqInductive.PlayKeepsInv | adaptor/lfq.c:147-230 | So does every schedule of steps. |
| LfqInductive.StepLegal | adaptor/lfq.c:147-242 | In a state of the invariant no thread is about to touch unallocated memory, and its next event meets the side condition of that event (who owns the node, who holds the lock). |
| LfqTheorems.HistoryIsPassive | adaptor/lfq.c:147-242 | Running with the auxiliary history gives the same states as running without it. |
| LfqTheorems.ReclamationSafe | adaptor/lfq.c:57-71 | In every schedule from `lfq_init`, with freed addresses reused at will, no step has touched or freed a node that is not allocated, and no thread is about to. |
| LfqTheorems.ExactlyOnce | adaptor/lfq.c:180-229 | Each successful CAS on `head` belongs to exactly one dequeue: either still running, or returned with the data installed by the exchange on `tail` of the same number. |
| LfqTheorems.Fifo | adaptor/lfq.c:159-229 | When no winner is pending, the values returned are a prefix of the values inserted: none lost, doubled or out of order. |
| LfqTheorems.NothingLeaks | adaptor/lfq.c:19-71 | Every allocated node is in the queue, on the retired list, or held by a thread; `QueueChain` and `PoolChain` say where the two lists are in memory. |
| LfqTheorems.OnePlace | adaptor/lfq.c:19-71 | It is in only one of these places, once; and whatever has a place is allocated. |
| LfqTheorems.QueueChain | adaptor/lfq.c:159-169 | `head` and `tail` are the ends of the queue; consecutive nodes are linked by `next`, except where the enqueuer that got the later place is about to store the link; the last one is followed by NULL. |
| LfqTheorems.PoolChain | adaptor/lfq.c:19-55 | `fph` and `fpt` are the ends of the retired list; consecutive nodes are linked by `free_next`, except where the thread that got the later place is about to store the link; the last one is followed by NULL. |
| LfqTheorems.NoAba | adaptor/lfq.c:182-196 | At its CAS a dequeuer finds `head` equal to its `old_head` exactly if no CAS on `head` succeeded since its validation; then `new_head` is the successor in the queue and not a `free_next`. |
| LfqTheorems.DebugAssertions | adaptor/lfq.c:166-195 | Both assertions compiled under DEBUG hold in every run: an old tail is unlinked, a validated `old_head` is never read as poison. |
| LfqTheorems.LockFree | adaptor/lfq.c:180-196 | The failed validations and CASes of one dequeue never outnumber the successful CASes of other threads while it ran. |
| LfqTheorems.EmptyMeans | adaptor/lfq.c:186-192 | A validated dequeuer reads NULL, and turns to answer "empty", exactly if its node is head and tail, or the enqueuer that follows has not linked yet, or another dequeuer is moving the node to the retired list. |
| LfqTheorems.EmptyTrue | adaptor/lfq.c:182-192 | While `head` is `old_head`, a validated dequeuer reads NULL exactly if the queue is empty or an enqueuer is about to link its node behind `old_head`, and these exclude each other; with `head` moved on, exactly if the node is being retired. |
| LfqTheorems.HeadUnmoved | adaptor/lfq.c:182-188 | For a validated dequeuer, `head` is `old_head` exactly if no CAS on `head` succeeded since the validation. |
| LfqTheorems.SlotExclusion | adaptor/lfq.c:73-86 | Two running dequeues hold different slots; a slot is marked exactly if a dequeue holds it; an unmarked slot's hazard pointer is NULL. |
| LfqTheorems.SlotsSuffice | adaptor/lfq.c:232-242 | If at no time more threads are in `lfq_dequeue` than there are slots, however many dequeue in turn, no `alloc_tid` runs past the last slot: `lfq_dequeue` does not answer -1. |
| LfqTheorems.FewConsumers | adaptor/lfq.c:73-81 | That is so if no more threads ever dequeue than there are slots. |
| LfqAnswers.EmptyBecause | adaptor/lfq.c:180-196 | In every schedule, a call that is about to clear its hazard pointer for the answer "empty", or to give that answer, has earlier in the same call read NULL behind a validated `old_head`, for one of the three causes; a failed validation or a lost CAS does not lead there. |
| LfqAnswers.EmptyAnswer | adaptor/lfq.c:189-192 | So has every call that gives its slot back with the answer "empty". |
| LfqAnswers.NoSlotBecause | adaptor/lfq.c:74-81 | In every schedule, a call that leaves `alloc_tid` without a slot (-1) found each slot taken, by reading it or by a failed CAS, when it was there, in the same call. |
| LfqAnswers.SlotBecause | adaptor/lfq.c:75-78 | A call that got a slot found every slot before it taken. |
| LfqAnswers.NoSlotNever | adaptor/lfq.c:232-242 | If at no time more threads are in `lfq_dequeue` than there are slots, no move of any schedule leads from `alloc_tid` to the answer -1. |
| LfqAnswers.RetiredBecause | adaptor/lfq.c:58-69 | A call that starts to `enpool` a node has, in the same call, seen it unmarked, or seen a hazard pointer name it, or found `is_freeing` taken. |
| LfqAnswers.FreedBecause | adaptor/lfq.c:58-65 | A call that frees a node in `safe_free` has seen its mark, has seen each hazard pointer elsewhere, and got `is_freeing`. |
| LfqAnswers.PassBecause | adaptor/lfq.c:40-55 | A dequeue returns its value only after its `free_pool` found the lock taken, or 150 nodes freed, or a node that is unmarked, has no successor or is named by a hazard pointer. |
| LfqAnswers.PassCounts | adaptor/lfq.c:45-51 | When the counter of `free_pool` is i, its call has freed a node at each count below i, and i is at most 150. |
| LfqProgress.StepsBound | adaptor/lfq.c:147-242 | The steps a call has taken and the bound on those to come never exceed the bound at its start and five for each failed attempt. |
| LfqProgress.FailuresPaid | adaptor/lfq.c:180-196 | Over any stretch of one dequeue in any schedule, the failed validations and CASes are at most the successful CASes of other threads. |
| LfqProgress.DequeueBound | adaptor/lfq.c:232-242 | Lock-freedom: in any schedule, a dequeue that has not returned has taken fewer than 1219 + 153 * slots steps and five for each successful CAS of another thread since it began. |
| LfqProgress.EnqueueBound | adaptor/lfq.c:147-174 | Wait-freedom: an enqueue that has not returned has taken at most two steps since it got its node. |
| LfqEmpty.FalseEmpty | adaptor/lfq.c:159-192 | A run from `lfq_init` in which one enqueue has exchanged `tail` but not linked, the enqueue of 8 has returned, nothing else runs, and `lfq_dequeue` returns "empty" with both values in the queue. |
| LfqEmpty.RetiredEmpty | adaptor/lfq.c:19-25 | A run in which the enqueues of 7 and 8 have returned, no enqueue follows, one dequeue has taken 7, and another returns "empty" with 8 unread. |
| LfqRegimes.SingleSlot | adaptor/lfq.c:57-71 | With one slot no thread ever reaches `enpool`, the retired list stays its one initial node, and no attempt of a dequeue fails. |
| LfqRegimes.SingleSlotEmpty | adaptor/lfq.c:186-192 | With one slot an answer "empty" has only the first two causes. |
| LfqRegimes.SingleSlotEmptyTrue | adaptor/lfq.c:182-192 | With one slot NULL is read exactly if the queue is empty or an enqueuer is about to link its node behind `old_head`, never both. |
| LfqRegimes.SingleSlotSize | adaptor/lfq.c:218-226 | With one slot, between calls the live nodes are the unread ones plus two. |
| LfqRegimes.Settles | adaptor/lfq.c:147-242 | When every call has returned, heap, `head`, `tail`, `fph`, `fpt`, lock and slots are as the class `LfqCtx` requires between calls. |
| LfqContext.LfqCtx.constructor | adaptor/lfq.c:88-106 | `lfq_init`: a valid context with nothing unread, one dummy and one retired node. |
| LfqContext.LfqCtx.Enqueue | adaptor/lfq.c:147-174 | Appends the value to the unread ones; lists stay valid. |
| LfqContext.LfqCtx.InHP | adaptor/lfq.c:10-17 | True exactly if some slot holds the node. |
| LfqContext.LfqCtx.Enpool | adaptor/lfq.c:20-37 | Appends the node to the retired list, writing only the two `free_next` fields. |
| LfqContext.LfqCtx.FreePool | adaptor/lfq.c:40-55 | Does nothing if the lock is held. Else frees, at the front of the retired list, the marked nodes that no hazard pointer names, at most 150 unless all are asked for, and never the last node; the rest keeps its order. |
| LfqContext.LfqCtx.SafeFree | adaptor/lfq.c:58-71 | Frees a marked node that no hazard pointer names, if the lock is open; appends any other to the retired list; then frees marked nodes that no hazard pointer names from the front of that list, as many as there are but never the last, or 150. No node that a hazard pointer names is freed, and with the lock taken none at all. For any hazard pointers and either state of the lock. |
| LfqContext.LfqCtx.AllocTid | adaptor/lfq.c:74-81 | Takes the first free slot, or answers -1 exactly if all are taken, changing nothing. |
| LfqContext.LfqCtx.FreeTid | adaptor/lfq.c:84-86 | Gives the slot back and touches no other. |
| LfqContext.LfqCtx.ClaimHead | adaptor/lfq.c:179-197 | The retry loop ends with `head` moved on by one node, or with NULL exactly if the queue has only its dummy; it touches no other hazard pointer. |
| LfqContext.LfqCtx.FinishDequeue | adaptor/lfq.c:218-229 | After the CAS: returns the value of the new dummy, marks it and releases the old one with the same promises, whatever the others' hazard pointers and the lock are. |
| LfqContext.LfqCtx.DequeueTid | adaptor/lfq.c:176-230 | "Empty" with nothing changed exactly if nothing is unread; otherwise the oldest unread value is removed and returned. The old dummy is freed exactly if no hazard pointer names it and the lock is open, else retired; no node that a hazard pointer names is freed, and with the lock taken none. |
| LfqContext.LfqCtx.Dequeue | adaptor/lfq.c:232-242 | The same with a slot of its own, which is free again afterwards; -1 exactly if every slot is taken. |
| LfqContext.LfqCtx.DequeueAlone | adaptor/lfq.c:232-242 | With no other consumer about, there is a slot, and the answer is the oldest unread value if there is one. |
| LfqContext.LfqCtx.CountFreelist | adaptor/lfq.c:109-118 | Counts the retired list. |
| LfqContext.LfqCtx.CleanQueue | adaptor/lfq.c:121-129 | The first loop of `lfq_clean` ends with every node of the queue freed or retired in order. |
| LfqContext.LfqCtx.CleanPool | adaptor/lfq.c:130-144 | The rest frees everything if at most one value was unread, else leaves the unread nodes retired. |
| LfqContext.LfqCtx.Clean | adaptor/lfq.c:120-145 | Terminates; 0 with an empty heap and no context if at most one value is unread, else -1 with exactly the unread nodes, in order, on the retired list. |
| LfqLists.SettledSize | adaptor/lfq.c:88-106 | Between calls the allocated nodes are one dummy, the unread ones and the retired ones. |
| LfqLists.SettledEnqueue | adaptor/lfq.c:151-169 | Linking a fresh node behind the tail keeps the queue settled with one more unread value. |
| LfqLists.SettledAfter | adaptor/lfq.c:196-229 | Moving `head`, marking the new dummy and releasing the old one keeps the queue settled with one value less, whatever the others' hazard pointers and the lock are. |
| LfqLists.ReclaimsSo | adaptor/lfq.c:40-71 | The effect of `safe_free` on the lists, in terms of marks, hazard pointers and the lock alone: which nodes stay, which go, and in what order the retired list is left. |
| LfqLists.LeftAlone | adaptor/lfq.c:40-71 | With no hazard pointer set and the lock open, `safe_free` of the old dummy frees it, and up to 150 retired nodes, but never the last, with it. |
| LfqClean.CleaningRound | adaptor/lfq.c:123-127 | One round of the first loop of `lfq_clean` keeps its invariant: which nodes are freed, which are retired, which remain. |
| LfqClean.CleaningEnd | adaptor/lfq.c:130-134 | After that loop `fph` meets `fpt` exactly if at most one value was unread. |
| NameTable.KeyIs | adaptor/name_udp_table.c:68-71 | A name of at most 1024 bytes is its own key; of a longer one the key is its last 1024 bytes. |
| NameTable.SetIsRight | adaptor/name_udp_table.c:38-75 | On any map: 0 exactly if an address of equal ip and port is listed for the name, -1 exactly if none is and eight are, else 1 with the address behind the old ones; no other name changes, and nothing does on 0 and -1. |
| NameTable.ViewAt | adaptor/name_udp_table.c:31-53 | A live entry is what the map says about its name, and no other live entry has that name. |
| NameTable.ViewWrite | adaptor/name_udp_table.c:64-73 | Writing an entry over a tombstone, or over the entry of the same name, changes the map at that name only. |
| NameTable.ViewDelete | adaptor/name_udp_table.c:94-96 | Marking an entry deleted takes exactly its name out of the map. |
| NameTable.ViewAppend | adaptor/name_udp_table.c:56-63 | An entry at the end with a new name adds that name to the map. |
| NameTable.ViewSize | adaptor/name_udp_table.c:56-63 | There are as many names as entries exactly if no entry is deleted, and never more. |
| NameTable.ViewOk | adaptor/name_udp_table.c:40-50 | Every name has 1 to 8 addresses, no two with the same ip and port. |
| NameTableArray.NameMatch | adaptor/name_udp_table.c:119-134 | 1 exactly if the last 1024 bytes of the name are the entry's name, else 0. |
| NameTableArray.FdMatch | adaptor/name_udp_table.c:137-146 | 1 exactly if an address with that ip and port is listed, else 0. |
| NameTableArray.Nut.ContentsOk | adaptor/name_udp_table.c:40-50 | The map of any valid table has 1 to 8 addresses for every name, no two alike. |
| NameTableArray.Nut.constructor | adaptor/name_udp_table.c:16-25 | The empty map, with 32 places for sizes out of 1..31. |
| NameTableArray.Nut.Grow | adaptor/name_udp_table.c:99-116 | A new array with the same entries and a larger capacity; all copies ever made stay within 5 times the places gained. |
| NameTableArray.Nut.Find | adaptor/name_udp_table.c:31-63 | Finds the live entry of a name, or says that the map lacks it and which tombstone comes first, if any. |
| NameTableArray.Nut.Set | adaptor/name_udp_table.c:28-76 | Answers 0 exactly if the name is listed with an address of equal ip and port, -1 exactly if it has eight others, else 1 with the address added behind the old ones, and changes nothing else; the array grows exactly if the name is new and every place is live; live entries keep their places; `entry_num` is the largest number of names so far and the capacity at most twice that (or the initial one). |
| NameTableArray.Nut.AddAddr | adaptor/name_udp_table.c:40-50 | For a known name: 0 exactly if an equal ip and port is listed, -1 exactly if none is and eight are, else 1 with the address behind the old ones; nothing else changes. |
| NameTableArray.Nut.NewEntryAt | adaptor/name_udp_table.c:64-73 | A new name in place of a tombstone. |
| NameTableArray.Nut.Append | adaptor/name_udp_table.c:64-73 | A new name behind the last entry, where there is room. |
| NameTableArray.Nut.NewEntryAtEnd | adaptor/name_udp_table.c:56-73 | A new name at the end, in bounds, after growth if the array is full. |
| NameTableArray.Nut.Get | adaptor/name_udp_table.c:79-91 | NULL exactly if the map lacks the name, else a pointer to the live entry with its addresses. |
| NameTableArray.Nut.Del | adaptor/name_udp_table.c:94-96 | A good pointer's name leaves the map; nothing else does. |
| AdaptorModel.PackUnpack | adaptor/nip_adaptor.c:198-208 | Name and data written into a buffer one behind the other are read back as they were, whatever the buffer held before. |
| AdaptorModel.CopiedMeaning | adaptor/udp_adaptor.c:61-68 | A record copied over a buffer is read back as its own name and data. |
| AdaptorProofs.StepOwned | adaptor/udp_adaptor.c:114-124 | Every step keeps each buffer in as many places as it is allocated: one or none. |
| AdaptorProofs.StepChannel | adaptor/nip_adaptor.c:74-83 | Every step keeps each direction a channel: messages put in are those taken out followed by those inside. |
| AdaptorAccounts.StepAccounted | adaptor/udp_adaptor.c:141-152 | Every step keeps, for each name and client, accepted interests equal to data sent plus one if the client is waiting. |
| AdaptorAccounts.StepHold | adaptor/udp_adaptor.c:141-154 | While its send loop runs, the name of `udp_data_out` stays in the table and is the name in its buffer. |
| AdaptorAccounts.StepCaps | adaptor/name_udp_table.c:56-63 | A step leaves the table pointer of the send loop stale, or used stale, exactly if it was so before or the step is an interest with a new name for a full table inside the loop; and the capacity is still 32 unless more than 32 names were pending at once. |
| AdaptorTheorems.OnePlace | adaptor/udp_adaptor.c:84-91 | After any run an allocated buffer is free, lost, in one queue or with one reader, once and nowhere else. |
| AdaptorTheorems.BufferAccount | adaptor/adaptor.c:13-18 | Allocated buffers are free, queued, held and lost ones together. |
| AdaptorTheorems.LostExactly | adaptor/udp_adaptor.c:121-145 | After a run an allocated buffer is neither free, queued nor held exactly if some event of the run lost it: an interest for which `nut_set` did not answer 1, or a take of data for whose name `nut_get` answered NULL. |
| AdaptorTheorems.FifoChannel | adaptor/nip_adaptor.c:94-119 | In each of the four directions, what was delivered is a prefix of what was put in, byte for byte, and the rest is still inside, although the buffers are recycled; `AdaptorEvents` says what the events put in. |
| AdaptorTheorems.AnsweredOnce | adaptor/udp_adaptor.c:121-152 | After any run, up to the first use of a stale pointer, for every name and client: accepted interests are data sent, plus one if the client is still waiting. |
| AdaptorTheorems.NothingUnasked | adaptor/udp_adaptor.c:141-152 | Up to the same point, no client is sent more data for a name than it had interests accepted; with no name pending the two agree. |
| AdaptorTheorems.SentAsReceived | adaptor/udp_adaptor.c:147-151 | Every message sent to a client, across the yields of the send loop, is byte for byte the data message that was put into the queue at the place it was taken from. |
| AdaptorTheorems.OutsAsReceived | adaptor/nip_adaptor.c:88-122 | What has gone out of the adaptor, if it is what the log says: in each of the other directions a prefix of the messages that were put in, and to clients data messages that were put in. |
| AdaptorTheorems.NeverStale | adaptor/udp_adaptor.c:141-152 | In a run that ends without a fault no turn of the send loop met a stale pointer. |
| AdaptorTheorems.StaleNext | adaptor/udp_adaptor.c:141-152 | In any run without a stale pointer, whatever event comes next: the turn of the send loop after it uses freed memory exactly if the event is an interest with a name not in the table, the send loop is running, and as many names are pending as the table has places. |
| AdaptorTheorems.FaultExactly | adaptor/udp_adaptor.c:141-152 | Over a whole run: the next turn of the send loop uses a freed pointer, or one before did, exactly if some event of the run met that guard. |
| AdaptorEvents.NipArrives | adaptor/nip_adaptor.c:198-213 | After any run, a NIP message that fits a buffer is put into its queue: data unchanged, a nack or an interest as its name without data. |
| AdaptorEvents.DataArrives | adaptor/udp_adaptor.c:54-68 | A data datagram is put into its queue as the name and data its lengths announce. |
| AdaptorEvents.InterestArrives | adaptor/udp_adaptor.c:114-124 | An interest is accepted, its client listed last for the name and the name passed on without data, exactly if no equal ip and port is listed and fewer than eight are; else only its buffer is lost. Then the client waits for the name, or is listed and served by the running loop, or eight others are listed. |
| AdaptorEvents.PutFrom | adaptor/nip_adaptor.c:198-213 | The k-th message put into any direction is what the k-th event that brought one there brought. |
| AdaptorEvents.SentAsBrought | adaptor/nip_adaptor.c:202-213 | Every message sent to a client is byte for byte the message of one `nip_data_in` event of the run, the one whose place it has in the queue, without data only if that event was a nack. |
| AdaptorEvents.GoneAsBrought | adaptor/nip_adaptor.c:151-159 | In the other directions the k-th message that goes out is the k-th that came in: the name and data of the datagram, or the name alone of the interest. |
| AdaptorEvents.Delivers | adaptor/nip_adaptor.c:94-119 | With a message waiting and the reader idle, its take, send and return deliver the oldest message, free its buffer and leave the reader idle; nothing else changes. |
| AdaptorEvents.DeliversData | adaptor/udp_adaptor.c:135-154 | With data waiting and the reader idle, a take and the turns of its loop send the oldest message to each client listed for its name, once and in order, forget the name and free the buffer; if no client is listed, nothing is sent and the buffer is lost. |
| AdaptorEvents.PoolBound | adaptor/udp_adaptor.c:61-64 | Buffers are allocated only when none is free: if never more than `most` (at least 16) were queued, held or lost, no more are allocated. |
| AdaptorFault.PointerFault | adaptor/name_udp_table.c:99-116 | From any `init_adaptor` a run with 32 pending names and data for one of them, in which no pointer is stale, such that an interest for a 33rd name makes the next turn of the send loop use freed memory. |
| AdaptorTheorems.SmallTableSafe | adaptor/name_udp_table.c:99-116 | If never more than 32 names were pending, the array has not grown and no pointer is stale. |
| AdaptorTheorems.ServesAll | adaptor/udp_adaptor.c:147-154 | Left to run, the send loop sends to each remaining client once, removes the name and frees the buffer. |
| AdaptorContext.Buffers.constructor | adaptor/adaptor.c:13-18 | A free list with the given blocks, in order. |
| AdaptorContext.Buffers.Obtain | adaptor/udp_adaptor.c:61-64 | The oldest free buffer, or a new one exactly if there is none; the list never answers -1. |
| AdaptorContext.NewLines | adaptor/adaptor.c:20-32 | Four empty queues that share no memory, all of it new. |
| AdaptorContext.Lines.Push | adaptor/udp_adaptor.c:68 | `lfq_enqueue` to one queue appends there and leaves the other three as they are. |
| AdaptorContext.Lines.Pull | adaptor/udp_adaptor.c:84-88 | `lfq_dequeue` from one queue takes its front or finds it empty, never answers -1, and leaves the other three. |
| AdaptorContext.SetName | adaptor/udp_adaptor.c:121-124 | `nut_set`, and what it leaves of a `nut_entry` pointer: it stays good unless the array grows. |
| AdaptorContext.PointsAt | adaptor/udp_adaptor.c:147-149 | A good pointer shows the addresses of its name. |
| AdaptorSystem.InitAdaptor | adaptor/adaptor.c:9-34 | The object that `init_adaptor` builds is in the initial state of the model, and all its memory is new. |
| AdaptorSystem.GoodStep | adaptor/udp_adaptor.c:48-157 | What the turns rely on is kept by every event but a turn of the send loop on a stale pointer. |
| AdaptorSystem.GoodRun | adaptor/udp_adaptor.c:48-157 | It holds after every run, exactly if no stale pointer was used. |
| AdaptorSystem.Adaptor.NipIn | adaptor/nip_adaptor.c:198-213 | A turn of `nip_data_in`, or of `nip_interest_in`, on the whole object is the step of the model. |
| AdaptorSystem.Adaptor.UdpDataIn | adaptor/udp_adaptor.c:54-68 | The same for `udp_data_in`. |
| AdaptorSystem.Adaptor.UdpInterestIn | adaptor/udp_adaptor.c:107-124 | The same for `udp_interest_in`, with the table and the pointer of the send loop; the array of the table is the old one or new. |
| AdaptorSystem.Adaptor.Take | adaptor/nip_adaptor.c:94-98 | The same for the `lfq_dequeue` of the other three readers. |
| AdaptorSystem.Adaptor.Send | adaptor/nip_adaptor.c:100-118 | The same for their send; what goes out is the message in the buffer, an interest without data. |
| AdaptorSystem.Adaptor.Return | adaptor/nip_adaptor.c:119 | The same for their `lfq_enqueue` to the free list. |
| AdaptorSystem.Adaptor.TakeData | adaptor/udp_adaptor.c:135-145 | The same for `udp_data_out` up to its loop: it keeps a pointer to the entry of the name in its buffer, or gives the buffer up. |
| AdaptorSystem.Adaptor.Serve | adaptor/udp_adaptor.c:147-154 | The same for a turn of its loop on a pointer that is not stale: it sends the buffer to the next address of the name, or deletes the name and frees the buffer after the last. |
| AdaptorSystem.Adaptor.Turn | adaptor/udp_adaptor.c:48-157 | Any turn of any coroutine, but one on a stale pointer: the object does the step of the model, gives out what the model says, and uses its own and new memory only, so that another turn can follow. |
| AdaptorSystem.RunAdaptor | adaptor/adaptor.c:47-51 | `init_adaptor` and then any run without a stale turn, with any choice of addresses by `calloc`: the object ends in the state of the model after that run, and the messages that have gone out, in order, are those of the log. |
| MixsimNames.PrintName | ndnSIM/apps/ndn-app-mixsim.cpp:341-343 | At most 1023 bytes of "prefix/number" and a zero byte, and the full length. |
| MixsimNames.SplitName | ndnSIM/apps/ndn-app-mixsim.cpp:225-236 | The backward scan ends at the last slash; the name is what precedes it and the number is `atoi` of what follows. |
| MixsimNames.SplittableExactly | ndnSIM/apps/ndn-app-mixsim.cpp:225-233 | A printed name has a slash with fewer than ten bytes behind it exactly if the number is below 10^9. |
| MixsimNames.RoundTrip | ndnSIM/apps/ndn-app-mixsim.cpp:262-273 | Printing and splitting give back the prefix, whatever slashes it has, and the number. |
| MixsimNames.Relay | ndnSIM/apps/ndn-app-mixsim.cpp:307-317 | The same through real buffers. |

## Left out

- Sockets, `dyco` scheduling and `irecv`/`isend`: receives are any well-formed message, waits are yield points, a send leaves no trace but the log.
- `adaptor/nip_pkt_tools.c`: its headers are not part of this model.
- Weak memory, the other platform branches of `adaptor/cross-platform.h` and the alternatives under `#if 0` in `adaptor/lfq.c`.
- Failure of `calloc` and `malloc`, datagrams longer than a record, negative or over-long lengths.
- `lfq_clean` beside other calls: the source says it is not safe.
- LfqContext.LfqCtx.DequeueTid: runs without a step of another thread in between, so its retry loop turns once; the interleavings are in `LfqModel`.
- LfqContext.LfqCtx: nodes live in a map from addresses to values of one explicit heap, so that freeing a node and meeting its address again can be said.
- NameTableArray.Nut.Grow: does not model the wrap-around of `table_cap` at 2^32, nor `table_cap` as `int`.
- NameTable.ViewOk: `name_len`, `addr_num` and `deleted` are not bounded by 16 bits; they never pass 1024, 8 and 1.
- AdaptorSystem.Adaptor: three coroutines that differ only in their queue share `Take`, `Send` and `Return`, and two share `NipIn`; the order in which `dyco` runs the turns is left open.
- AdaptorSystem.Adaptor.Serve: asks for a pointer that is not stale; what a turn on a stale one does is not defined, and `AdaptorTheorems.StaleNext` says when there is one.
- MixsimNames.RoundTrip: for numbers that an `int` holds, as `atoi` promises nothing beyond.
- MixsimNames.Relay: for printed names below 1024 bytes, as `snprintf` cuts longer ones.
- Packet construction and signatures of ndn-cxx and ns-3, `registerFib`, `AnalyzeTimeDiff`, tick counters, `ProducerVirtual`, demos and printing: thin or easy.
