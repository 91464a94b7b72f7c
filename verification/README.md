# Proofs about `cancel-safe-futures`

The crate offers adapters for asynchronous Rust that behave well when futures are dropped, tasks panic
and errors occur halfway. This project models its polling state machines and its poisoning mutex in
Dafny and proves what they guarantee under every schedule. The environment is always an adversary: it
chooses every Pending and every Ready of a future, stream or sink, the order in which futures complete,
every cancellation, panic and drop, and the interleaving of tasks.

| file | models |
|---|---|
| `Outcomes.dfy` | `Option`, `Result`, `Poll`, and the value of a join: all values in order, or the error listed first |
| `ForEachConcurrent.dfy` | the bounded concurrent driver behind `for_each_concurrent_then_try` |
| `RobustMutex.dfy` | `RobustMutex`, its permits, poisoners and flag |
| `Collect.dfy` | `collect_then_try` over any finite stream, and the `FuturesOrdered` that feeds it |
| `Joins.dfy` | the loop of `join_then_try!` and both forms of `join_all_then_try` |
| `CoopCancel.dfy` | the cooperative cancellation channel |
| `SinkReserve.dfy` | `reserve`, `flush_reserve`, `Permit`, and the retry loop they are made for |

How it is set up. Code that updates state in place is a class or a method with a loop. Each is proved
against a definition that is not its own body: the driver against a history that keeps no state and
answers every question (what was spawned, what is in flight, which error came first) from what was seen;
the joins against the moments at which futures become ready and the value `Gather` of their outputs; the
mutex, the channel and the sink adapters against a machine of single steps, of which every method call is
a run. Statements about `Run(w, h)` or `Legal(r)` hold of every reachable state under every schedule.

The environment's parts are taken at their contracts. A `FuturesUnordered` yields the output of each
member once, in any order, and None only when it is empty. `FuturesOrdered` is modelled itself, over such
a set. One schedule drives all three joins: whether a future, polled during poll `k` of the join, is
ready. The set of futures answers Pending only when it has yielded every member that is ready; that a
future which has become ready has also woken the set is part of its contract. A Tokio mutex has one holder; an unbounded channel is a queue; a one-shot receiver learns when its
sender is dropped. A stream is finite and lossless. Whether a thread is panicking is a parameter of every
step that asks.

## Where the code and its documentation differ

- The driver can lose a wake-up. When the stream yields an error while nothing is in flight, the
  iteration counts as no progress (src/stream/for_each_concurrent_then_try.rs:96-101), and the poll returns
  Pending although the stream was ready and holds no waker. Running the stream to completion, as
  src/stream/try_stream.rs:9-11 promises, then depends on some unrelated wake-up. `StalledExactly` says
  when one poll does this, `StallsIffStreamHasError` that it can happen on exactly the streams that
  contain an error, and `WakersSufficeIff` that on exactly the others wake-ups are always enough.
- `perform` is documented to poison the mutex if the action panics (src/sync/mutex.rs:592). It does not if
  the action was started while its thread was already panicking, from a destructor that catches the second
  panic. `BreachIffSilentAllowed` shows that this is the one way broken data is handed out as Ok.
- A comment says that dropping the poisoner unlocks the mutex (src/sync/mutex.rs:619). The guard, dropped
  after it, does; the safety proof rests on that order.
- `recv` is documented to return None once all cancelers have been dropped (src/coop_cancel.rs:142-145). A
  message sent before that is still returned first. `RecvAnswers` gives the exact answer.

## Model

| member | source | states |
|---|---|---|
| ForEachConcurrent.Conservation | src/stream/for_each_concurrent_then_try.rs:80-127 | At every point of every run the elements handed to `f` are those of a prefix of the stream, every completed future was spawned and completed once with its own output, the others are in flight, and their number never exceeds a non-zero limit. |
| ForEachConcurrent.ReadyMeaning | src/stream/for_each_concurrent_then_try.rs:128-132 | Ready comes only after the stream has returned None and every spawned future has completed, and carries the first error observed, whether from the stream or a future. |
| ForEachConcurrent.SucceedsIff | src/stream/for_each_concurrent_then_try.rs:78-140 | Whether the result is Ok does not depend on the schedule: it is Ok exactly when every item is Ok and so is the output of the future made from it. |
| ForEachConcurrent.PendingExactly | src/stream/for_each_concurrent_then_try.rs:90-138 | An iteration returns Pending exactly when it took no Ok element, completed no future, and did not find both the stream over and nothing in flight. |
| ForEachConcurrent.AsConcurrentAsAllowed | src/stream/for_each_concurrent_then_try.rs:83-117 | The driver is as concurrent as it is allowed to be: at a Pending return the stream is over or has answered Pending, or the limit is reached, or the stream has just yielded an error. |
| ForEachConcurrent.StartsUpToTheLimit | src/stream/for_each_concurrent_then_try.rs:83-117 | On an error-free stream that never makes it wait, at each Pending return everything the stream had is in flight or completed, unless exactly the limit is in flight. |
| ForEachConcurrent.StalledExactly | src/stream/for_each_concurrent_then_try.rs:90-138 | A Pending return leaves nobody to wake the task if and only if the last iteration took an error from the stream and nothing is in flight. |
| ForEachConcurrent.StallsIffStreamHasError | src/stream/for_each_concurrent_then_try.rs:96-101 | For any `f` and limit, some schedule loses a wake-up if and only if the stream contains an error; on streams without errors none ever is. |
| ForEachConcurrent.LoopingDecreases | src/stream/for_each_concurrent_then_try.rs:80-139 | Twice the items left plus the futures in flight never grows, and shrinks whenever an iteration loops back. |
| ForEachConcurrent.ProgressBound | src/stream/for_each_concurrent_then_try.rs:81-138 | Over a whole run at most two iterations for each Ok element make progress. |
| ForEachConcurrent.RunsToCompletion | src/stream/for_each_concurrent_then_try.rs:78-140 | However long the environment holds answers back, the driver is done once `2 * items + 2` iterations have met no obstacle. |
| ForEachConcurrent.WakersBringItHome | src/stream/for_each_concurrent_then_try.rs:78-140 | On streams without errors, under a scheduler that polls again only when somebody who kept a waker has something to say, the run goes on exactly as long as it is not Ready, and for at most `4 * items + 4` iterations. |
| ForEachConcurrent.WakersSufficeIff | src/stream/for_each_concurrent_then_try.rs:90-138 | Such a scheduler always brings the driver to Ready if and only if the stream contains no error, whatever `f` and the limit. |
| ForEachConcurrent.TerminatedAgrees | src/stream/for_each_concurrent_then_try.rs:47-49 | `is_terminated` is false at creation and at every Pending return, and true at every Ready return. |
| ForEachConcurrent.ForEachConcurrentThenTry.constructor | src/stream/for_each_concurrent_then_try.rs:58-67 | A new driver has seen nothing and is not terminated; a limit of zero limits nothing. |
| ForEachConcurrent.ForEachConcurrentThenTry.Pull | src/stream/for_each_concurrent_then_try.rs:83-117 | Polls the stream once when it is not over and fewer than the limit are in flight, and otherwise not at all (every poll of it is counted); each field is fixed for each answer: an Ok element is handed to `f` and its future joins those in flight, an error is kept if it is the first, None ends the stream. |
| ForEachConcurrent.ForEachConcurrentThenTry.Drain | src/stream/for_each_concurrent_then_try.rs:119-134 | Removes the one future that completes, if any, and keeps its error if it is the first; nothing else changes. |
| ForEachConcurrent.ForEachConcurrentThenTry.Poll | src/stream/for_each_concurrent_then_try.rs:78-140 | Every iteration but the last took an Ok element or completed a future; a Pending poll ends with one that did neither, and leaves off only for the stream, the limit or a stream error; the result is what the history demands; the poll terminates, and only a Ready answer terminates the driver. |
| Robust.OkStaysClean | src/sync/mutex.rs:250-333 | In any interleaving at most one task is inside, and from an Ok permit until the end of its own action no poison is set. |
| Robust.PoisonPersists | src/sync/poison.rs:181-207 | Poison bits are never cleared; once one is set every later acquisition is an error that carries exactly the stored flags, together with the permit. |
| Robust.ExactPoison | src/sync/poison.rs:197-207 | The cancel bit is set exactly when a polled async action was dropped unfinished, the panic bit exactly when a poisoner made on a calm thread was dropped on a panicking one; unused permits and unpolled futures leave no trace. |
| Robust.PoisonBits | src/sync/poison.rs:198-207 | Adding poison sets exactly the bits added, keeps the others, and adding nothing changes nothing. |
| Robust.DataIsLastWritten | src/sync/mutex.rs:607-620 | In every run the data is what an action wrote last: no poisoner, guard or lock undoes or changes it. |
| Robust.AcquiredTells | src/sync/mutex.rs:577-579 | An Ok acquisition means that nothing has ever gone wrong; an error tells which of panic and cancellation have, and both come with the permit. |
| Robust.OkSeesIntactData | src/sync/mutex.rs:607-689 | If completed actions restore the user's invariant, data handed out as Ok satisfies it in every interleaving of tasks, panics and cancellations, until the permit's own action starts, and so does data taken out by `into_inner`; actions unwinding on a thread that was already panicking are excluded. |
| Robust.BreachIffSilentAllowed | src/sync/mutex.rs:607-620 | Broken data can be handed out as Ok if and only if synchronous actions may start on a panicking thread and unwind there. |
| Robust.Flag.Done | src/sync/poison.rs:198-207 | Adds to the flag the bits of a new panic and of a cancellation, and clears none. |
| Robust.RobustMutex.TryLock | src/sync/mutex.rs:328-333 | WouldBlock exactly when the lock is held, and then nothing changes; otherwise the task holds the lock over unchanged data and flags, with a permit that is Ok exactly when the flags are zero. |
| Robust.RobustMutex.TakeApart | src/sync/mutex.rs:462-468 | The data comes out as Ok exactly when the flags are zero, and otherwise as an error with both. |
| Robust.RobustMutex.Perform | src/sync/mutex.rs:607-620 | A synchronous action leaves the data as it made it and the lock free, and poisons exactly if it unwinds on a thread that was calm when it began; it is a run of begin, write, poisoner drop and guard drop in that order. |
| Robust.RobustMutex.DropGuard | src/sync/mutex.rs:720-744 | Unlocks and changes nothing else; it is only ever done once the poison owed has been recorded. |
| Robust.RobustMutex.Poll | src/sync/mutex.rs:669-689 | Only the first poll of an async action makes its poisoner. Suspended keeps the lock and the flags; completed unlocks and leaves the flags as they were on a calm thread; panicking unlocks and adds the cancel bit, and the panic bit exactly if the poisoner was made on a calm thread. The data is as the action left it. |
| Robust.RobustMutex.DropFuture | src/sync/mutex.rs:739-744 | Dropping an async action that was never polled only unlocks; otherwise the action goes first, its destructors leaving the data as they will, then the poisoner, which adds the cancel bit and on a new panic the panic bit, then the guard. |
| Collect.AwaitInOrder | src/future/join_all_then_try.rs:43-45 | Futures completing in any order are delivered in list order, none lost or repeated, and only futures that are ready complete; Pending means that every future still running is not ready, and the end that none runs and none is queued. |
| Collect.PollCompletesReady | src/stream/collect_then_try.rs:52-66 | Over one whole poll of the collector, exactly the futures that are ready in it leave the running set. |
| Collect.OrderedYields | src/future/join_all_then_try.rs:157-159 | `FuturesOrdered` is a finite lossless stream of the outputs in list order. |
| Collect.CollectThenTry.Poll | src/stream/collect_then_try.rs:49-67 | Over any finite stream and any placement of Pending: a Pending return keeps the fold of the items seen; Ready comes only after the last item, errors or not, with the first error or all values in order; the stream is asked until it answers something other than an item, and no further. |
| Outcomes.GatherMeaning | src/future/join_all_then_try.rs:82-85 | The value of a join succeeds with exactly the list of all values, and fails with exactly the error of the lowest-index failure. |
| Joins.AnswerMeaning | src/macros/join_then_try.rs:161-189 | The answer demanded of a poll is Ready exactly when every future has been ready in it or before, with all values in order or the error listed first. |
| Joins.RotationVisitsOnce | src/macros/join_then_try.rs:143-170 | Going round from `s` passes `s..n-1` and then `0..s-1`, and so each branch exactly once. |
| Joins.LeadsOnce | src/macros/join_then_try.rs:129-141 | Among any `n` consecutive polls each branch is polled first exactly once. |
| Joins.LiveMeaning | src/macros/join_then_try.rs:162 | The futures that a poll of the join is to poll are those of its branches that had not completed, each once. |
| Joins.ResolvedMeaning | src/macros/join_then_try.rs:161-173 | A slot is done exactly when its future has been ready at some earlier poll. |
| Joins.JoinThenTry.VisitBranches | src/macros/join_then_try.rs:132-170 | Every branch is visited once, in rotated order, and only futures that had not completed are polled, by the log of polls; the counters do not under- or overflow, and the second round is left at the starting branch. |
| Joins.JoinThenTry.Poll | src/macros/join_then_try.rs:131-189 | Poll `k` starts at branch `k mod n`, polls each future that had not completed once, and answers Ready exactly when every future has been ready by then, with the value of the join; no slot is ever missing its output. |
| Joins.TakeOutputs | src/macros/join_then_try.rs:175-188 | Taking the outputs in order never finds a slot empty, and yields all values or the error listed first; exactly the slots up to that error are taken. |
| Joins.PollSlots | src/future/join_all_then_try.rs:182-189 | By the log of polls, one pass polls every slot once, in list order, and a future only if it had not completed; it finds all done exactly when every future has been ready. |
| Joins.PollOrdered | src/future/join_all_then_try.rs:203 | In each poll exactly the futures that are ready leave the running set, so the collector over `FuturesOrdered` is Ready exactly when every future has been ready, with the value of the join. |
| Joins.JoinAllThenTry.constructor | src/future/join_all_then_try.rs:151-165 | The slice form is taken exactly when the upper size hint is there and at most 30, or without atomic compare-and-swap. |
| Joins.JoinAllThenTry.Poll | src/future/join_all_then_try.rs:174-205 | Both forms keep one contract, to the poll: Pending until every future has been ready, and then the value of the join; the slice form polls each slot once, and no future that has completed. |
| Joins.RunRotating | src/macros/join_then_try.rs:131-190 | Over a whole run, the macro is Ready exactly once every future has been ready, with the value of the join. |
| Joins.RunJoinAll | src/future/join_all_then_try.rs:174-205 | Over a whole run, in whichever form, `join_all_then_try` is Ready exactly once every future has been ready, with the value of the join. |
| Joins.RunSmall | src/future/join_all_then_try.rs:181-201 | The slice form is such a run. |
| Joins.RunBig | src/future/join_all_then_try.rs:157-159 | So is the form over `FuturesOrdered`, in whatever order the futures complete that are ready in the same poll. |
| Joins.JoinThreeWays | src/future/join_all_then_try.rs:153-205 | The macro and both forms of `join_all_then_try` agree poll by poll, under every schedule and every order of completion within a poll. |
| CoopCancel.Ownership | src/coop_cancel.rs:125-130 | While the receiver lives every one-shot sender is in exactly one place, the queue or `first_sender`, and all exist; afterwards none does. |
| CoopCancel.HandlesCounted | src/coop_cancel.rs:167-179 | The cancelers alive are those made less those dropped, so the channel closes exactly when all have been dropped; the receiver is alive exactly until it is dropped. |
| CoopCancel.SendersSurvive | src/coop_cancel.rs:149-161 | Nothing but dropping the receiver destroys a sender. |
| CoopCancel.WaiterResolvesIffDropped | src/coop_cancel.rs:239-248 | A waiter resolves if and only if the receiver has been dropped, even if its message was never received. |
| CoopCancel.OnlyTheFirst | src/coop_cancel.rs:85-88 | In any run at most one `recv` returns a message, and it is the first that was successfully sent. |
| CoopCancel.RecvAnswers | src/coop_cancel.rs:149-161 | The exact answer of `recv` from what was sent, received and dropped, whatever `recv` futures were abandoned before. |
| CoopCancel.CancelFailsIffDropped | src/coop_cancel.rs:199-208 | `cancel` hands its message back if and only if the receiver has been dropped; otherwise its waiter is new and pending. |
| CoopCancel.Channel.Cancel | src/coop_cancel.rs:199-208 | Never waits: with the receiver alive the message and its new sender are queued and a waiter is returned; otherwise the message comes back and the payload's sender is gone at once. |
| CoopCancel.Channel.Clone | src/coop_cancel.rs:173-179 | The copy is one more live canceler, and nothing else changes. |
| CoopCancel.Channel.DropCanceler | src/coop_cancel.rs:167-171 | The canceler is no longer alive, and nothing else changes. |
| CoopCancel.Channel.AbandonRecv | src/coop_cancel.rs:149-161 | Dropping a pending `recv` takes no message and no sender. |
| CoopCancel.Channel.PollRecv | src/coop_cancel.rs:149-161 | Gives the answer that the run's history demands; a message takes its place at the head out of the queue and its sender into `first_sender`, and any other answer takes nothing. |
| CoopCancel.Channel.DropReceiver | src/coop_cancel.rs:125-130 | Dropping the receiver empties the queue and destroys every sender, and touches nothing else. |
| CoopCancel.Channel.PollWaiter | src/coop_cancel.rs:239-248 | Pending while the receiver lives, Ready after. |
| SinkReserve.EveryRunIsOrderly | src/sink/flush_reserve.rs:37-52 | In every run, each item sent through a permit directly follows the `poll_ready` that granted it, and each `poll_ready` of the flushing future follows its successful flush. |
| SinkReserve.Reserve.Poll | src/sink/reserve.rs:48-63 | Asks the sink once while it has it, as one step of the protocol's run. Pending and errors are passed on and keep the sink; readiness gives it up with the permit; afterwards the future is terminated and Pending. |
| SinkReserve.FlushReserve.Poll | src/sink/flush_reserve.rs:37-52 | While flushing, Pending and errors of the flush are passed on, and the sink is not asked anything else; after a successful flush, in the same poll or later, Pending, errors and readiness of the sink give Pending, the error and the permit. The sink is never missed. |
| SinkReserve.FlushReserveMeaning | src/sink/flush_reserve.rs:37-52 | Awaiting comes to the error of the flush if it fails, and otherwise goes on, in the same poll, as a plain reservation; `ReserveMeaning` says that this comes to the sink's first answer. |
| SinkReserve.ReserveMeaning | src/sink/reserve.rs:51-63 | Awaiting a plain reservation comes to the sink's first answer that is not Pending. |
| SinkReserve.Permit.Feed | src/sink/permit.rs:36-38 | Spends a permit that has been granted on one `start_send`, as a step of the protocol's run after which it cannot be spent again. |
| SinkReserve.Permit.Send | src/sink/permit.rs:56-59 | Spends a permit that has been granted on one `start_send`, and leaves a flush to await exactly if the item was accepted. |
| SinkReserve.Spend | src/lib.rs:39-49 | With `feed` or with `send` and its flush, the permit sends the item once, directly after the grant, the error of a refused item is returned, and the sink is free again. |
| SinkReserve.FeedWithRetry | src/lib.rs:33-55 | Whichever reservations are made and however many time out, the item is handed to the sink at most once, through a permit and directly after the grant, and is still at hand otherwise; the first attempt that does not time out decides the result. |

## Left out

- Formatting (`Debug`, `Display`, `Error`), `track_caller`, the prelude and `statically_unreachable`: no state.
- Pinning, lifetimes and `unsafe` projections: matters of memory safety without a counterpart here. That a sink or receiver is borrowed exclusively is part of the step machines' guards.
- Memory orderings: every load and every `fetch_or` of the poison flag is one step, made while the lock is held.
- The internals of Tokio and futures-util, in particular the fairness of the lock queue and the yielding budget of `FuturesUnordered`, which lets a poll stop early, having woken itself, when futures keep waking themselves.
- A poll after Ready of a join, collector or driver: outside the contract of futures.
- `RobustMutex::get_mut`, which bypasses the flag by design, and `perform_async_boxed_local`, which differs from `perform_async_boxed` only in `Send`.
- `lock` and `blocking_lock` are the successful half of `TryLock`; waiting for the lock is a step that is not enabled yet.
- The branches of the macro have types of their own; here they share one.
- ForEachConcurrent.ForEachConcurrentThenTry.Poll: the loop body is split into the two methods `Pull` and `Drain`.
