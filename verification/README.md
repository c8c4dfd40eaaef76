# Gophermart: a verified model of the accrual pipeline and the loyalty ledger

Gophermart accepts order numbers, asks an accrual system about each order through a pool of
workers, credits the points of processed orders to their uploaders, and lets users withdraw
points. This project models that pipeline in Dafny, with its database, its task queue and its
dump file, and proves what every run of it keeps. Three algorithms the service relies on are
modelled beside it: the Luhn check, the text form of money, and the buffering gzip writer.

`dafny verify dfyconfig.toml` checks everything.

## How the model is laid out

| file | content |
|---|---|
| `Digits.dfy`, `Bags.dfy` | decimal digits, int64, `strconv`; multisets over sequences |
| `Luhn.dfy` | the Luhn check |
| `Money.dfy` | printing and parsing of kopecks |
| `Orders.dfy` | orders, replies, and a worker's decision on a reply |
| `TxRetry.dfy` | the bounded transaction loop around an arbitrary body, as a function, as a method and as a description of its ending |
| `Ledger.dfy` | the three tables, the transaction bodies, and the agreement of balances with rows |
| `Books.dfy` | the tables with the bag of live tasks: the abstract machine |
| `Pool.dfy` | reader, dispatcher and workers as small steps over channels and stack |
| `DumpFile.dfy` | records of the dump file and the storage class |
| `System.dfy` | the whole service: uploads, pool, transactions, dump, crash and restart, interleaved |
| `Refines.dfy`, `Safety.dfy` | every event of the system is a step of the abstract machine; the invariant of all runs |
| `Theorems.dfy` | the results about every reachable state |
| `Flows.dfy` | order in the channels, and what the dispatcher does and does not do between two of its acts, over runs |
| `Progress.dfy` | which goroutine waits for what; a shutdown can always come to its end |
| `Shortcut.dfy` | the service with the skipped write against the service that always writes, both ways, and exactly where they part |
| `Attempts.dfy` | the step-by-step writes and inserts of the system are the retry loop |
| `Agreement.dfy` | the service's methods are the system's steps of one task and of one upload, composed |
| `Storage.dfy`, `Service.dfy`, `QueueDump.dfy` | the imperative operations, each run from beginning to end |
| `Compression.dfy` | the gzip writer and its underlying response writer |

A task is *live* while some component can still act on it. It is in the dump file, in the hand
of a caller between insert and offer, in `linkCh`, with the reader, on the stack, with the
dispatcher, in `workerCh`, or with a worker. Entries left on the stack after the dump's
snapshot are dead: `Pool.StackIsDeadAfterSnapshot` shows that nobody takes from it again. The
central fact is that live tasks form a set with one task per order, each equal to its row and
open; ledger correctness follows from it, because the credit itself is unconditional
(`Ledger.SecondUpdateBreaksTheBalance`).

## Assumptions

- A transaction is atomic; a failing commit may or may not have applied, and its caller sees
  an error. Errors of the server or the connection can hit any statement.
- One process at a time uses the dump file. `pauseCh` is never closed. The dump file is Avro.
- The dump's unlocked read of the stack is one atomic snapshot.
- A send on the closed `linkCh` panics. In a worker that ends the process: the model makes it
  a crash. In an upload the router's Recoverer
  (`internal/gophermart/gophermart.go:83`) turns it into the answer of a server error: the call
  is answered "broken", its row stays, its task is lost, and the process goes on.
- The parent's context is done before the pool's own context and before `linkCh` is closed;
  these two follow in either order.
- A failed save leaves the old file or a prefix of the list; a file with an unreadable header
  reads as empty.
- Pause delays are positive. A negative `Retry-After` gets through
  (`internal/clients/accrual.go:166-171`), and the dispatcher's ticker then panics; that end of the
  process is one of the crashes, which can happen at any moment.
- Accrual replies, delays, cancellation, the end of the process and all interleavings are
  free choices. All results are about safety; none says that an order is eventually processed.
- Integers are 64 bits wide: parsing, printing, the negated withdrawal and the `bigint`
  balance model their wrap-around or range error explicitly.
- The wire model of the gzip writer counts every call of the underlying `WriteHeader` as the
  final status line, so statuses of class 1xx are outside it. It also accepts every byte,
  while net/http refuses bytes beyond a declared Content-Length: where a declared length was
  exceeded, a client of the real server gets a truncated body on top of the wrong header.

## Where the code differs from what is said about it

The model follows the code.

- A withdrawal of the whole balance is refused, because the guard is a strict `> 0`
  (`internal/repositories/postgresql/user.go:21`), although the funds suffice:
  `Theorems.WholeBalanceIsRefused` shows that this is the only covered sum refused.
- Nothing checks the sign of a withdrawal's sum (`internal/services/balance_service.go:67-76`).
  A negative sum raises the balance: `Theorems.NegativeSumMakesMoney` reaches a balance of 100
  without any order, and `Theorems.NegativeSumsAdd`, `Theorems.BalanceWithinCredits` and
  `Theorems.NobodyGainsByWithdrawing` state when a balance stays within what was credited.
- The Luhn check ignores spaces and hyphens, but the row is keyed by the text as it came
  (`internal/services/order_service.go:53-67`). One number spelt in two ways is two orders, and
  two users can both be accepted with it: `Theorems.TwoSpellingsBothWin`. At most one is if the
  texts are digits only, `Theorems.OneCallPerNumber`.
- An upload whose insert was committed by a commit that reported an error is answered "broken",
  although its row is there, and its task is never queued.
- `Close` of the gzip writer sets a Content-Length for small bodies, but after the header block
  was sent (`internal/middleware/compression.go:128-137`), so it reaches nobody.
- A small Content-Length declared before `WriteHeader` and then exceeded gives a compressed
  body under a header that does not say so; a large one that is not reached gives a compressed
  small body. `Compression.EncodingMatchesBody` and `Compression.ZippedIffLarge` state these
  as exact conditions, `Compression.TooSmallALengthMisleads` and
  `Compression.TooLargeALengthCompresses` give the inputs.
- The sign of an amount between -0.99 and -0.01 is lost in parsing, the smallest int64 prints
  with two signs, and an exponent is never honoured. `Money.ParseIsExact`,
  `Money.PrintThenParse` and `Money.ExponentIsNotHonoured` state the exact conditions.
- A repeated `PROCESSING` that carries an accrual other than the task's is not stored, and one
  whose accrual the parser refuses is requeued where the always-writing service would drop the
  task. (The model takes any text for an accrual. On an empty fraction, as in "5.", the parser
  panics; JSON does not allow that text, so no reply carries it.) For every other run the
  shortcut loses nothing (`Shortcut.FastRefinesSimple`, `Shortcut.SimpleRefinesFast`), and for
  each single repeat that condition is exact (`Shortcut.ShortcutLosesExactlyTheAccrual`).

## Model

| member | source | states |
|---|---|---|
| Luhn.IsValidLuhn | internal/services/alg/lunh.go:8-40 | the parity loop accepts exactly the digit strings, spaces and hyphens removed, whose right-to-left Luhn sum (ISO/IEC 7812-1, Annex B) is a multiple of 10, for any length |
| Luhn.SeparatorsAreIgnored | internal/services/alg/lunh.go:9-11 | a space or hyphen inserted anywhere does not change the verdict |
| Luhn.SubstitutionIsRejected | internal/services/alg/lunh.go:20-39 | every change of a single digit of a valid number is rejected |
| Luhn.AdjacentSwapIsRejectedUnlessZeroNine | internal/services/alg/lunh.go:20-39 | a swap of adjacent distinct digits of a valid number stays undetected exactly for 0 with 9 |
| Luhn.CheckDigitExistsAndIsUnique | internal/services/alg/lunh.go:20-39 | every digit prefix has exactly one valid check digit |
| Luhn.TwoDigitNumbers | internal/services/alg/lunh.go:20-39 | of two digits the first is doubled: a number iff the digits of the double and the second add up to a multiple of 10 |
| Luhn.OthersAreRefused | internal/services/alg/lunh.go:13-18 | a character that is no digit, space or hyphen spoils any text |
| Money.ParseIsExact | internal/models/order.go:112-152 | for every JSON decimal without exponent (RFC 8259, section 6) the parser returns 100 times the value truncated toward zero iff that fits int64 and no minus sign stands before a zero integer part of a non-zero result |
| Money.NoIntermediateOverflow | internal/models/order.go:118-123 | whenever the result fits int64, the integer part parses and its product with 100 does not wrap |
| Money.ExponentIsNotHonoured | internal/models/order.go:128-142 | an exponent makes the text malformed with fewer than two decimals and is ignored with two or more |
| Money.EmptyFractionPanics | internal/models/order.go:112-142 | a number with a point and nothing behind it panics iff its integer part is read, else it is malformed |
| Money.TwoPointsAreMalformed | internal/models/order.go:112-118 | any text with two points is malformed |
| Money.PrintIsJson | internal/models/order.go:159-187 | every amount but the smallest int64 prints as a JSON number whose value is the amount |
| Money.PrintThenParse | internal/models/order.go:112-187 | for every int64: identity for a >= 0 and -2^63 < a <= -100, -a for -100 < a < 0, malformed for -2^63 |
| Orders.ShortcutSkipsANoOpWrite | internal/services/order_service.go:121-149 | for a repeated PROCESSING, always writing would write the task back unchanged iff the reply has no accrual or the task's own |
| Orders.WrittenOrder | internal/services/order_service.go:127-144 | a written order keeps id and owner, has a status the reply asks for (REGISTERED asks for NEW), and the reply's accrual or, without one, the task's |
| Orders.DecisionPerReply | internal/services/order_service.go:99-144 | reply by reply: 429 pauses and requeues, failures and unknown statuses drop; outside the shortcut an order is written iff its accrual is absent or readable, and it is then the task's with exactly that status and accrual |
| TxRetry.WithTxRetry | internal/repositories/postgresql/common.go:92-125 | up to three attempts, and all three where none decides earlier, of an arbitrary body among arbitrary transactions of others; earlier attempts all began, failed retriably and were rolled back; each error is returned exactly for its cause in the last attempt; the last body's effect remains iff its commit was acknowledged or failed too late, and no other effect ever does |
| TxRetry.OutcomeIsLoop | internal/repositories/postgresql/common.go:92-125 | that description of the ending holds of the loop's result and of no other |
| TxRetry.ThirdAttemptDecides | internal/repositories/postgresql/common.go:16-125 | after two retriable failures the third attempt decides: unhit, nil and the body's effect on what others left; hit, its error, and there is no fourth |
| Attempts.WriteIsTheLoop | internal/repositories/postgresql/common.go:92-125 | the worker's attempts, taken one at a time among the transactions of others, leave the tables the retry loop leaves, and requeue iff it returns nil for a PROCESSING |
| Attempts.InsertIsTheLoop | internal/services/order_service.go:67-87 | the upload's insert attempts leave the tables the retry loop leaves; the call goes on to the offer iff it returns nil, to the lookup iff it returns "exists" |
| Attempts.ThirdWriteDecides | internal/services/order_service.go:146-154 | the same for a worker's write, step by step: made and requeued or done, or given up |
| Attempts.ThirdInsertDecides | internal/services/order_service.go:67-87 | the same for an upload's insert, step by step: the row and the offer, or the answer "broken" |
| Ledger.UpdateOrderKeepsSound | internal/repositories/postgresql/order.go:99-111 | completing an open order under its own owner keeps balances, rows and credit counts in agreement and overwrites exactly that row |
| Ledger.UpdateSucceeds | internal/repositories/postgresql/order.go:99-111 | for any tables and order: the update succeeds iff no credit is due or the credit can be given; it leaves that row with the new status and accrual under its owner, exactly the credit if due, and all else as it was |
| Ledger.UpdateOfSoundSucceeds | internal/repositories/postgresql/order.go:99-111 | over sound tables it succeeds iff a positive accrual of a processed order has a registered user and a total within int64 |
| Ledger.CreditIsRefusedOnlyWhen | internal/repositories/postgresql/user.go:82-95 | a credit is refused iff the user has no row or the total overflows; never by the strict guard |
| Ledger.WithdrawalIsGuarded | internal/repositories/postgresql/withdrawal.go:64-74 | a withdrawal commits iff the balance strictly exceeds its sum and the new balance fits; it then leaves one row and one debit |
| Ledger.SecondUpdateBreaksTheBalance | internal/repositories/postgresql/order.go:104-108 | a second processed update of one order credits twice and breaks the agreement: the transaction alone does not protect it |
| Books.StepKeepsGood | internal/repositories/postgresql/order.go:18-26 | every abstract step keeps: totals agree, live tasks mirror open rows, one per order; rows never vanish or change owner, final rows never change |
| Storage.SQLStorage.AddOrder | internal/repositories/postgresql/order.go:76-97 | tables and error are the retry loop's; success means the row was new and is as inserted with accrual 0, "exists" that a row is there, and an attempt nothing hits is told exactly which |
| Storage.SQLStorage.UpdateOrder | internal/repositories/postgresql/order.go:99-111 | tables and error are the retry loop's; an attempt nothing hits succeeds iff no credit is due or it can be given; success leaves the row with the new status and accrual, its owner kept, exactly the credit if due, every other row, balance and withdrawal unchanged |
| Storage.SQLStorage.GetOrder | internal/repositories/postgresql/order.go:33-50 | the lookup fails iff its last read fails, every earlier one having failed retriably, the third being the last; otherwise it returns the stored row iff it belongs to the user |
| Storage.SQLStorage.AddWithdrawn | internal/repositories/postgresql/withdrawal.go:64-82 | tables and error are the retry loop's; an attempt nothing hits grants the withdrawal iff the guard holds; success leaves the row and a positive balance less the sum, a refusal neither row nor debit |
| Service.OrderService.Store | internal/services/order_service.go:52-88 | accepted iff the caller's insert was committed and acknowledged, the new row then being offered to the queue; "yours" or "another's" iff a row was in the way and the lookup completed, by the row's owner whatever commits in between; "broken" in all other cases, one of which, a commit that failed after applying, leaves the caller's row behind |
| Service.OrderService.SendOrderToProcessor | internal/services/order_service.go:159-168 | handed over if the reader waits, whatever the buffer's size, else appended if there is room, else dropped; what was sent arrives in order |
| Service.OrderService.ProcessAccrualTask | internal/services/order_service.go:99-157 | per reply: 429 offers the delay and the unchanged task; failure and unknown status change nothing; a repeated PROCESSING is requeued unwritten; any other reply is one retried write of exactly the task's order with the reply's status (REGISTERED as NEW) and accrual, iff that is absent or readable, then a requeue iff the write succeeded with PROCESSING |
| Agreement.TaskStepsAgree | internal/services/order_service.go:99-157 | the worker's steps in the system, composed from reply to requeue, leave the tables, channels and result of the method, the worker idle and the others untouched |
| Agreement.UploadStepsAgree | internal/services/order_service.go:52-88 | the upload's steps in the system, composed from call to offer, leave the tables, the channel and the answer of the method |
| Pool.PoolStepMovesTasks | internal/processors/pool.go:73-97 | no step of reader, dispatcher or worker creates or duplicates a live task (their order is in Flows) |
| Pool.DispatcherMovesTasks | internal/processors/pool.go:148-217 | no step of the dispatcher, pause and shutdown push-backs included, loses one either (what follows what is in Flows) |
| Pool.PoolStepKeepsInv | internal/processors/pool.go:73-217 | wakeups, conservation in flight, order of the dump list, wait-group count and channel bounds are kept by every step |
| Theorems.LastInFirstOut | internal/processors/pool.go:168-215 | over any run of a process a task on the stack stays, with all beneath it, until it is taken as the topmost: later arrivals, push-backs included, leave earlier |
| Flows.LinkIsFirstInFirstOut | internal/processors/pool.go:73-97 | over any run of a process: what came into the reader's hand, then what is left in `linkCh`, is what was there, then what was accepted into it, in order |
| Flows.WorkIsFirstInFirstOut | internal/processors/pool.go:186-253 | over any run of a process: what workers and the dump took, then what is left in `workerCh`, is what was there, then what the dispatcher gave away, in order |
| Flows.ShutdownGoesToTheDump | internal/processors/pool.go:150-155 | after stopping or giving up, over any run: nothing leaves the stack, `workerCh` does not grow, and the dispatcher does nothing but put its task back until the snapshot, its only act once that is done |
| Flows.PauseHandsNothingOut | internal/processors/pool.go:156-202 | between taking a delay, which empties `pauseCh`, and rising, over any run: the dispatcher gives nothing away and does nothing but put its task back |
| Flows.AsleepUntilWoken | internal/processors/pool.go:148-174 | after finding the stack empty, and after a start, it looks at the stack and gives tasks away only after a wakeup |
| Flows.OneWakeupPerSignal | internal/processors/pool.go:84-94 | a signal wakes the dispatcher once |
| Progress.DispatcherBlocks | internal/processors/pool.go:148-217 | the dispatcher can act in every state but at its two selects with no case ready, and after its return |
| Progress.ReaderBlocks | internal/processors/pool.go:73-97 | the same for the reader |
| Progress.WorkerBlocks | internal/processors/worker.go:49-67 | the same for a worker; one with a task is never blocked |
| Progress.SelectsTakeAnyReadyCase | internal/processors/pool.go:148-217 | at each select of dispatcher and reader every ready case can be taken, and no other |
| Progress.CallsCanGoOn | internal/services/order_service.go:67-87 | an unanswered upload is never blocked, and hands its task over directly iff the reader waits at an empty channel |
| Progress.EnvironmentIsFree | internal/gophermart/gophermart.go:138-146 | contexts end and channels close in that order and no other; crashes, starts and uploads come at any time |
| Progress.SendOnClosedChannel | internal/gophermart/gophermart.go:141-146 | a send on the closed `linkCh` leaves an upload "broken" with its row in place and its task gone, and ends a worker's process, tables and file untouched |
| Progress.ShutdownCanEnd | internal/processors/pool.go:148-261 | from every reachable state, once the context ends, the dispatcher's own acts can lead to the save |
| Pool.StackIsDeadAfterSnapshot | internal/processors/pool.go:204-213 | after the dump's snapshot nobody takes from the stack again |
| Pool.ClosedOnlyAfterAllReturned | internal/processors/pool.go:100-131 | `workerCh` is closed only after reader, dispatcher and all workers have returned |
| Pool.DrainTerminates | internal/processors/pool.go:239-253 | each turn of the drain loop shortens `workerCh`, or ends the loop at an empty one; nobody lengthens it, and it is not closed, so the closed-channel arm is never taken |
| DumpFile.RecordRoundTrip | internal/repositories/file/avro.go:145-216 | number, owner, status and accrual survive encoding and decoding |
| DumpFile.RecordHoldsTheOrder | internal/repositories/file/avro.go:145-154 | the record of an order, field by field |
| DumpFile.AnyRecordReads | internal/repositories/file/avro.go:157-216 | any record: an error iff a text field has another type, else its fields, empty or 0 where missing |
| DumpFile.AvroFileStorage.Save | internal/repositories/file/avro.go:95-127 | the file holds one record per order, in order, or what the failure left |
| DumpFile.AvroFileStorage.Restore | internal/repositories/file/avro.go:55-93 | for any records: a failure iff one does not decode, else all of them in order |
| DumpFile.SavedOrdersComeBack | internal/repositories/file/avro.go:145-216 | what was saved decodes, to exactly the orders saved |
| DumpFile.AvroFileStorage.Erase | internal/repositories/file/avro.go:130-142 | the file is gone, or untouched on failure |
| QueueDump.WorkerPool.DumpQueue | internal/processors/pool.go:229-261 | saves the stack from the bottom, then all of `workerCh`, and empties `workerCh` |
| QueueDump.WorkerPool.RestoreQueue | internal/processors/pool.go:263-291 | a successful restore and erase appends the saved list in order with a wakeup iff it is not empty; a failure, or a record that does not decode, puts nothing in memory and keeps the file |
| QueueDump.UndisturbedDump | internal/processors/pool.go:229-253 | the dispatcher's dump steps, taken alone, save that same list |
| Refines.EventRefines | internal/services/order_service.go:99-157 | every event of the interleaved service is one step of the tables with their live tasks |
| Safety.RunKeepsInv | internal/services/order_service.go:52-168 | the invariant of the whole service is kept along every run, and tables only extend |
| Theorems.BalancesAgree | internal/repositories/postgresql/order.go:99-111 | in every reachable state each balance is the positive accruals of the user's processed orders minus the user's withdrawals, never negative, positive once touched |
| Theorems.CreditedAtMostOnce | internal/repositories/postgresql/order.go:104-108 | over every run with crashes and restarts an order is credited once if processed with a positive accrual, else never |
| Theorems.ProcessedIsCredited | internal/services/order_service.go:99-157 | in every reachable state a PROCESSED reply with a positive accrual and a committed attempt leave the row PROCESSED with it and the owner's balance higher by it, for a registered user whose total fits, and nobody else's |
| Theorems.CommittedWriteIsStored | internal/services/order_service.go:146-154 | in every reachable state any committed write leaves the row as written, the credit if one is due, and the worker requeueing iff PROCESSING |
| Theorems.RepliesAreWritten | internal/services/order_service.go:127-146 | outside the shortcut a reply sets its worker to write exactly its status and accrual |
| Theorems.WithdrawalsAreCovered | internal/repositories/postgresql/user.go:21 | in every reachable state a withdrawal commits only below the balance and takes exactly its sum |
| Progress.WithdrawalsThatCommit | internal/services/balance_service.go:67-76 | in every reachable state a withdrawal can commit iff its order number passes the check and the balance strictly exceeds its sum; it leaves its row and its debit and nothing else |
| Theorems.WholeBalanceIsRefused | internal/repositories/postgresql/user.go:21 | of the non-negative sums the balance covers, exactly the whole balance is refused |
| Theorems.NegativeSumsAdd | internal/services/balance_service.go:67-76 | a committed withdrawal raises the balance iff its sum is negative |
| Theorems.BalanceWithinCredits | internal/services/balance_service.go:67-76 | in every reachable state a balance is within what was credited iff the user's withdrawals do not sum to a gain |
| Theorems.NobodyGainsByWithdrawing | internal/services/balance_service.go:67-76 | in every run without negative sums no balance exceeds what was credited |
| Theorems.NegativeSumMakesMoney | internal/services/balance_service.go:67-76 | a reachable state with no orders and a balance of 100, of which 99 but not 100 can be withdrawn |
| Theorems.OneLiveTaskPerOrder | internal/services/order_service.go:85-168 | in every reachable state at most one live task per order in all places and the file, equal to its open row |
| Theorems.WritesUpdateOwnRow | internal/repositories/postgresql/order.go:18-26 | a worker's upsert always meets its own task's row, under the same owner: never the insert branch, never another user's credit |
| Theorems.FinalIsForever | internal/services/order_service.go:129-154 | an INVALID or PROCESSED row never changes in any continuation, and no task for it is live |
| Theorems.OneCallWins | internal/services/order_service.go:67-87 | of all uploads under one text at most one is ever accepted; its caller owns the row, and the text passed the Luhn check |
| Theorems.OneCallPerSpelling | internal/services/order_service.go:53-67 | accepted uploads of one number, spaces and hyphens aside, are one upload iff their texts are equal |
| Theorems.OneCallPerNumber | internal/services/order_service.go:53-67 | of all uploads of one number by texts of digits only at most one is accepted |
| Theorems.TwoSpellingsBothWin | internal/services/order_service.go:53-67 | a reachable state in which two users are both accepted with one number, "0" and "0" with a space appended |
| Theorems.NewTextIsAccepted | internal/services/order_service.go:52-88 | an undisturbed upload under a text new to the table is accepted, whatever number it spells |
| Theorems.DuplicatesAreToldTheOwner | internal/services/order_service.go:68-83 | a completed duplicate is told "exists" iff the caller owns the row, "other user" otherwise |
| Theorems.AnswersStand | internal/services/order_service.go:52-88 | an answer that was given stands in every continuation, crashes included |
| Theorems.OwnersNeverChange | internal/repositories/postgresql/order.go:22-24 | rows stay and keep their owner in every continuation |
| Theorems.PoolIsSound | internal/processors/pool.go:73-217 | no lost wakeup, conservation and dump order in every reachable state of every process run |
| Theorems.WorkerChannelClosesLast | internal/processors/pool.go:126-130 | a closed `workerCh` means that every possible sender and receiver has returned |
| Theorems.DumpIsComplete | internal/processors/pool.go:229-253 | in every reachable state at the save, whatever else ran: `workerCh` is empty, and what was restored and received is exactly the saved list, what workers took, the reader's hand, and what came on the stack after the snapshot |
| Theorems.SavedListIsStackThenChannel | internal/processors/pool.go:229-253 | in every run from the snapshot to the save: the list is the stack, then the channel's tasks of that moment in order without those workers took meanwhile |
| Theorems.GracefulRestart | internal/processors/pool.go:229-291 | the list of a successful save is complete; whatever happens until the next start, a successful restore rebuilds it in order with a wakeup iff non-empty; a failed restore or erase leaves memory empty and the file whole |
| Theorems.StartIsFresh | internal/processors/pool.go:99-131 | a start, for each outcome of restore and erase: all channels empty, everyone at the beginning, stack, file and wakeup as they should be |
| Theorems.OnlySaveAndStartTouchTheFile | internal/repositories/file/avro.go:95-142 | no other event, a crash included, changes the dump file |
| Shortcut.FastRefinesSimple | internal/services/order_service.go:121-125 | every run whose repeats carry no accrual or the task's own is a run of the always-writing service to the very same state |
| Shortcut.SimpleRefinesFast | internal/services/order_service.go:121-149 | conversely for the same repeats, up to a worker caught inside a write without effect: same tables, calls, queues and file |
| Shortcut.ShortcutLosesExactlyTheAccrual | internal/services/order_service.go:121-149 | for every repeat and every accrual text, reply and committed write of the always-writing service give the state of the service with the shortcut iff there is no accrual or it is the task's own |
| Shortcut.AccrualInARepeatIsDropped | internal/services/order_service.go:121-144 | for every other repeat the always-writing service stores the accrual, or drops the task if it is malformed, or panics on an empty fraction, while the shortcut keeps row and task |
| Compression.Serve | internal/middleware/compression.go:36-41 | for every sequence of a handler's calls, then Close, the wire carries the specified response: one status line before any byte, a body of one kind, decoding to the concatenation of the writes |
| Compression.DecodesToWhatWasWritten | internal/middleware/compression.go:59-139 | on the wire of every sequence of calls: one status line first, all plain or all compressed, decoding to the concatenation of the writes |
| Compression.ZippedIffLarge | internal/middleware/compression.go:69-96 | the body on the wire is compressed iff larger than the threshold, independent of chunking, except exactly for a declared size above the threshold that is not reached |
| Compression.EncodingMatchesBody | internal/middleware/compression.go:84-112 | the Content-Encoding sent matches the body and no Content-Length goes with a compressed one, except exactly for a declared size within the threshold that is exceeded |
| Compression.HonestLengthsAreSafe | internal/middleware/compression.go:59-139 | with Content-Length absent, unparsable or right at the settling call: one status line, decodes, compressed iff large, encoding matches, no length with a compressed body |
| Compression.HonestLengthArrives | internal/middleware/compression.go:99-112 | when every length the handler sets is honest, the one sent is the size of the plain body it comes with |
| Compression.TooSmallALengthMisleads | internal/middleware/compression.go:84-93 | one byte declared, two written: compressed body, header of one plain byte |
| Compression.TooLargeALengthCompresses | internal/middleware/compression.go:84-89 | two bytes declared, one written: compressed body within the threshold |
| Compression.LastStatusWins | internal/middleware/compression.go:77-118 | the status sent is the last one set up to the call that settles the encoding or exceeds the threshold, small writes in between or not, and 200 if none was set |
| Compression.LastLengthArrives | internal/middleware/compression.go:77-138 | a plain body comes with the Content-Length set last up to the call that sent the header; one announced as compressed comes with none |
| Compression.GzipWriter.Write | internal/middleware/compression.go:59-75 | the response so far plus the bytes, compressing from the first byte beyond the threshold |
| Compression.GzipWriter.WriteHeader | internal/middleware/compression.go:77-97 | sets the status until the header block is sent; a parsable Content-Length settles the encoding |
| Compression.GzipWriter.StartGzip | internal/middleware/compression.go:99-121 | header block with the encoding unless one was sent, then the buffer, compressed |
| Compression.GzipWriter.Close | internal/middleware/compression.go:123-139 | one status line first, then only plain or only compressed pieces with one trailer |

## Left out

- HTTP handlers, routing, authentication, password hashing, logging, configuration and migrations: plumbing over other libraries.
- The HTTP client of the accrual system and its retries: only the kinds of replies are kept; that a 429 without a usable Retry-After gets the default delay is not modelled.
- Floating-point parsing of withdrawal sums (`internal/models/common.go:26-41`): sums are arbitrary int64 values.
- SQL text, drivers, column widths, Avro, snappy and gzip bytes: atomic table updates, field-preserving records, and an encoder whose decoding is the identity stand for them.
- `internal/repositories/file/json.go`: not wired in.
- Timestamps, list queries and their order, `GetWithdrawn`, `ListOrders`, `ListWithdrawals`, and the thin balance and user services: they change nothing.
- Classification of PostgreSQL error codes: one retriable flag.
- The compression of requests and the responses to clients that accept no gzip (`internal/middleware/compression.go:26-35`, `internal/middleware/compression.go:44`): the writer is not involved.
- Liveness, real time, memory-model races, and the goroutines' code as loops: the goroutines are modelled as steps on values, since other goroutines act between any two of them; the operations that run alone are methods on classes.
- Service.OrderService.ProcessAccrualTask: runs from beginning to end against one channel state, which is open; its interleaving with the pool and other workers, and the send on a closed channel, are in System.
- Service.OrderService.Store: the send on a closed channel is in System only.
- QueueDump.WorkerPool.RestoreQueue: a status text that is none of the four, which no saved record has, stands for NEW.
- QueueDump.WorkerPool.DumpQueue: no worker takes tasks meanwhile; the interleaved dump is in `Theorems.DumpIsComplete` and `Theorems.SavedListIsStackThenChannel`.
