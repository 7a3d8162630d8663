# Verification of the research service's stateful core

A Dafny model of the parts of the service where state, money and interleaving meet, with proofs about every
run or every input. `dafny verify dfyconfig.toml` checks the whole project.

The model follows the code. Each database function is one atomic step on tables held as maps. A class holds the
tables its functions update, each of its methods is proved to leave exactly the state a specification function
names, and the protocols are then state machines over those same specification functions, so that workers,
requests, sweeps, cleanups and admin resets interleave in any order. An event that is not enabled changes
nothing, which makes every sequence of events a run. What the specification functions mean is stated beside them in the
fields of the rows, in numbers and in plain arithmetic, on the methods and in lemmas that do not name those functions.

| file | models |
|---|---|
| `task_queue.dfy` | the durable queue: rows, attempts, stale requeues, finalization markers, admin resets |
| `bulk_jobs.dfy`, `bulk_protocol.dfy` | bulk tables and fan-out; one bulk job from reservation to refund over the shared queue |
| `bulk_long_jobs.dfy` | why a job of more than one chunk may be finalized before its fan-out is over |
| `lists.dfy` | list accounts and counters; the credits of a list across reruns, its finalization and any number of retries |
| `credits.dfy` | the balances of users and organizations, and Stripe sessions |
| `ratelimit.dfy` | the sliding-window limiter against an ideal limiter that forgets nothing |
| `cursors.dfy`, `keyset.dfy` | composite cursors, and keyset pagination of list accounts |
| `json_extract.dfy` | the brace, string and escape scanner against a printer of JSON trees |
| `chunking.dfy` | the overlapping sentence chunker |
| `pain_inference.dfy` | the passes that compound, dampen, adjust, weigh, filter and sort pain signals |
| `dedup.dfy` | removal of lines repeated across report sections |
| `slugs.dfy` | vanity slugs |
| `watchlist.dfy`, `idempotency.dfy` | claiming of recurring research; idempotency keys |
| `common.dfy`, `text.dfy` | options, counting over tables; `strip` and `lower` |

## What the proofs found

- **A bulk job or list is finalized only after a stale requeue of one of its own children.** The docstring of
  `check_no_pending_siblings` (db/task_queue.py:147) promises that one child wins the finalization. But a child asks
  while its own row is still `running` (api/jobs.py:295 and api/jobs.py:379 come before worker.py:75), and the count
  it takes includes that row (db/task_queue.py:174-183). `TaskQueue.NeverGrantedUnswept` proves for every key that a
  dispatch whose own row was never swept is never granted; a list child's row carries its list's key
  (`BulkJobs.ListChildCounted`), as a bulk child's carries its job's (`BulkProtocol.PayloadFields`), and keeps it
  (`BulkJobs.ListNeverGrantedUnswept`). `BulkProtocol.NeverFinalizedUnswept` follows this through a bulk job: unless
  one of its own child rows is swept it is never finalized and its failed items are never refunded, whatever happens
  to other tasks. `BulkProtocol.SomeRunSettles` gives a run, with the worker's own 15-minute sweeps, that does settle.
- **One stale requeue allows two terminal failures of a task.** `complete` and `fail` have no status guard.
  `TaskQueue.ExhaustionsBounded` bounds terminal failures by one plus stale requeues plus admin resets, and
  `TaskQueue.ExhaustionTwiceAfterStale` attains the bound, so a research job can be refunded twice.
- **The sweep that a finalization needs can corrupt what it refunds.** A swept child runs again while its slow worker
  is still at it, and `update_bulk_job_item` has no status guard. `BulkProtocol.CountersAgreeExactly` proves that a
  job's counters are ahead of its rows by exactly the number of times a step writes an item that is already terminal,
  timeouts of slow items included (api/routes.py:752-763). `BulkProtocol.NetDebit` and `BulkProtocol.CreditsConserved`
  give the exact cost and condition, and `BulkProtocol.DoubleVerdictOverRefunds` a run in which two dispatches fail
  one item, it is counted twice, and a job that reserved 100 gets 200 back. Where each item becomes terminal once, a
  job whose items are all terminal at the finalization costs exactly 100 per completed item from then on while its
  marker lives; this covers the recovery of a child whose worker died (`BulkProtocol.SomeRunSettles`).
- **A finalization comes after the whole fan-out exactly in jobs of at most 500 items.** `BulkProtocol.GrantSafe`
  proves it for them in every run, failed fan-out tasks included; the service accepts at most 100 items
  (api/routes.py:697-698). `BulkLongJobs.LongJobGrantedEarly` builds, for every longer job, a run in which the fan-out
  task fails for good after its first chunk and the job is finalized without the rest;
  `BulkLongJobs.EnqueuedFirstExactly` states both directions.
- **The counters of a list agree with its rows exactly until an update finds a finished account or a reset finds one
  that is not failed.** `ListProtocol.CountersAgreeExactly` proves both directions. Both happen: a list item that a
  stale requeue runs again (`ListProtocol.RerunCompletesFailed`), and two retries of one account of which the second
  reset clips the failure counter at zero (`ListProtocol.OverlappingRetriesClip`).
- **List credits go wrong in both directions.** `ListProtocol.NetDebit` is exact in every run of the protocol: beyond
  100 for each completed account and each retry under way, a list costs 100 for each reservation that no first
  analysis used and no finalization refunded, and for each completed account that is written over; it is given back
  100 for each reservation used twice or refunded as well as used, and for each retry that is settled again.
  `ListProtocol.ConservedExactly` turns this into the exact condition, and `ListProtocol.CreditsConserved` into what
  can go wrong after a finalization that was itself exact. A rerun that completes a failed account has its credit
  refunded all the same (`ListProtocol.RerunCompletesFailed`). A retry paid for before the finalization costs 200 for
  one completed account (`ListProtocol.EarlyRetryOvercharges`), and so do two retries of one account that overlap
  after it (`ListProtocol.LateRetriesOvercharge`), since two requests may both read `failed` and both pay
  (routes/lists.py:692-706). A retry task that runs again is refunded twice (`ListProtocol.RetryRefundedTwice`).
- **The JSON extractor takes a shortcut too far.** Text that begins with `{` and ends with `}` is returned whole, so
  an object followed by other text that ends in `}` is not extracted. `JsonExtract.ExtractUndoesPrint` has the exact
  condition.
- **Keyset pages skip rows only where a score reaches the NULL sentinel.** `Keyset.WalkCompleteExactly` has the exact
  condition; scores from 0 to 100 meet it.
- **Chunks can exceed `max(size, overlap + 1 + longest sentence)` only for an overlap below -1**, and **a slug can
  exceed `max_length`, or not be its own slug, only for a `max_length` below 8**, where the fallback `untitled` does
  not fit.

## Model

| member | source | states |
|---|---|---|
| TaskQueue.TaskTable.EnqueueMany | db/task_queue.py:12-22 | one row per payload under consecutive new ids, pending, due at once, with no attempt made and 3 allowed; nothing else changed |
| TaskQueue.AfterEnqueueRow | db/task_queue.py:12-22 | which ids an enqueue adds, what each new row holds, and that old rows are kept |
| TaskQueue.TaskTable.ClaimNext | db/task_queue.py:38-70 | claims an oldest row that is pending, has attempts left and is past its run_at, and only that row; None exactly when there is none |
| TaskQueue.TaskTable.Complete | db/task_queue.py:73-79 | completes the row whatever its status was |
| TaskQueue.TaskTable.Fail | db/task_queue.py:82-107 | fails the row or requeues it with backoff, whatever its status was; True exactly when attempts are used up |
| TaskQueue.TaskTable.RequeueStale | db/task_queue.py:110-144 | exactly the rows running for longer than the timeout get one more attempt and are requeued or failed, every other row stays; markers over a day old go; counts what it requeued |
| TaskQueue.TaskTable.CheckNoPendingSiblings | db/task_queue.py:147-193 | granted exactly when no marker lives and every row of the key is terminal; the grant leaves a marker |
| TaskQueue.TaskTable.RetryFailedTask | db/task_queue.py:213-225 | resets a failed row and no other |
| TaskQueue.TaskTable.CleanupCompletedTasks | db/task_queue.py:228-243 | drops old terminal jobs and never a marker; counts what it dropped |
| TaskQueue.RetryWaits | db/task_queue.py:82-107 | a task that fails with attempts left can be claimed again from 10, 20, 40, 80, 160 and then 300 seconds on, by its attempts, and not before |
| TaskQueue.SweepSpares | db/task_queue.py:110-132 | a sweep of m minutes leaves a claimed task alone if and only if it comes within m minutes of the claim |
| TaskQueue.ResetRuns | db/task_queue.py:213-225 | a reset task can be claimed again as soon as its last backoff is over, with its attempts back at the start |
| TaskQueue.RowInvariant | db/task_queue.py:38-132 | in every run: pending means attempts < max, running 1..max, failed at least max, never more than max + 1 |
| TaskQueue.StepKeepsRow | db/task_queue.py:73-132 | each single step keeps the row invariant, slow workers' completes and fails included, and each row's type and payload |
| TaskQueue.RunKeepsJob | db/task_queue.py:12-243 | through every run, a row found under an id has the type and payload that were enqueued under it |
| TaskQueue.ClaimsBounded | db/task_queue.py:38-70 | attempts are claims plus stale requeues, and a task is claimed at most max_attempts times between resets |
| TaskQueue.ExhaustionsBounded | db/task_queue.py:82-107 | fail returns True at most once more than the task was requeued as stale or reset |
| TaskQueue.TerminalFailuresBounded | db/task_queue.py:82-107 | in every run, failures of a task with its attempts used up are at most one more than the sweeps and resets of it, each counted in the events themselves |
| TaskQueue.ExhaustionOnce | worker.py:75-85 | without stale requeues and resets: True at most once, after exactly max_attempts claims, never after a complete |
| TaskQueue.ExhaustionTwiceAfterStale | worker.py:75-85 | a run with one stale requeue in which fail returns True twice |
| TaskQueue.GrantIsSafe | db/task_queue.py:174-193 | at a grant no row of the key is pending or running, and the grant leaves its marker |
| TaskQueue.MarkerPersists | db/task_queue.py:134-142 | while a marker lives nobody is granted, and only the 24-hour cleanup removes it |
| TaskQueue.GrantTimesSpaced | db/task_queue.py:147-193 | from any legal state the grants of a key lie more than a day apart, and beyond any live marker |
| TaskQueue.NeverGrantedUnswept | db/task_queue.py:174-183 | for every key and run: a dispatch whose own row was never swept still has it running, so asking for its own parent it is not granted |
| TaskQueue.StepKeepsDispatch | worker.py:75-78 | unless swept, a task has one dispatch while its row runs and none otherwise, resets and cleanups included |
| TaskQueue.FinalizationOnceADay | db/task_queue.py:147-193 | in every run two grants for one parent are more than 24 hours apart |
| BulkJobs.BulkTables.CreateBulkJobWithCredit | db/bulk.py:20-51 | debit and job row together, or neither when the balance is short |
| BulkJobs.BulkTables.UpdateBulkJobItem | db/bulk.py:140-177 | item status and the matching parent counter change together, and nothing else |
| BulkJobs.BulkTables.FinalizeBulkJob | db/bulk.py:180-203 | status failed, partial failure or completed by the failure count; error on a missing job |
| BulkJobs.BulkTables.GetBulkJobItems | db/bulk.py:115-137 | paging returns every item of the job once, in id order, for any page size |
| BulkJobs.BulkTables.Page | db/bulk.py:115-132 | a page is the next items in id order, none skipped, empty only at the end |
| BulkJobs.ChunkPayloads | api/jobs.py:254-258 | a chunk's payloads are the corresponding slice of all children's payloads |
| BulkJobs.ChildPayloadAt | api/jobs.py:254-258 | child i carries item i and index i |
| BulkJobs.ChildFields | api/jobs.py:254-258 | a child's payload has its index, else the field of its item, else the shared field |
| BulkJobs.EnqueueAppends | api/jobs.py:254-258 | enqueuing chunk after chunk equals enqueuing all children at once |
| BulkJobs.FanOut | api/jobs.py:246-259 | the chunked fan-out leaves one pending child per item, with the shared fields, the item's and its position |
| BulkJobs.ListChildCounted | api/jobs.py:309-316 | a list child's row carries its list, so its worker asks under a key that counts the row |
| BulkJobs.ListNeverGrantedUnswept | api/jobs.py:378-382 | in every run: a list item whose row was never swept since its enqueue is not granted the finalization of its list |
| BulkProtocol.PayloadFields | api/jobs.py:262-269 | whatever the shared fields are, a child's payload names its job and its own item |
| BulkProtocol.BooksFollowTables | db/bulk.py:140-177 | the protocol changes item rows and parent counters exactly as the table function does |
| BulkProtocol.QueueFollows | api/jobs.py:252-296 | the protocol changes the shared queue exactly as the queue's own events do, and claims only rows that are due |
| BulkProtocol.FlagsMean | db/task_queue.py:110-142 | the flags that theorems exclude: a run has one exactly if one of its steps swept a child row of the job, or deleted the job's own marker |
| BulkProtocol.WorkersMove | api/jobs.py:246-303 | in every run each worker can take its next step or crash, and each row that is due can be claimed |
| BulkProtocol.StepKeepsRows | api/jobs.py:262-306 | every dispatch works on a row of its own kind; every child row is for an item of the job |
| BulkProtocol.StepKeepsOnce | api/jobs.py:295-301 | while this job's marker lives, at most one dispatch is between grant and refund |
| BulkProtocol.StepKeepsItems | db/bulk.py:140-177 | until a step writes an item already terminal, each step keeps counters equal to the numbers of completed and failed items, and a completed row's item terminal |
| BulkProtocol.CountersAgreeExactly | db/bulk.py:140-177 | in every run the counters are ahead of the rows by the number of times a child or a timeout wrote a terminal item; they equal the rows if and only if that never happened |
| BulkProtocol.FinalStatusAgrees | db/bulk.py:180-203 | until then the final status says whether all, some or none of the items failed |
| BulkProtocol.StepKeepsFanOut | api/jobs.py:246-269 | a fan-out that finished has enqueued every item |
| BulkProtocol.FanOutEnds | api/jobs.py:246-269 | for a job of any length: in every run in which no fan-out task fails for good, one is still open or all children are enqueued, cleanups of its row included |
| BulkProtocol.StepKeepsOneChunk | api/jobs.py:254-258 | a job of one chunk has a child row or a child at work only after all its children were enqueued |
| BulkProtocol.GrantSafe | api/jobs.py:294-296 | at a grant all children of a job of at most 500 items are enqueued, failed fan-outs included, and of a longer one unless a fan-out task failed; no row of the job, the asker's included, is open |
| BulkLongJobs.LongJobGrantedEarly | api/jobs.py:252-259 | for every job of more than 500 items, a run that grants its finalization before all its children are enqueued |
| BulkLongJobs.EnqueuedFirstExactly | api/jobs.py:252-259 | such a run of a job exists if and only if it has more than 500 items |
| BulkProtocol.NeverFinalizedUnswept | db/task_queue.py:174-183 | unless one of the job's own child rows was swept, nobody is ever granted and nothing is refunded |
| BulkProtocol.RefundedOnce | api/jobs.py:296-301 | refunds <= tallies <= grants <= 1 in every interleaving while this job's marker lives |
| BulkProtocol.ReturnedOnce | api/jobs.py:296-301 | while the marker lives nothing is refunded but one tally, and never more than was counted |
| BulkProtocol.NetDebit | api/jobs.py:298-301 | the exact cost of a job in every state of every run, finalized again or not: completed and open items and failures counted but not refunded, less the failed items written again |
| BulkProtocol.AdminsPayNothing | api/jobs.py:298-301 | in every run the job of an admin costs nothing and refunds nothing |
| BulkProtocol.CreditsConserved | db/bulk.py:20-51 | in every run 100 per completed item if and only if open items and failures not refunded are as many as the failed items written again, and too much refunded if and only if fewer; where each item became terminal once and the marker lives, if and only if none is open and none failed after the tally, so always once a job whose items were all terminal is settled |
| BulkProtocol.SomeRunSettles | api/jobs.py:295-301 | a run with the worker's 15-minute sweeps in which one of two dispatches of a child is lost and the job settles with its credits conserved |
| BulkProtocol.DoubleVerdictOverRefunds | api/jobs.py:282-301 | a run in which both dispatches of a swept child fail its item, and a job of 100 cents is refunded 200 |
| ListTables.Tables.UpdateListAccount | db/lists.py:242-285 | account status and the matching list counter change together |
| ListTables.Tables.ResetListAccount | db/lists.py:342-361 | the account is pending again whatever it was; the failure counter drops, clipped at zero |
| ListTables.Tables.FinalizeList | db/lists.py:288-311 | status by the failure count; error on a missing list |
| ListTables.Tables.TryStartListAnalysis | db/users.py:531-541 | True exactly for a list not yet analyzing, which it then is |
| ListProtocol.StepFollowsTables | db/lists.py:242-361 | the protocol changes account rows and list counters exactly as the table functions do |
| ListProtocol.NobodyStuck | routes/lists.py:652-712 | in every run each request and each worker can take its next step, and new runs, retries and finalizations can begin |
| ListProtocol.RetriedHadFailed | routes/lists.py:685-690 | only accounts that failed at some time are ever retried |
| ListProtocol.WriteAgrees | db/lists.py:242-361 | a write to counters that agreed with the rows leaves them wrong, or clipped, if and only if it is an update of a finished account or a reset of one not failed |
| ListProtocol.CountersAgreeExactly | db/lists.py:242-361 | with tasks run any number of times: counters equal rows and nothing clips throughout a run if and only if no update finds a finished account and no reset one that is not failed |
| ListProtocol.CountersAgree | db/lists.py:242-361 | until then counters equal rows, nothing clips, and the final status matches the rows |
| ListProtocol.RunExcess | api/jobs.py:318-391 | in every run, what is paid for and not accounted for grows by the completed accounts written over and shrinks by the first analyses that complete and the second outcomes of retries |
| ListProtocol.NetDebit | api/jobs.py:386-391 | the exact cost of a list in every state of every run: reruns, overlapping retries and repeated finalizations included |
| ListProtocol.ConservedExactly | routes/lists.py:652-706 | with no retry under way, 100 per completed account if and only if reservations neither used nor refunded and completed accounts written over are as many as second outcomes of retries, and too much given back if and only if fewer |
| ListProtocol.TallyIsExact | api/jobs.py:386-391 | a tally of finished accounts whose counters agree, before any retry is paid, refunds exactly what is not accounted for |
| ListProtocol.CreditsConserved | api/jobs.py:441-465 | from a state so fit for a tally: after any later run, 100 per completed account and retry under way if and only if completed accounts written over are as many as late first analyses, second outcomes of retries and refunds beyond that tally; with just that tally refunded and no clash, if and only if there are none of these |
| ListProtocol.OverlappingRetriesClip | db/lists.py:342-361 | a run in which two retries of one account reset it twice and clip the counter |
| ListProtocol.RerunCompletesFailed | api/jobs.py:318-382 | a run without retries in which a rerun completes an account that its slow worker failed: a failure is counted that no account has, and its credit refunded |
| ListProtocol.EarlyRetryOvercharges | routes/lists.py:679-712 | a run in which a retry before the finalization costs 200 for one completed account |
| ListProtocol.LateRetriesOvercharge | routes/lists.py:692-706 | a run in which two overlapping retries after an exact finalization cost 200 for one completed account |
| ListProtocol.RetryRefundedTwice | api/jobs.py:458-465 | a run in which two dispatches of one retry task are both refunded: 200 for one payment of 100 |
| Credits.CreditTables.AddCredits | db/users.py:449-464 | the organization that the user's row names gains 100 cents a credit and no other changes; an error when there is none |
| Credits.CreditTables.UseCredit | db/users.py:467-484 | debits the organization that the user's row names exactly when its balance suffices |
| Credits.CreditTables.RefundCredit | db/users.py:487-501 | gives the cents back to the organization that the user's row names, and to no other |
| Credits.CreditTables.FulfillSession | db/users.py:504-528 | adds 100 cents a credit to the organization that the user's row names, the first time only |
| Credits.StepMoves | db/users.py:449-528 | what each event does to the balance of each organization, by membership |
| Credits.PoolAccounting | db/users.py:449-528 | every balance is start + top-ups + refunds - successful debits + the worth of the sessions delivered, each once |
| Credits.NeverNegative | db/users.py:467-484 | no run takes a balance below zero |
| Credits.DeliveryOrderIrrelevant | db/users.py:504-528 | the same sessions delivered in any order and any number of times leave the same state |
| RateLimit.InMemoryRateLimiter.Check | api/ratelimit.py:80-125 | admits exactly below `requests` hits later than a window ago or in warn-only mode; limit, remaining, reset and Retry-After; the pruned hits it stores; eviction beyond 10000 keys |
| RateLimit.InMemoryRateLimiter.EvictOldest | api/ratelimit.py:127-133 | removes least recently hit keys until 10000 remain |
| RateLimit.LatestMeaning | api/ratelimit.py:127-133 | by recently hit is meant the latest of a key's hits |
| RateLimit.RecentAppend | api/ratelimit.py:87 | the hits that count are those later than the cutoff, in order |
| RateLimit.InMemoryRateLimiter.Cleanup | api/ratelimit.py:135-142 | removes exactly the keys without recent hits |
| RateLimit.EvictionKeepsNewest | api/ratelimit.py:127-133 | the most recently hit key survives eviction |
| RateLimit.PruningIsInvisible | api/ratelimit.py:80-142 | a pruned and cleaned store answers every check as a limiter that forgets nothing and counts the admissions less than a window old |
| RateLimit.RunAgrees | api/ratelimit.py:80-142 | the refinement holds from any pair of stores that agree |
| RateLimit.WindowLimit | api/ratelimit.py:87-109 | in every run no window holds more than `requests` admissions of a key |
| RateLimit.WindowBounded | api/ratelimit.py:87-109 | spaced admissions never exceed the limit in any window, wherever it ends |
| RateLimit.RetryAfterSuffices | api/ratelimit.py:103-109 | a rejected caller that waits Retry-After seconds is admitted if nothing was admitted in between |
| RateLimit.RetryAfterTight | api/ratelimit.py:103-109 | there is room if and only if the oldest recent hit is a window old, and Retry-After is that moment rounded up, or a second more where it is whole seconds away |
| RateLimit.WaitingPays | api/ratelimit.py:80-142 | the same over runs of the pruned store, with other keys' checks and cleanups in between |
| Cursors.IntRoundTrip | api/pagination.py:32-36 | parsing a printed integer gives it back |
| Cursors.ParseDigitsExactly | db/lists.py:192 | a number is digits with single underscores between them, and nothing else |
| Cursors.NextDigit | db/lists.py:192 | each further digit is one more decimal place |
| Cursors.IntExactly | db/lists.py:192 | an integer is a number after at most one sign, between blanks |
| Cursors.SplitLastMeaning | api/pagination.py:32-34 | the split is at the last colon, and refused exactly when there is none |
| Cursors.CursorRoundTrip | api/pagination.py:17-36 | decoding an encoded cursor gives back the score, NULL included, and the id |
| Cursors.CursorText | api/pagination.py:17-36 | a cursor is the score or "null", a colon and the id; it is refused without a colon, and with an id that is no integer |
| Keyset.GetListAccounts | db/lists.py:143-239 | the first rows, by the named column, of those that meet the filters and come after the cursor, as many as the limit, and whether there are more; malformed cursors are errors |
| Keyset.PageMeaning | db/lists.py:164-239 | each page in the fields of its rows: asked for, in order, none before them left out |
| Keyset.ListingMeaning | db/lists.py:222-233 | the full listing is exactly the rows of the list that reach the minima, have the status and are among the ids, each once, in ORDER BY order |
| Keyset.SelectSorted | db/lists.py:222-233 | filtering before sorting and after it agree |
| Keyset.PageProgress | api/routes.py:997-1002 | every page with a next cursor leaves strictly fewer rows, so a walk ends |
| Keyset.WalkComplete | db/lists.py:186-239 | following cursors collects exactly the listing, for every limit from 1, both orders, every filter |
| Keyset.UsualScoresAreSafe | db/lists.py:196-219 | scores from 0 to 100, or NULL, never meet the sentinel |
| Keyset.WalkedIsSafe | db/lists.py:196-219 | where row-by-row walking is complete, the sentinel condition holds |
| Keyset.WalkCompleteExactly | db/lists.py:196-219 | walks are complete for every limit if and only if no score is confused with the sentinel |
| JsonExtract.ExtractJson | services/seller_profile.py:281-311 | the scanner returns what the specification of first balanced object says, errors included |
| JsonExtract.ExtractMeaning | services/seller_profile.py:281-311 | unless the shortcut is taken, the answer runs from the first opening brace to where the depth first comes back to 0, and the text is unbalanced if and only if it never does |
| JsonExtract.NoBraceNoObject | services/seller_profile.py:286-287 | text has no object if and only if it has no opening brace |
| JsonExtract.EscapeIsEscaped | services/seller_profile.py:295-302 | escaped text never closes its string early |
| JsonExtract.PrintLevel | services/seller_profile.py:289-311 | a printed tree leaves the scanner where it was, at no lower depth |
| JsonExtract.ObjectCloses | services/seller_profile.py:303-310 | scanning a printed object closes at its last brace and nowhere before, whatever follows |
| JsonExtract.ExtractUndoesPrint | services/seller_profile.py:281-311 | between a prefix without a brace and any suffix, the printed object is returned if and only if the shortcut misses it |
| Chunking.OverlapOf | services/chunking.py:151-161 | the inner loop keeps the overlap of the finished chunk, with its running length |
| Chunking.TailIsLongest | services/chunking.py:151-161 | the overlap is the longest suffix whose joined length is at most `overlap` |
| Chunking.ChunkSlidingWindow | services/chunking.py:122-174 | the chunks are the space-joins of the slices, numbered in order |
| Chunking.KeptOne | services/chunking.py:136-139 | a piece is a sentence exactly if it is not empty |
| Chunking.KeptAppend | services/chunking.py:136-139 | pieces are kept or dropped one by one, in order |
| Chunking.JoinAppend | services/chunking.py:145 | joined sentences stand in order with one space between any two |
| Chunking.ChunkAt | services/chunking.py:144-149 | chunk i is the space-join of slice i |
| Chunking.SlicesChunk | services/chunking.py:136-174 | the slices start with the overlap due, take what fits, stop when full, and reach the end |
| Chunking.ChunkingUnique | services/chunking.py:136-174 | that description has exactly one solution, the loop's |
| Chunking.SliceMeaning | services/chunking.py:141-164 | a slice takes sentences while the text they make fits the size, the first new one in any case, and stops at the first that does not fit |
| Chunking.SlicesAdvance | services/chunking.py:136-174 | ends strictly increase, starts never decrease, and each start is the overlap of the slice before |
| Chunking.Lossless | services/chunking.py:136-174 | dropping each next part's overlap and concatenating gives back every sentence in order |
| Chunking.ChunkLength | services/chunking.py:141-164 | no chunk exceeds the size, or overlap + 1 + the longest sentence (or that sentence alone) |
| Chunking.PlainBoundExactly | services/chunking.py:141-164 | max(size, overlap + 1 + longest sentence) bounds every chunk of every document if and only if overlap >= -1 |
| Chunking.FilterAndRenumber | services/chunking.py:55-60 | the chunks long enough are kept in order and numbered from 0 |
| Chunking.LongEnoughOne | services/chunking.py:56 | a chunk is dropped exactly if its stripped text is shorter than 100 characters |
| Chunking.LongEnoughAppend | services/chunking.py:56 | and the others stay in order |
| PainInference.Engine.EvaluateCompounds | services/pain_inference.py:885-932 | adds what each of the three rules adds to the results that fired |
| PainInference.CompoundMeaning | services/pain_inference.py:918-932 | a compound fires if and only if two constituents fired, 10 above the highest of their last confidences and at most at 95 |
| PainInference.Engine.ApplyDampeners | services/pain_inference.py:934-968 | each confidence after the dampeners and the floor of 10: 15, 10 or 10 less, or 10 less per extra domain down to 30, for the last result of its rule |
| PainInference.DampenedMeaning | services/pain_inference.py:934-968 | the dampeners one after another come to that |
| PainInference.Engine.ApplyDetectionConfidence | services/pain_inference.py:1043-1068 | each confidence after detection: 20 less below an average of 40, 10 less below 60, between 10 and 95 |
| PainInference.DetectedMeaning | services/pain_inference.py:1043-1068 | comparing sums with multiples of the count is comparing averages |
| PainInference.AdjustedAt | services/pain_inference.py:276-278 | an adjusted result is a compounded one, dampened first and then lowered for weak detections |
| PainInference.Engine.ApplySellerWeighting | services/pain_inference.py:993-1041 | each confidence from 10 to 95 after the seller pass: 0 for security unsold; as it was for an unknown seller; else with 15 or -10 by category, 15 by rule and 5 by service, between 10 and 95, and 0 where the category brings it to 0 and no service revives it |
| PainInference.WeighedScore | services/pain_inference.py:993-1041 | suppression, both layers, the bonus and the clamp one after another come to that sum |
| PainInference.BoostsAre | services/pain_inference.py:980-991 | the boosted rules, listed by rule and by seller category, agree |
| PainInference.Engine.Evaluate | services/pain_inference.py:271-296 | the passes in order, the filter, the demotion and the sort |
| PainInference.AdjustedInRange | services/pain_inference.py:885-968 | rules firing at 25 to 85 leave every result at 10 to 95 when the seller pass begins |
| PainInference.WeighedOutcome | services/pain_inference.py:993-1041 | the seller pass leaves a result at 0 exactly when it is dropped, and otherwise at 10 to 95 |
| PainInference.ReportedExactly | services/pain_inference.py:282-284 | what is reported is exactly each adjusted result whose score for the seller is not 0, with that score, in the background where it is irrelevant |
| PainInference.UnsoldReport | services/pain_inference.py:271-296 | without a seller nothing is dropped or weighed |
| PainInference.ReportKeepsOrder | services/pain_inference.py:282-295 | results of equal confidence are reported in the order their rules fired, each as often as it fired |
| PainInference.ReportedFrom | services/pain_inference.py:282-293 | every reported result is an adjusted one with its score for the seller and its category, or the demoted one where the rule is irrelevant |
| PainInference.ReportInOrder | services/pain_inference.py:271-296 | for every bundle and seller the report descends by confidence and stays within 10 to 95 |
| PainInference.NoSecurityForOthers | services/pain_inference.py:1004-1009 | a seller without security keywords never sees a security result |
| PainInference.SortedMeaning | services/pain_inference.py:295 | the sort descends and keeps, once each and in order, the results of equal confidence |
| PainInference.OrderUnique | services/pain_inference.py:295 | only one list does that |
| Dedup.DeduplicateAcrossSections | services/claude.py:1733-1759 | the loops leave the sections the specification names, whatever `lower` does to nonempty text |
| Dedup.LongStrip | services/claude.py:1757 | stripping a section does not change its long lines |
| Dedup.LongMeaning | services/claude.py:1749-1752 | a line counts as a repeat by its stripped, lower-case text, if that has 20 characters |
| Dedup.FirstSectionWins | services/claude.py:1733-1759 | a long line survives in exactly the first priority section that had it, once |
| Dedup.FirstOfFour | services/claude.py:1733-1759 | the same spelled out for the four sections in their order |
| Dedup.SectionKeeps | services/claude.py:1745-1757 | a section is written back with every short line it had, in order, and only lines it had |
| Dedup.NoRepeats | services/claude.py:1752-1755 | afterwards no long line is in two sections |
| Dedup.NothingLost | services/claude.py:1733-1759 | the long lines of the sections together are unchanged |
| Dedup.Idempotent | services/claude.py:1733-1759 | a second pass changes nothing |
| Dedup.OthersUntouched | services/claude.py:1740-1743 | other sections are left alone |
| Slugs.SlugShape | utils/slugs.py:18-48 | nonempty, letters, digits and single inner hyphens; `untitled` where nothing is left; within max_length exactly when the fallback fits or is not needed |
| Slugs.CoreIsWords | utils/slugs.py:33-38 | before the cut, a slug is the words of the lower-case name joined by single hyphens |
| Slugs.CoreKeeps | utils/slugs.py:18-38 | before the cut, a slug has every letter and digit of the lower-case name, in order |
| Slugs.StripTldMeaning | utils/slugs.py:22-28 | a final dot and text is removed if and only if the text is one of the thirteen domains in any case |
| Slugs.AsciiOne | utils/slugs.py:20 | a character is dropped if its code is above 127 |
| Slugs.AsciiKeeps | utils/slugs.py:20 | and the others stay in order |
| Text.LowerAt | utils/slugs.py:31 | the letters A to Z move 32 places, every other character stays |
| Text.StripMeaning | services/seller_profile.py:282 | strip takes blanks off both ends and nothing else |
| Text.SpacesAre | services/seller_profile.py:282 | the blanks are the 29 characters that strip removes |
| Slugs.TruncateMeaning | utils/slugs.py:40-46 | the cut is at the last hyphen of the first max_length characters, or after them if they hold none |
| Slugs.SlugifyTwice | utils/slugs.py:18-48 | a slug is its own slug if and only if the fallback fits or was not needed |
| Slugs.SlugifyDefault | utils/slugs.py:8-48 | with the default length: well-shaped, at most 80 characters, idempotent |
| Watchlist.NextRun | db/watchlist.py:15-19 | a week on, or two for biweekly and 30 days for monthly, never less than a week |
| Watchlist.WatchlistItems.CreateWatchlistItem | db/watchlist.py:22-44 | inserts, or renews the user's item for that url |
| Watchlist.WatchlistItems.UpdateWatchlistItem | db/watchlist.py:98-129 | only the owner's item; a new date by its schedule only when it becomes active again, two weeks on for an unknown one |
| Watchlist.WatchlistItems.DeleteWatchlistItem | db/watchlist.py:132-139 | only the owner's item |
| Watchlist.WatchlistItems.ClaimDueItems | db/watchlist.py:158-180 | claims as many active items with a date in the past as allowed, earliest first, and moves each 30 days ahead |
| Watchlist.WatchlistItems.CompleteWatchlistRun | db/watchlist.py:220-235 | records the run and the next date |
| Watchlist.WatchlistItems.MarkSkippedNoCredits | db/watchlist.py:238-249 | marks the item and leaves its date |
| Watchlist.StepRests | db/watchlist.py:15-235 | whatever the step, a claimed item is not due again within a week of the claim |
| Watchlist.ClaimsSpaced | db/watchlist.py:158-180 | in every run two claims of one item are at least seven days apart |
| Idempotency.IdempotencyKeys.Claim | db/idempotency.py:13-49 | proceed exactly for a new key, which is inserted; otherwise the saved pair or a conflict, as the table stands at the look-up, deleted rows included |
| Idempotency.IdempotencyKeys.Save | db/idempotency.py:52-59 | replaces the pair of an existing key |
| Idempotency.IdempotencyKeys.CleanupExpired | db/idempotency.py:67-75 | deletes exactly the keys older than 24 hours |
| Idempotency.IdempotencyKeys.CheckIdempotency | api/idempotency.py:15-40 | a request goes on if it has no key or a new one; otherwise the response saved by the time of the look-up, or a 409 |
| Idempotency.GrantedOncePerLife | db/idempotency.py:13-49 | in every run a key is granted exactly once more than it was deleted while its row lives |
| Idempotency.GrantsADayApart | db/idempotency.py:13-75 | two requests told to proceed with one key are more than a day apart |
| Idempotency.SavedIsReturned | db/idempotency.py:39-59 | after a save every later claim is refused and answered with exactly the saved pair if and only if its status is not 0, whatever falls between its two statements short of a deletion or another save |

## Assumptions

- One nondecreasing clock, read by every function; `datetime.now` and the database's `now()` are not told apart. For the
  rate limiter this also takes requests to enter `check` in the order of the times they read, since it reads the time
  before it takes the lock (api/ratelimit.py:82-86).
- A function that runs one SQL statement or one transaction is one step. What is not shown of the schema is taken to be:
  attempts start at 0, max_attempts is 3, ids are never reused, and the stated unique keys hold.
- A rule of the pain engine may fire with a confidence from 25 to 85; the tables of keywords, the detection evidence and
  the relevance gate by rule are inputs.
- `claim_idempotency_key` runs two statements outside a transaction, and other requests and cleanups may fall between.
- In the list protocol finalizations, first analyses and retry tasks begin and end any number of times, at any time, which
  covers what stale requeues and expired markers allow; a run that never ends is a worker that died. The user is not an
  admin.
- In the list protocol, "clash" records an update that found its account finished or a reset that found it not failed;
  `CountersAgreeExactly` says what that costs the counters.
- In the bulk protocol, "reworked" records an item that was begun, ended or timed out when already completed or failed,
  "staled" a stale requeue of one of the job's own child rows, and "dropped" the deletion of the job's own marker after
  24 hours. Each theorem says which of them it excludes. A reader of the job may time out any item at any time.

## Left out

- The read-path timeout of a research job (api/routes.py:259-271): it refunds beside the queue's own accounting. That of bulk
  items (api/routes.py:752-763) is a step of the bulk protocol, and the finalization in the pipeline status route
  (routes/lists.py:600-606) is a tally of the list protocol that nobody refunds.
- A database call that commits and then raises: a step happens whole or not at all, though a worker may stop for good after any step.
- The semaphore and the periodic counters of the worker loop (worker.py:120-187): they delay steps and add none.
- The credit ledger: its writes are best-effort and some debits skip it, so it is not tied to balances.
- Payload fields that are not ids, and the text comparison of `payload->>key`: ids are compared as numbers.
- Sorting list accounts by company name: that branch does not build a usable query.
- Keyset.GetListAccounts: a sort by company_name is not modelled, for the reason above.
- Base64 around cursors, regular expressions and Unicode normalisation: text arrives prepared.
- Cursors.IntRoundTrip: digits outside ASCII, which `int` also accepts, are refused by the model's parser.
- The splitting of documents into sections and sentences, and section titles: the chunker starts from the split pieces.
- A retry of several selected accounts pays for all of them in one debit; in the list protocol that is one payment step per account in a row, so other steps may also fall between them.
- Each chunk of a fan-out is enqueued in one step; `BulkJobs.FanOut` stamps all chunks with one time, the protocol with a time each.
- URL selection for seller profiles, prompt assembly, report sections other than the four deduplicated ones, and all network and model calls.
