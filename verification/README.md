# Verified model of MockGatehub

MockGatehub imitates a payment gateway: it takes deposits and withdrawals,
simulates card transactions, prints one-page statements, and reports events to a
client by webhooks that it delivers through a Redis Stream. This project models
the parts of it in which something can go wrong over time or between functions,
and proves what they promise.

## What is modelled

**Webhook delivery** (`WebhookJob`, `Delivery*`). `Delivery` is a state machine
over delay timers, the stream, the read cursor, the consumer group's pending
list, the batches of any number of workers, a clock, and a history of sends. Its
steps are enqueueing, a timer firing, reading a batch, processing one job,
starting a worker (which claims stale messages), a crash, and the passing of time;
every Redis command may be answered, refused, or carried out with its reply lost.
`DeliveryQueue` holds the program's own objects, a queue and a worker over a Redis
server, updated in place; each method is proved to perform the step of the state
machine that its contract names. `DeliveryLaws` says in milliseconds, counts and
positions what one step does: when a timer can fire and what it adds, which entries
a read and a claim take, and what a send leads to. The theorems are about all runs:

- `DeliverySafety`: whatever happens, sends are faithful to what was enqueued and
  never early, messages leave the pending list only after a send, and a job counts
  as delivered only if one of its sends succeeded.
- `DeliveryPlaces`: whatever happens, every accepted job is somewhere; the steps
  that make one vanish are named, and without them none vanishes.
- `DeliveryReclaims`: whatever happens, a job is sent at most ten times, and ten
  times more for every reclaiming, and is dropped only after ten failures.
- `DeliveryExclusive`: as long as no starting worker takes a message that another
  still has in hand (no theft), every job is in exactly one place. A worker that
  starts while no other has work in hand cannot steal, at whatever pace it works.
- `DeliveryTimely`: no theft either when no worker spends longer than D on one job
  and a batch fits into the two idle minutes.
- `DeliveryBound`: that bound is exact, for places and for attempt numbers, over all
  runs and over the fault-free ones alone. If ten jobs can take two minutes there is
  a run, without a crash or a failing command, that puts a job in two places and
  counts one failure where two were.
- `DeliveryAttempts`: without theft, attempt numbers count failures; sends are at
  most ten plus the times a job was reclaimed.
- `DeliveryLiveness`: whatever happens, thefts, crashes and failing commands
  included, a run makes at most thirty steps for each job and twenty-eight for each
  reclaiming, so it stops. A fault-free run, thefts included, stops only when every
  job is delivered, dropped after ten failures, or skipped because its event type is
  empty. (`DeliveryHoldings` has the measure behind this and behind the bound on
  sends: weights summed over timers, unread entries and the workers' batches.)

**Money** (`Money`, `Fees`, `Ledger*`). `Ledger` is a state machine over balances,
transactions, pending completion goroutines, fees and sent webhooks, with amounts
as exact real numbers and an explicit rounding. `LedgerStore` holds the program's
store and handlers as objects updated step by step, each handler proved equal to
the state machine's call. `LedgerLaws` says what a caller gets, of the request, the
owners of the wallets and the fee calls made before, and of nothing else. The other
theorems are conservation of balances, one charge and one settlement webhook per
withdrawal, one webhook per deposit (`LedgerHooks`), the finality of settlement,
exactly when the two withdrawal modes agree, and exactly when balances never become
negative.

**Statements** (`Decimal`, `Pdf*`). `PdfWriter` is the writer, step by step.
`PdfReader` is a reader written from ISO 32000-1 (sections 7.3.4.2, 7.3.5, 7.3.8,
7.3.10, 7.5.2, 7.5.4, 7.5.5, 7.7.2, 7.7.3, 7.8.3, 7.9.5 and 9.6.2) that shares nothing
with the writer but decimal numbers. `PdfRoundTrip` and `PdfText` prove that the
reader, given only the bytes, recovers the cross-reference table, every object, the
way from the trailer to the page, its rectangle, its font, the content stream, and the
page as seen: title and first forty-one lines, in Helvetica, on A4.

**Listings and card transactions** (`Pagination`, `TransactionListing`,
`CardTransactions`, `CardStore`): paging in 64-bit arithmetic, the order of
listings, and the typed record and verbatim payload of a card transaction, which
go through a JSON decoder that matches field names without regard to case.
`CardLaws` says which status and which members are shown after a call and after
many, and in whose list a transaction stands.

## What the proofs found

- A second XACK of a message is not an error, so a job claimed while its worker
  still has it is retried by both. `OnePlaceIffBatchFits` gives the exact bound:
  one job must take less than 12 s. One request with the 10 s client timeout
  keeps it; the SMS callback test (`internal/webhook/manager.go:324`), which makes
  two requests, does not.
- A job can vanish in three ways only (`NothingIsLost`, `HowJobsVanish`): a crash
  while it is in a timer, a refused XADD when a timer fires, or a lost reply to the
  XACK of a failed send.
- The same pace decides whether attempt numbers count failures
  (`AttemptsCountIffBatchFits`). In every run a job is sent at most ten times for
  its enqueueing and ten times for each reclaiming (`SendsAreBounded`).
- `README.md:263` promises ten retries; the code makes ten attempts in all. The
  model follows the code.
- `README.md:359-360` describes a pending webhook and a delay of about two
  seconds; the code sends one webhook, after completion, and does not wait. The
  model follows the code.
- `internal/handler/handler.go:461` comments status 1 as completed; it is the
  pending status, and an iframe deposit stays in it for good.
- Immediate and deferred withdrawals agree exactly for whole cents
  (`ModesAgreeIffWholeCents`), because the deferred one re-reads a printed total.
- At every percentage from 0 to 100 the fee stays within the amount exactly when
  the amount is less than half a cent beyond whole cents
  (`FeeNeverExceedsAmountIff`).
- The iframe accepts negative amounts: a deposit of -1 makes a balance negative
  (`NegativeDepositOverdraws`), and a withdrawal of -5 pays its user 5
  (`NegativeWithdrawalPays`). No balance ever becomes negative exactly when every
  credit made without a check is covered (`NeverNegativeIff`). `KeepsSolventIff`
  says which calls are safe in every solvent state.
- The failure branch of an immediate withdrawal is reached exactly by a user
  without any balance whose total is not positive (`DeductFailsIff`).
- `internal/storage/memory.go:604` says "most recent first"; transactions of the
  same instant come oldest first (`ListingReversesCreationIff`).
- `internal/handler/cards.go:962` says that a card's payloads are collected newest
  first; over the memory store they come in rising order of their ids, which is
  newest first exactly for at most one transaction (`NewestFirstIffAtMostOne`).
- A huge page number overflows to a negative index and panics
  (`HugePageNumberPanics`; `PaginateCorrectIff` says exactly when paging is right).
- A caller's override that spells `transactionId` in lower case replaces the typed
  record's id, and so its key in the store: the call is answered 201, and record and
  payload lie under two different keys (`ShadowedSimulationBreaksStep`). `TypedAgreesIff`
  says exactly when a field of the two copies agrees, and `RunsStayInStepIff` when
  the store stays in step.
- The offsets in the cross-reference table do not depend on the document
  (`OffsetsAreFixed`), so no bound on its length is needed.

## Model

| member | source | states |
|---|---|---|
| WebhookJob.ParseOfToStreamFields | internal/webhook/job.go:25-82 | Parsing the fields written for a job gives back the job (nil data as the empty map) if it has an id and an event type, and is refused otherwise. |
| WebhookJob.ToStreamFieldsInjective | internal/webhook/job.go:25-44 | Two readable jobs written as the same fields are the same job. |
| WebhookJob.AcceptedIff | internal/webhook/job.go:46-82 | An entry, whoever wrote it, is refused exactly when it lacks an id or an event type or its data does not parse; other missing fields read as empty. |
| Decimal.AtoiOfItoa | internal/webhook/job.go:67-70 | The attempt count survives printing and parsing, for every 64-bit integer. |
| Decimal.ParseIntOfItoa | internal/handler/cards.go:1002-1008 | Parsing a printed integer gives it back exactly for 64-bit integers, and an error for all others. |
| Decimal.ParseIntNeedsDigits | internal/handler/cards.go:1002-1008 | Text with anything but digits after an optional sign is an error. |
| Delivery.Stale | internal/webhook/queue.go:231-239 | A claim takes at most a page of messages, no message twice, each pending and idle for the idle limit. |
| Delivery.StaleTakesTheOldest | internal/webhook/queue.go:231-239 | A claim passes over a stale message only when its page is full or its scan has ended, and takes those with the smallest ids. |
| DeliveryLaws.ClaimedIff | internal/webhook/queue.go:231-239 | What a claim takes, exactly: an entry pending for 120000 ms with fewer than `count` such entries and fewer than `scan` pending ones before it. |
| DeliveryLaws.StartClaimsTheStale | internal/webhook/queue.go:231-256 | A starting worker takes over the first ten entries pending for two minutes among the first hundred pending, whoever had them; those that parse are its batch, the oldest first, and nothing else changes hands. |
| DeliveryLaws.ReadTakesTheNextTen | internal/webhook/queue.go:133-162 | A read takes the next ten entries or all there are; those that parse are pending for the reader and its batch, in order. |
| DeliveryLaws.EnqueuedAfterItsDelay | internal/webhook/queue.go:63-113 | An accepted job can be added to the stream after a wait of d ms if and only if d is at least the longer of the two delays, with no attempt made; without a delay it is added at once. |
| DeliveryLaws.RetryIsThreeSecondsLater | internal/webhook/queue.go:172-227 | After a failed send before the tenth, acknowledged, the job can be added again after a wait of d ms if and only if d is at least 3000, with one attempt more. |
| DeliveryLaws.NoRetryOtherwise | internal/webhook/queue.go:172-190 | A success, a tenth failure or an ack that errs schedules nothing; the tenth failure drops the job, and an acknowledged success delivers it. |
| Delivery.ReadableOfContents | internal/webhook/queue.go:148-160 | A batch handed to a worker holds exactly the messages that parse. |
| DeliverySafety.SoundStep | internal/webhook/queue.go:63-256 | Every step, faults included, keeps the invariant that ties timers, stream, pending list, batches and sends to what was enqueued. |
| DeliverySafety.SendsAreFaithfulAndNeverEarly | internal/webhook/queue.go:81-99 | In every run a send carries the data enqueued, has an attempt number below ten, and is not made before enqueue time plus the larger delay plus three seconds for each earlier attempt. |
| DeliverySafety.OnlySentMessagesLeavePending | internal/webhook/queue.go:165-176 | In every run a readable message that was read and is no longer pending has been sent. |
| DeliverySafety.DeliveredWasSent | internal/webhook/worker.go:95-109 | In every run a job that counts as delivered has had a send that succeeded. |
| DeliveryPlaces.PlaceAfter | internal/webhook/queue.go:63-256 | Whatever the step, a job that is at a place is at a place afterwards, and loses it to oblivion only by the steps that forget it. |
| DeliveryPlaces.NothingIsLost | internal/webhook/queue.go:63-256 | In every run, thefts, crashes, slow sends and failing commands included, each accepted job is in a timer, live in the stream, or has met a fate. |
| DeliveryPlaces.HowJobsVanish | internal/webhook/queue.go:172-227 | A present job stays present exactly when the step does not forget all its places; only a crash (its timers), a refused XADD (the timer that fired) and a lost reply to the ack of a failed send (its entry) forget; a crash leaves every other place as it is. |
| DeliveryPlaces.CarefulRunsLoseNothing | internal/webhook/queue.go:85-107 | Without those three steps no run ever makes a job vanish. |
| DeliverySafety.FatesFitRun | internal/webhook/queue.go:148-157 | Over every run only jobs without an event type are skipped as corrupt, and none of them is delivered or dropped. |
| DeliveryReclaims.SendsAreBounded | internal/webhook/queue.go:172-187 | In every run, thefts included, a job is sent at most 10 x (1 + times reclaimed), its attempt numbers never exceed its acknowledged failures, and it is dropped only after ten of them. |
| DeliveryTimely.ClaimedAreFree | internal/webhook/worker.go:12 | When a batch fits into the idle limit, no message in a live worker's batch is stale enough to be claimed. |
| DeliveryTimely.TimelyRunsAreTheftFree | internal/webhook/worker.go:38-56 | When a batch fits into the idle limit, no timely run has a theft. |
| DeliveryTimely.StartNeverStealsFromALiveWorker | internal/webhook/worker.go:114-129 | In every timely run a starting worker never claims a message that a live worker still has. |
| DeliveryExclusive.EveryJobInExactlyOnePlace | internal/webhook/queue.go:63-227 | In every run without theft, crashes, lost replies and sends of any length included, each accepted job is in exactly one timer, one live stream entry, or one fate. |
| DeliveryTimely.OnePlaceInTimelyRuns | internal/webhook/queue.go:63-227 | So it is in every timely run whose batches fit into the idle limit. |
| DeliveryExclusive.StartingAloneIsNoTheft | internal/webhook/worker.go:38-56 | A run in which workers start only while no other has work in hand has no theft, at whatever pace. |
| DeliveryExclusive.PlacedStep | internal/webhook/queue.go:63-256 | Every step moves jobs between places without losing or doubling one. |
| DeliveryBound.OnePlaceIffBatchFits | internal/webhook/queue.go:172-256 | Every timely run keeps every job in exactly one place if and only if no job takes 12000 ms or more, so that ten fit into the idle limit; the same over the timely runs without a crash or a failing command. |
| DeliveryBound.AttemptsCountIffBatchFits | internal/webhook/queue.go:172-187 | Attempt numbers count failures in every timely run if and only if no job takes 12000 ms or more; the same over the fault-free ones. |
| DeliveryBound.TwoTimers | internal/webhook/queue.go:165-227 | Otherwise a timely run without a crash or a failing command reaches a state with one job in two timers, as its second attempt, after two failures. |
| DeliveryAttempts.AttemptsCountFailures | internal/webhook/queue.go:172-187 | In every run without theft a live job's attempt number is its number of failed, acknowledged sends and below ten; it is dropped exactly at ten; its sends are at most ten plus the times it was reclaimed. |
| DeliveryAttempts.TalliedStep | internal/webhook/queue.go:172-227 | Every step keeps these counts. |
| DeliveryLiveness.WorkFalls | internal/webhook/queue.go:63-256 | Every step, faults and thefts included, lowers the work left if it is a timer firing, a read that is not refused, or a job processed; an enqueue raises it by at most thirty and each reclaiming by at most twenty-eight, and a start reclaims at most ten jobs. |
| DeliveryLiveness.EveryRunStops | internal/webhook/queue.go:172-256 | Every run makes at most thirty such steps for each job enqueued and twenty-eight for each reclaiming, and reclaims at most ten jobs for each worker started; so without new jobs and workers it stops. |
| DeliveryLiveness.QuietStep | internal/webhook/queue.go:63-256 | A fault-free step, a theft included, keeps every pending message in the batch of the worker it is pending for, makes no job vanish, and lowers the work left as above. |
| DeliveryLiveness.FaultFreeRunsStop | internal/webhook/queue.go:172-227 | Without theft nothing is reclaimed in a fault-free run, so thirty steps for each job enqueued are all it makes. |
| DeliveryLiveness.StoppedRunsAreComplete | internal/webhook/worker.go:64-110 | When a fault-free run, thefts included, can do nothing more, now or after any wait, and a worker is alive, each job was delivered by a successful send, dropped after at least ten failures, or skipped; it is skipped exactly if its event type is empty, and was sent at most 10 x (1 + times reclaimed). |
| DeliveryLiveness.StoppedRunsAreExact | internal/webhook/worker.go:64-110 | Without theft it was dropped exactly at ten failures, and sent at most ten times. |
| DeliveryLiveness.OneWorkerAtAnyPace | internal/webhook/worker.go:38-110 | With workers that start only while no other has work in hand, whatever the sends take: one place per job, attempts that count failures, and fault-free runs that stop. |
| DeliveryQueue.Queue.constructor | internal/webhook/queue.go:36-57 | A negative minimum delay becomes zero; the queue joins whatever stream and group earlier processes left behind. |
| DeliveryQueue.Queue.Enqueue | internal/webhook/queue.go:63-113 | Performs the enqueue step: a timer when either delay is positive, else an immediate XADD whose failure is reported and leaves nothing. |
| DeliveryQueue.Queue.AddToStream | internal/webhook/queue.go:116-128 | Appends the fields unless refused; reports success only when answered. |
| DeliveryQueue.Queue.FireTimer | internal/webhook/queue.go:85-100 | Performs the timer step on the real timers and stream. |
| DeliveryQueue.Queue.ParseAll | internal/webhook/queue.go:147-161 | Returns the readable messages in order and acknowledges the others. |
| DeliveryQueue.Queue.ReadJobs | internal/webhook/queue.go:133-162 | Performs the read step and returns exactly the worker's new batch. |
| DeliveryQueue.RedisStream.XAutoClaim | internal/webhook/queue.go:231-239 | Hands the oldest stale messages to the claimer, at most a page, and answers with their fields. |
| DeliveryQueue.Queue.ClaimStale | internal/webhook/queue.go:231-256 | Performs the start step and returns exactly the claimed batch. |
| DeliveryQueue.Queue.Ack | internal/webhook/queue.go:165-167 | Removes the message from the pending list unless refused. |
| DeliveryQueue.Queue.RetryLater | internal/webhook/queue.go:172-227 | Acknowledges, then drops or schedules the retry three seconds later; does nothing after a failed ack. |
| DeliveryQueue.WebhookWorker.ProcessJob | internal/webhook/worker.go:82-110 | One send and its outcome, as the model's process step. |
| DeliveryQueue.WebhookWorker.ProcessBatch | internal/webhook/worker.go:76-78 | Every job of the batch is processed once, in order, and the batch ends empty. |
| DeliveryQueue.WebhookWorker.ReadAndProcess | internal/webhook/worker.go:64-79 | One read, idle or not, followed by the processing of all it returned. |
| DeliveryQueue.WebhookWorker.ReclaimStale | internal/webhook/worker.go:114-129 | One claim followed by the processing of all it returned. |
| DeliveryQueue.ProcessAllIsARun | internal/webhook/worker.go:64-129 | What the worker methods do is a legal run of the state machine, so the theorems about runs apply to them. |
| PdfWriter.WriteEscaped | internal/pdf/pdf.go:106-120 | Parentheses and backslashes are escaped, other printable ASCII is kept, the rest becomes a question mark. |
| PdfWriter.BuildContentStream | internal/pdf/pdf.go:79-101 | The content stream holds the title and the lines from the top down until the page is full. |
| PdfWriter.WriteObjects | internal/pdf/pdf.go:56-64 | The objects are laid out in order and offsets[i] is where object i+1 starts. |
| PdfWriter.WriteXref | internal/pdf/pdf.go:66-72 | The table has the head of the free list and one twenty-byte line per offset. |
| PdfWriter.Render | internal/pdf/pdf.go:40-76 | The whole file, byte for byte, as a function of the document. |
| PdfRoundTrip.TableOfFile | internal/pdf/pdf.go:56-75 | A reader that follows the last startxref recovers exactly the offsets written. |
| PdfRoundTrip.EveryEntryLands | internal/pdf/pdf.go:56-72 | Entry i leads to the bytes "i 0 obj" and the body of object i. |
| PdfRoundTrip.OffsetsAreFixed | internal/pdf/pdf.go:44-51 | Every offset is below 1000 for every document, so ten digits always suffice. |
| PdfRoundTrip.LeafRead | internal/pdf/pdf.go:44-51 | A reader that goes from the header and the trailer to the catalogue, the page tree and its kid, and checks their types and the parent, finds the page and that it is the only one. |
| PdfRoundTrip.ContentRoundTrip | internal/pdf/pdf.go:40-76 | And cutting the stream out of the page's contents by its Length, it gets the content stream, for every document. |
| PdfRoundTrip.BoxRead | internal/pdf/pdf.go:17-19 | The page's rectangle is 595 by 842 from the origin. |
| PdfRoundTrip.FontRead | internal/pdf/pdf.go:44-51 | The name F1 leads, through the page's resources, to the Type 1 font Helvetica. |
| PdfRoundTrip.DictionaryRead | internal/pdf/pdf.go:44-62 | An object of one line is read through the table as a dictionary of the type it names. |
| PdfRoundTrip.LiteralRoundTrip | internal/pdf/pdf.go:106-120 | An escaped string reads as the string with unprintable characters as question marks, and ends at its own parenthesis. |
| PdfText.ContentDrawn | internal/pdf/pdf.go:79-101 | Interpreting the content stream shows the title and the first forty-one lines, all in font F1, at the heights meant. |
| PdfText.RenderedPageReadsBack | internal/pdf/pdf.go:40-101 | From document to bytes to page: the file has one page of A4 size that shows exactly the intended strings, each in a font that the page's resources resolve to Helvetica. |
| PdfText.EverythingIsOnThePage | internal/pdf/pdf.go:17-24 | Every string starts inside the page, each below the one before. |
| Money.FeeIsNearest | internal/handler/fees.go:105-108 | The fee is whole cents, within half a cent of the exact percentage, and no other number of cents is nearer. |
| Money.FeeTiesGoAwayFromZero | internal/handler/fees.go:105-108 | An exact half cent is rounded away from zero. |
| Money.FeeMonotone | internal/handler/fees.go:105-108 | The fee is monotone in amount and percentage, and not negative. |
| Money.FeeNeverExceedsAmountIff | internal/handler/fees.go:105-108 | At every percentage from 0 to 100 the fee is at most the amount exactly when the amount is less than half a cent beyond whole cents. |
| Money.FeeWithinAmount | internal/handler/fees.go:105-108 | For such amounts and percentages the fee lies between 0 and the amount. |
| Money.FeeOfSplit | internal/handler/fees.go:105-108 | Splitting a payment in two changes the total fee by at most one cent. |
| Money.ParseOfFormat | internal/handler/helpers.go:41-43 | Parsing a printed amount gives the amount rounded to cents, and gives the amount itself exactly when it is whole cents. |
| Money.PrintedIsNearest | internal/handler/helpers.go:41-43 | What is printed is the nearest number of cents, the even one of two. |
| Money.PrintedWithTwoDecimals | internal/handler/helpers.go:41-43 | Always digits without idle zeros, a point and exactly two decimals; a sign for negative amounts only. |
| Fees.LastWriterWins | internal/handler/fees.go:50-102 | After any calls a user's fee is his last override since he was last cleared, else the last global fee. |
| Fees.UsersPayWhatWasLastSet | internal/handler/fees.go:50-102 | The effective deposit and withdrawal percentages of a user are his own last ones, or the last global one of the same kind. |
| Fees.WhatAFeeCallChanges | internal/handler/fees.go:141-250 | What one call changes for any user: percentages from 0 to 100 are taken over for those without their own, or for the one named; any other changes nothing for anybody. |
| Fees.ApplyKeepsRange | internal/handler/fees.go:141-250 | The handlers keep every effective percentage between 0 and 100. |
| Fees.FeeConfig.HandleSetFees | internal/handler/fees.go:141-171 | Out-of-range percentages are refused and change nothing. |
| Fees.FeeConfig.HandleSetUserFees | internal/handler/fees.go:195-235 | An absent percentage keeps the previous override; an out-of-range one is refused. |
| Fees.FeeConfig.HandleClearUserFees | internal/handler/fees.go:238-250 | Removes the user's overrides and no other's. |
| LedgerSteps.BooksStep | internal/handler/handler.go:380-636 | Every call files each transaction once and keeps each balance equal to the opening balance plus what was moved. |
| LedgerAccounts.AccountedStep | internal/handler/core.go:356-403 | Every call keeps what each transaction has moved in agreement with its kind and status. |
| LedgerTheorems.BalancesAreConserved | internal/handler/handler.go:380-636 | In every reachable state each balance is the opening balance plus full iframe deposits, net core deposits, hosted amounts in or out (nothing for a debit that found too little), less completed withdrawals: the exact total of an immediate one, the printed total of a deferred one. |
| LedgerTheorems.WholeCentWithdrawalsMoveTheirTotal | internal/handler/withdrawals_admin.go:144-177 | A whole-cent withdrawal has moved exactly its printed total when Completed and nothing otherwise. |
| LedgerTheorems.SettledMovesWhatIsPrinted | internal/handler/withdrawals_admin.go:144-177 | A deferred withdrawal of any amount has moved, once Completed, exactly what its TotalAmount prints. |
| LedgerTheorems.SettledForGood | internal/handler/withdrawals_admin.go:113-139 | No sequence of calls changes a withdrawal once it is Completed or Failed. |
| LedgerTheorems.ChargedOnceAndAnnouncedOnce | internal/handler/withdrawals_admin.go:144-197 | Over any run a withdrawal is charged once if Completed and never otherwise, and has at most one settlement webhook, which matches its status. |
| LedgerTheorems.SettleSucceedsIff | internal/handler/withdrawals_admin.go:113-197 | A settlement succeeds exactly for a known event, a pending withdrawal and enough money; otherwise nothing changes, and a printed total always parses. |
| LedgerLaws.HostedTransferMoves | internal/handler/core.go:346-397 | An accepted hosted transfer without a webhook adds its amount to the user's balance if the sending address is not his, and otherwise takes it, or nothing if he cannot pay; free of charge. |
| LedgerLaws.TransfersGoTheRightWay | internal/handler/core.go:346-397 | After any further calls a hosted transfer has moved nothing while its goroutine waits, and then its amount in, or out exactly if the user owned the sending address when he asked and could pay. |
| LedgerLaws.DebitsLeaveOwnWallets | internal/handler/core.go:346-357 | In every reachable state a debit is a hosted transfer from an address of the same user. |
| LedgerLaws.OwnersNeverChange | internal/handler/handler.go:380-430 | No run of calls changes the owner of a wallet. |
| LedgerLaws.DepositsPayTheFee | internal/handler/core.go:288-403 | After any further calls a core deposit has moved its amount less the fee at the user's deposit percentage when he asked. |
| LedgerLaws.CoreWithdrawalsPayTheFee | internal/handler/core.go:288-305 | A withdrawal requested through the core interface prints amount plus the fee at the user's withdrawal percentage, and has moved that to the cent exactly when Completed. |
| LedgerLaws.UsersPayWhatTheRunSet | internal/handler/fees.go:50-102 | After any run of calls a user pays the percentage last set for him, else the last one set for all, for deposits and for withdrawals. |
| LedgerLaws.WithdrawalTakesAmountAndFee | internal/handler/handler.go:545-627 | A withdrawal costs its amount and the fee: with less it is refused with 400 and nothing happens; else the immediate mode takes exactly that and files Completed, the deferred mode takes nothing and files Pending. |
| LedgerLaws.WithdrawalsPayWhatTheRunSet | internal/handler/handler.go:545-627 | After any run an immediate withdrawal is refused or takes exactly its amount and the fee at the percentage which the fee calls of that run have left the user with. |
| LedgerLaws.DepositGivesAll | internal/handler/handler.go:380-494 | An iframe deposit adds its whole amount to one balance, is filed under a wallet of the user, which is created if he had none, and is announced once. |
| LedgerLaws.SettlementTakesWhatIsPrinted | internal/handler/withdrawals_admin.go:113-197 | Completing takes the printed total if it can be paid and else changes nothing; rejecting takes nothing; each sets its own status and announces its own event. |
| LedgerHooks.DepositsAreAnnouncedOnce | internal/handler/core.go:356-403 | Over any run there is exactly one deposit webhook for every iframe deposit and for every core deposit or transfer with a target that has run and was paid, and none for anything else. |
| LedgerModes.ModesAgreeIffWholeCents | internal/handler/handler.go:545-627 | Requesting and then completing any payable withdrawal, of a negative amount as well, gives the balances and the record of the immediate path exactly for whole-cent amounts. |
| LedgerModes.NegativeWithdrawalPays | internal/handler/handler.go:545-627 | An iframe withdrawal of -5 is accepted and adds 5 to the balance. |
| LedgerModes.NeverNegativeIff | internal/storage/memory.go:700-728 | For all calls whatsoever, no balance is negative at any moment of a run if and only if every credit made without a check is covered; withdrawals, settlements and debits never make one negative. |
| LedgerModes.NegativeDepositOverdraws | internal/handler/handler.go:347-367 | An iframe deposit of -1 is accepted and leaves a balance of -1. |
| LedgerModes.KeepsSolventIff | internal/handler/core.go:201-415 | A call keeps every solvent state solvent (no balance and no waiting credit negative, fees in range) if and only if it is no negative iframe deposit and no external deposit with half a cent or more beyond whole cents, or is refused in every state for what it says itself. |
| LedgerModes.NeverNegative | internal/storage/memory.go:700-728 | Runs with non-negative iframe deposits and fee-safe external deposits never make a balance negative, and keep fees in range. |
| LedgerModes.NeverNegativeInWholeCents | internal/storage/memory.go:700-728 | The same for external deposits of whole cents. |
| LedgerModes.DeductFailsIff | internal/handler/handler.go:612-622 | The deduct-failed branch is reached exactly for a user without any balance and a total that is not positive. |
| LedgerStore.MemoryStorage.AddBalance | internal/storage/memory.go:700-710 | Adds to one balance and to no other, creating the user's map if needed. |
| LedgerStore.MemoryStorage.DeductBalance | internal/storage/memory.go:713-728 | Deducts when the user has a map and enough money; else refuses and changes nothing. |
| LedgerStore.MemoryStorage.GetBalance | internal/storage/memory.go:687-697 | The balance, zero for unknown users and currencies. |
| LedgerStore.MemoryStorage.CreateTransaction | internal/storage/memory.go:587-602 | Files the record and appends its id to the user's list. |
| LedgerStore.MemoryStorage.UpdateTransactionStatus | internal/storage/memory.go:637-650 | Changes one status, or reports an unknown id and changes nothing. |
| LedgerStore.Handler.ProcessDeposit | internal/handler/handler.go:380-494 | State and answer of an iframe deposit: wallet, record, full credit, one webhook. |
| LedgerStore.Handler.ProcessWithdrawal | internal/handler/handler.go:497-636 | State and answer of a withdrawal in either mode, including the failure after a passed check. |
| LedgerStore.Handler.CreateTransaction | internal/handler/core.go:201-415 | State and answer of a core transaction: defaults, fee choice, direction, and completion at once without a webhook target. |
| LedgerStore.Handler.RunCompletion | internal/handler/core.go:356-403 | Status first, then the balance; an unpayable debit keeps the status and sends nothing. |
| LedgerStore.Handler.SettleWithdrawal | internal/handler/withdrawals_admin.go:113-139 | State and answer of a settlement call, with every refusal. |
| LedgerStore.Handler.CompleteWithdrawal | internal/handler/withdrawals_admin.go:144-177 | Deducts the printed total, then marks Completed, then announces. |
| LedgerStore.Handler.RejectWithdrawal | internal/handler/withdrawals_admin.go:181-197 | Marks Failed, moves nothing, announces. |
| TransactionListing.NewestFirstIsStableSort | internal/storage/memory.go:617-619 | The listing falls in time and keeps the records of each instant in creation order. |
| TransactionListing.ListingReversesCreationIff | internal/storage/memory.go:604-621 | With a clock that never goes back the listing is newest first exactly when no two records share an instant. |
| TransactionListing.ListTransactionsByUser | internal/storage/memory.go:605-621 | The user's records, those that exist, in that order. |
| TransactionListing.SelectKeepsWanted | internal/handler/withdrawals_admin.go:41-50 | Each wanted withdrawal is listed as often as it occurs, and nothing else is. |
| TransactionListing.SelectDescending | internal/handler/withdrawals_admin.go:41-50 | Filtering keeps the order. |
| TransactionListing.ListWithdrawals | internal/handler/withdrawals_admin.go:20-78 | An unknown filter is refused; otherwise the wanted withdrawals are listed. |
| TransactionListing.WithdrawalsAreListed | internal/handler/withdrawals_admin.go:20-78 | By the text of the filter: refused for any but the five known ones; else each withdrawal of the user with that status is listed as often as it is in his index, nothing else is, and times fall. |
| Pagination.PaginateCorrectIff | internal/handler/cards.go:1020-1030 | In 64-bit arithmetic the page is the right one exactly when the start index does not overflow, or wraps past the end. |
| Pagination.HugePageNumberPanics | internal/handler/cards.go:1020-1030 | The greatest page number with two items a page slices at a negative index. |
| Pagination.PagesCoverTheList | internal/handler/cards.go:1020-1043 | Pages 1 to totalPages are the list, all but the last full, later ones empty, and an empty list has one page. |
| Pagination.ParsePagination | internal/handler/cards.go:999-1016 | Absent, malformed and non-positive parameters take the defaults; the size is capped. |
| CardTransactions.GreatestSpellingWins | internal/handler/cardtx_admin.go:307-315 | Re-reading the marshalled payload fills a field from the member, of those that set it, whose spelling of its name sorts last. |
| CardTransactions.TypedIsShown | internal/handler/cardtx_admin.go:307-315 | An unshadowed typed field has the payload's value. |
| CardTransactions.TypedAgreesIff | internal/handler/cardtx_admin.go:307-315 | For every payload, nulls and absent names included, a typed field agrees with the payload exactly when the member that decides it, if any, shows the same value. |
| CardTransactions.DecodeRefusesIff | internal/handler/cardtx_admin.go:307-317 | A payload is refused exactly when a member, under any spelling of a field, is neither null nor of the field's type; what a record holds is of its fields' types. |
| CardTransactions.ShadowedIdDisagrees | internal/handler/cardtx_admin.go:297-317 | Over any fixture that spells the id in one way only, a lower-case override gives a typed id that is the caller's, while the payload shows the generated one. |
| CardTransactions.IdentityBeatsOverrides | internal/handler/cardtx_admin.go:286-305 | Identity fields beat caller and fixture; every other member is the override if there is one, else the fixture's. |
| CardTransactions.Materialise | internal/handler/cardtx_admin.go:290-305 | The fields built by the loop are these, whatever the order of the overrides. |
| CardStore.StepStaysInStepIff | internal/handler/cardtx_admin.go:143-165 | A call keeps payloads and records in step exactly when it does not file a payload with an inconsistent field. |
| CardStore.ShadowedSimulationBreaksStep | internal/handler/cardtx_admin.go:143-165 | Such a simulation, if its fixture fits the record, is answered 201 and files record and payload under two different keys, so the store is out of step. |
| CardStore.RunsStayInStepIff | internal/storage/memory.go:426-535 | Over any run, payloads and records agree at every moment on ids, time and status, with unique rising sequence ids, if and only if no simulation filed an inconsistent payload. |
| CardStore.RunsStayInStep | internal/storage/memory.go:426-535 | After any run without such a simulation payloads and records agree, sequence ids are unique, and each card's list rises in them. |
| CardStore.UnshadowedIsAdmissible | internal/handler/cardtx_admin.go:297-305 | A simulation whose overrides and fixture spell the agreeing fields only in their own way, or in ways that sort before it, is consistent. |
| CardStore.ListingIsComplete | internal/handler/cards.go:962-980 | A card's listing has one payload per indexed transaction and skips none. |
| CardStore.ListingRises | internal/storage/memory.go:511-535 | A card's listing rises in the sequence ids that its payloads show. |
| CardStore.NewestFirstIffAtMostOne | internal/handler/cards.go:962-980 | It is newest first exactly when the card has at most one transaction. |
| CardLaws.StatusIsStored | internal/storage/memory.go:426-447 | Setting one of the four statuses on a known transaction answers 200; record and payload show it, and every other member and every other transaction is as it was. |
| CardLaws.LastStatusIsShown | internal/handler/cardtx_admin.go:222-261 | Through any further calls both copies show the last status set. |
| CardLaws.SimulationIsFiled | internal/handler/cardtx_admin.go:137-165 | A simulation that fits and is consistent is answered 201, takes the next number, is filed in both maps under the generated id, shows it, and is appended to its card's list. |
| CardLaws.RefusedSimulationTakesANumber | internal/handler/cardtx_admin.go:137-165 | A refused one is answered 500 and has used up a number and nothing else. |
| CardLaws.InsertionIsFiled | internal/handler/cards.go:859-920 | A transaction without a scenario is a record with the next number, completed, without a payload, at the end of its card's list. |
| CardLaws.AcceptedAreListed | internal/storage/memory.go:511-535 | Over any run an accepted transaction stands once in its own card's list from then on, and in no other. |
| CardStore.CardTransactionStore.SimulateTransaction | internal/handler/cardtx_admin.go:137-165 | State and answer of a simulation, including a sequence id taken and not used. |
| CardStore.CardTransactionStore.CreateTransaction | internal/handler/cards.go:859-920 | State and answer of a transaction created without a scenario: number, record, then the index. |
| CardStore.CardTransactionStore.UpdateStatus | internal/storage/memory.go:426-447 | The status reaches the typed record and the payload, or neither. |
| CardStore.CardTransactionStore.SetTransactionStatus | internal/handler/cardtx_admin.go:222-261 | Unknown statuses and ids are refused and change nothing. |
| CardStore.CardTransactionStore.NextSeqID | internal/storage/memory.go:503-505 | Sequence ids count up by one. |
| CardStore.CardTransactionStore.AddIndex | internal/storage/memory.go:511-521 | Appends to one card's list; empty ids are ignored. |
| CardStore.CardTransactionStore.Collect | internal/handler/cards.go:962-980 | The listing loop: the payload where there is one, else the typed record. |

## Left out

- DeliveryExclusive.EveryJobInExactlyOnePlace: that a job is in no second place is stated for runs without theft, because with a theft it is false; that it is in some place holds in every run (DeliveryPlaces.NothingIsLost), and DeliveryBound.OnePlaceIffBatchFits says at which pace thefts do harm.
- DeliveryAttempts.AttemptsCountFailures: is about runs without theft for the same reason; DeliveryBound.AttemptsCountIffBatchFits gives the exact pace, and DeliveryReclaims.SendsAreBounded what holds in every run.
- DeliveryQueue.Queue.constructor: the earlier processes are taken to have been configured with the same minimum delay, and their timers to have fired or died with them.
- LedgerStore.Handler.RunCompletion: requires that the stored record has the user and currency the goroutine captured, which LedgerAccounts.AccountedStep keeps true.
- Trimming of the stream by XTRIM: the backlog is taken to stay below 10000 entries.
- The Redis client retries a command whose reply was lost, so that one XADD can be carried out twice; a repeated command is not a step of the model.
- The queue and worker objects run one process against the server; several processes exist in the state machine only.
- Message ids are positions in the stream, and all processes and Redis share one clock that counts milliseconds.
- The context branch of Enqueue: every caller passes a background context.
- SendAsync does nothing without a webhook URL or a queue; only the calls are recorded.
- The JSON library for webhook data is any pair of functions that undo each other; values it refuses to print are left out.
- Binary floating point: amounts are exact reals, with rounding where the code rounds; infinities, NaN and exponent notation are left out.
- Interleavings inside one handler call: each call, and each run of a completion goroutine, is one step.
- User, currency and wallet arrive already resolved from headers, wallets and vaults; ids from the UUID generator are taken to be new.
- Creation times of ledger transactions, which only matter to listings and are modelled there.
- The Redis storage back end, whose deduction makes no check; the ledger is over the memory store.
- The members of a nested object in a card payload; a nested object is taken to fit the record.
- The descriptive fields (merchant, amounts) of a card transaction created without a scenario.
- The checks of user, card, scenario and event before a simulation, and the webhook after it: finite tables.
- The hash behind a card's numeric id is a parameter.
- The PDF reader finds a dictionary's key by its first occurrence, reads the first page only, and knows just the stream dictionaries, Type 1 fonts and operators that such a page needs.
- HTTP, configuration, logging, signing, encryption, the admin pages, KYC, rates, and card locking: no deep invariant.
