# NovaWallet ledger: a verified model

This project models the money core of NovaWallet, a wallet service with a double-entry ledger, outbound settlement over an
inter-bank payment rail and an end-of-day reconciliation, and proves what its transactions keep. `dafny verify dfyconfig.toml`
checks everything.

## How it is built

1. **Rows and operations.** `Prelude`, `Rows`, `Books`, `Contracts` (WAT days, limit policy, fingerprint), `Query`, `Ledger`,
   `Settlement`, `Reconciliation`. A committed database is a value `Db`; every operation is a function from one committed database
   to the next, with the guards, errors and order of the C# code.
2. **The ledger machine.** `Machine`: a `World` is a database, a history (rail calls, reposts, limit reservations) and the claim
   lists workers may still hold. An `Event` is one operation, with any rail answer and any rollback; `Run` folds events, `Leads`
   says that some run joins two worlds, and a world is `Reachable` when one leads to it from the seeded database.
3. **The joint invariant.** `Shapes` names the few forms a committed change takes; `Conservation`, `Protocol`, `Reversals`,
   `Charges`, `Requests`, `Holdings` prove each clause of the invariant per form; `Invariants` joins them; `Persistence` proves
   what no later step takes back.
4. **Main results.** `MoneyTheorems`, `SettlementTheorems`, `Attempts`, `RequestTheorems`, `CustomerLimits`, `LimitRuns`,
   `ReconciliationTheorems`, `ReportConditions`, `Statement`; `Versions` proves that steps move wallet versions forward.
   **Answers and effects.** `Answers`, `SettlementEffects`, `OtherEffects` and `ReportEffects` say in literal terms, field by field,
   what each operation answers and what it leaves behind, with `Effects` for the journal entries, balances and versions of a posting.
5. **Interleavings.** `Interleaving`: postings on wallet rows, locked or read unlocked under a version check. `Concurrency` and
   `ConcurrencyTheorems`: requests that race on the unique index and dispatches that hold a job row, each as several steps;
   `Verdicts`: which KYC verdict such a request read; `Losers`: what the loser of a race on one key is told. `RowLocks` puts the wallet rows under those tasks: every schedule of loads,
   locks and version-checked commits is a sequence of their steps, and so a run of the ledger machine.
6. **The services.** `Entities`, `WalletTracking`, `TransferService`, `SettlementWorker`, `ReconciliationService`,
   `WalletService`: classes with mutable entities, loops and early returns, each method proved to be a step (or a run) of the ledger
   machine, so the results above hold of them.
7. **Concrete runs.** `Scenarios`, `StaleClaims` and `VerdictRace` start from the seeded database: every committed pair is
   reachable, and some tidy statements fail.

## Assumptions

- A transaction that fails or is rolled back leaves no trace in the database. A rail call made inside it stays made.
- A status query reads and commits in one step, and so does a repost. Claim lists stay in the workers' memory for ever: any claim
  ever listed may be run at any later point, across any number of reposts.
- Reconciliation runs, deposits, admin credits and fundings are one atomic step in the interleaving layers too. The code reads the
  balances a report compares one statement at a time (`ReconciliationService.cs:87-112`), and nothing there asks for a snapshot: what
  commits between two of those reads is not modelled, so the results on reports are about runs that see one committed state.
- Each request, and each worker batch, uses one clock reading.
- No request carries the customer id "SYSTEM", and nobody opens a wallet under it.
- SHA-256 is injective: the stored hash is the canonical text itself. Text is compared exactly, without a database collation.
- WAT is the fixed offset UTC+1. Fee and VAT are given to each request. Generated ids never repeat, so a row's id is its position.
- Sums over reports and transfers are unbounded integers; wallet and external credits are checked 64-bit additions.
- Rows that an ordering leaves tied are taken by id.
- Fresh rows become visible, and locks are released, at commit.

## What the proofs found

- The daily counter is kept per wallet (`TransferService.cs:119`), while README.md:115 and README.md:141 promise a limit per customer.
  `Scenarios.TwoWalletsDoubleTheLimit` is a run in which an unverified customer sends twice the unverified limit;
  `CustomerLimits.CustomerTotalIsSumOfCounters` says exactly what is bounded, `CustomerLimits.RequestKeepsLimitIff` when one request
  keeps the promise, and `LimitRuns.BreakableIffTwoWallets` that it can be broken exactly for a customer with two wallets.
- KYC is read before the transaction (`TransferService.cs:93-95`). A verdict withdrawn meanwhile still counts:
  `VerdictRace.OldVerdictCommits` is such a run, and `ConcurrencyTheorems.SerialUnlessOldVerdict` shows it is the only way a
  finished request can differ from an atomic one. What does hold in every interleaving: the verdict was Verified when the request
  read it (`Verdicts.LargeReservationReadVerified`).
- A worker dispatches with the attempt count its claim list showed (`Program.cs:61-74`), even after the transfer was reposted and
  the count reset. So attempts grow with reposts, and two reposts can end in a dead letter: `StaleClaims.FiveAttemptsAfterOneRepost`,
  `StaleClaims.DeadLetterIsReachable`. `Attempts.AttemptsGrowWithReposts` bounds them, and three attempts hold whenever no claim
  crosses a repost (`Attempts.ThreeAttemptsWithoutCrossing`).
- The loser of the unique-index race gets the winner's transfer only if its own guards would still pass; otherwise it gets their
  error (`Losers.InternalRaceLoser`, `Losers.OutboundRaceLoser`): `Losers.RaceFromTheSeed` is a race whose loser is refused for the
  limit the winner used up. The inbound loser always gets an error (`Losers.RaceLoserCommitsNothing`).
- A repost submits a reversed transfer again without debiting the source again (`TransferService.cs:312-327`). A second Failed answer
  may then be impossible to act upon (`Scenarios.RepostCanBlockReversal`).
- A dispatch answered Unknown without a reference leaves the transfer Unknown for ever (`SettlementTheorems.StrandedStaysStranded`),
  and only such a one (`SettlementTheorems.UnknownResolvesIffReferenced`); `Scenarios.StrandedIsReachable` is such a run.
- The statement offset is a 32-bit product (`Repositories.cs:113`), so a far page number shows the first page
  (`Statement.FarPageWrapsAround`); `Statement.PageIsRightWhenOffsetFits` says exactly which pages are right.
- A `|` in the account or bank of an outbound request, or in the account, bank or originating account of an inbound one, makes
  another payload share its fingerprint text. Nothing else does: an internal text is never shared
  (`IdempotencyFingerprint.CollidesIffSeparator`, for customer ids without `|`).
- Where the documentation and the code differ otherwise, the model follows the code: deposits do not touch the Ledger Holding
  (README.md:92), an outbound transfer starts as Submitted, not Verified (README.md:119), and external debits are unchecked
  (README.md:96).

## Model

| member | source | states |
|---|---|---|
| Books.PostEffect | src/Wallet.Infrastructure/Services/TransferService.cs:54-60 | A posting that succeeds appends exactly its legs to the journal, shifts exactly the named balances, and had positive amounts on existing wallets |
| Books.PostVersions | src/Wallet.Domain/Wallet.cs:45-60 | Versions count writes: every touched row moves strictly forward, every other row is unchanged as a whole |
| Books.PostKeepsNonNegative | src/Wallet.Domain/Wallet.cs:45-60 | No posting makes a balance negative or pushes it past 64 bits |
| Books.PostTotal | src/Wallet.Infrastructure/Services/TransferService.cs:142-152 | The sum of all balances moves by the sum of the legs |
| Books.PostKeepsJournal | src/Wallet.Domain/Records.cs:14-15 | A posting keeps every balance equal to its opening balance plus its signed entries |
| Books.PostSucceedsIffCovered | src/Wallet.Domain/Wallet.cs:45-60 | With the grand total inside 64 bits, legs in any order post exactly when every debit is covered: no credit overflows |
| Effects.TwoBooked | src/Wallet.Infrastructure/Services/TransferService.cs:54-60 | A two-leg posting appends its two entries in full; each wallet moves by its own entries, one version for each, and keeps its identity |
| Effects.FourBooked | src/Wallet.Infrastructure/Services/TransferService.cs:142-159 | The same for four legs, one entry after the other |
| WatBusinessDay.WindowsPartitionTime | src/Wallet.Application/Contracts.cs:138-151 | An instant lies in the window of exactly one WAT day, from 23:00 UTC to 23:00 UTC, and that is the day Today gives |
| DailyOutboundLimit.MergeAgreesWithPolicy | src/Wallet.Infrastructure/Repositories/Repositories.cs:191-200 | The MERGE accepts exactly when the limit policy allows, adds the amount to that counter and to no other |
| DailyOutboundLimit.CounterTable.Merge | src/Wallet.Infrastructure/Repositories/Repositories.cs:191-200 | One row affected and the counter raised, or no row affected and nothing changed, or an overflow and nothing changed |
| IdempotencyFingerprint.CanonicalIdentifiesPayload | src/Wallet.Application/Contracts.cs:153-172 | A text whose adjacent free fields hold no separator is shared by another command of any kind, whatever that one holds, exactly when kind, parties, accounts and amount agree |
| IdempotencyFingerprint.CollidesIffSeparator | src/Wallet.Application/Contracts.cs:153-172 | Another payload has the same text exactly when a separator occurs in account or bank (outbound), or account, bank or originating account (inbound); never for an internal request |
| IdempotencyFingerprint.TextOf | src/Wallet.Application/Contracts.cs:153-172 | The text of each kind of request, field by field |
| IdempotencyFingerprint.GuidTextInjective | src/Wallet.Application/Contracts.cs:157 | The rendering of a wallet id determines the id |
| IdempotencyFingerprint.AmountTextInjective | src/Wallet.Application/Contracts.cs:157 | The decimal rendering of an amount, sign included, determines the amount |
| IdempotencyFingerprint.GuidTextReads | src/Wallet.Application/Contracts.cs:157 | Thirty-two lower-case hexadecimal digits in groups of 8-4-4-4-12 that read back as the id |
| IdempotencyFingerprint.AmountTextReads | src/Wallet.Application/Contracts.cs:157 | Unpadded decimal digits, a minus sign if negative, that read back as the amount |
| Query.OrderByKeepsMembers | src/Wallet.Infrastructure/Repositories/Repositories.cs:66-84 | Ordering a selection loses no row and repeats none |
| Query.OrderBySorts | src/Wallet.Infrastructure/Repositories/Repositories.cs:106-116 | Ordering by a total preorder puts every earlier row before every later one |
| Reconciliation.SettledIdsInRange | src/Wallet.Infrastructure/Repositories/Repositories.cs:66-84 | The selection holds each settled, unreconciled transfer of that kind and day once, and nothing else |
| Reconciliation.SettledOldestFirst | src/Wallet.Infrastructure/Repositories/Repositories.cs:73 | The selection runs from the oldest transfer to the newest |
| Shapes.RequestShape | src/Wallet.Infrastructure/Services/TransferService.cs:24-231 | A request of any kind changes nothing, or records one new balanced transfer with the request's own terms under a key that was free |
| Conservation.RecordsKeepsJournal | src/Wallet.Infrastructure/Services/TransferService.cs:54-60 | A recorded transfer of any kind keeps balances journal-backed, entries cancelling and money conserved |
| Conservation.MovesKeepsJournal | src/Wallet.Infrastructure/Services/TransferService.cs:275-299 | So does every settlement step, with or without a reversal |
| Conservation.FundingAddsMoney | src/Wallet.Infrastructure/Services/WalletService.cs:79-105 | A settlement funding creates exactly its amount, and the journal accounts for it |
| Protocol.DispatchMoves | src/Settlement.Worker/Program.cs:67-112 | A committed dispatch leaves an allowed (job, transfer) pair of lower rank, or, on a resolved transfer, touches the job alone |
| Protocol.WorkerQueryMoves | src/Settlement.Worker/Program.cs:120-147 | A committed status query keeps an allowed pair and never raises its rank |
| Protocol.ApiQueryMoves | src/Wallet.Infrastructure/Services/TransferService.cs:233-263 | The customer's status query does the same, although it leaves the job alone on a failure |
| Protocol.RepostMoves | src/Wallet.Infrastructure/Services/TransferService.cs:312-327 | A repost takes a failed pair, and only such a pair, back to waiting, without a reference |
| Reversals.MovesKeepsNet | src/Wallet.Infrastructure/Services/TransferService.cs:286-294 | Every step keeps each outbound transfer's net journal effect at one submission minus its reversals, wallet by wallet |
| Reversals.MoveKeepsCounts | src/Settlement.Worker/Program.cs:96-102 | Every step keeps reversal groups, acted-upon Failed answers and reposts in balance |
| Reversals.MoveKeepsSends | src/Settlement.Worker/Program.cs:84-88 | Every instruction sent is the transfer's own and goes out while no outcome stands |
| Charges.MoveKeepsLevy | src/Wallet.Infrastructure/Services/TransferService.cs:286-289 | Income and VAT balances stay the levies of outbound transfers, each once, minus one for every reversal |
| Requests.RecordsKeepsIdem | src/Wallet.Infrastructure/AppDbContext.cs:91 | Idempotency records and transfers stay in one-to-one correspondence |
| Requests.RecordsKeepsCounters | src/Wallet.Infrastructure/Services/TransferService.cs:119-126 | Counters stay the sums of reserved amounts within the limit, and above the unverified limit the last reservation is a verified one |
| Requests.ReviewKeepsKyc | src/Wallet.Infrastructure/Services/KycService.cs:30-58 | After any verdict, a Verified user still has a Verified document |
| Holdings.RunDayEffect | src/Wallet.Infrastructure/Services/ReconciliationService.cs:28-121 | A run marks exactly the eligible transfers of its day; its totals, holdings and discrepancies are those of exactly these |
| Holdings.RunDayKeepsReconciliation | src/Wallet.Infrastructure/Services/ReconciliationService.cs:35-65 | A run keeps holdings, reports and reconciled transfers equal, in total and report by report |
| Invariants.StepKeepsInv | src/Wallet.Infrastructure/Services/TransferService.cs:24-327 | Every operation, with any rail answer and any rollback, keeps the joint invariant |
| Invariants.ReachableInv | src/Wallet.Infrastructure/DbInitializer.cs:61-67 | The joint invariant holds after every run from the seeded database |
| Persistence.RunExtends | src/Wallet.Domain/Transfer.cs:116-121 | Over any run terms, settled status, reconciliation instants, idempotency records, reports and history are only added to |
| MoneyTheorems.MoneyIsConserved | src/Wallet.Infrastructure/Services/WalletService.cs:62-66 | In every reachable state balances equal opening plus journal and are non-negative, each transfer's entries cancel, and all balances sum to the seed plus fundings |
| MoneyTheorems.NetEffect | src/Wallet.Infrastructure/Services/TransferService.cs:275-299 | The net effect on every wallet is (1 - reversals) times the submission, and reversals are reposts plus one if Failed |
| MoneyTheorems.NetIsZeroIffFailed | src/Settlement.Worker/Program.cs:156-176 | Without reposts an outbound transfer leaves no net trace on any wallet exactly when it is Failed |
| MoneyTheorems.LeviesOfLiveTransfers | src/Wallet.Infrastructure/Services/TransferService.cs:142-145 | Without reposts income and VAT hold exactly the levies of transfers that have not failed |
| MoneyTheorems.ReversalSucceedsIff | src/Settlement.Worker/Program.cs:163-166 | A reversal succeeds exactly when the three system debits are covered, though it credits the customer first |
| MoneyTheorems.OnlySettlementBlocksReversal | src/Settlement.Worker/Program.cs:163-166 | Without reposts only the settlement balance can block a reversal |
| MoneyTheorems.TransferPostsIff | src/Wallet.Domain/Wallet.cs:45-60 | The legs of a transfer of any kind post exactly when the payer covers the total |
| MoneyTheorems.OutboundPostsIff | src/Wallet.Infrastructure/Services/TransferService.cs:142-152 | With no assumption on the grand total: an outbound posting succeeds exactly when all parts are positive, the source covers them and the three credits fit |
| MoneyTheorems.DepositSucceedsIff | src/Wallet.Infrastructure/Services/WalletService.cs:49-77 | A deposit succeeds exactly for a customer wallet and a positive amount that settlement covers |
| MoneyTheorems.AdminCreditSucceedsIff | src/NovaWallet.Admin.Web/Services/AdminDatabaseService.cs:113-144 | An admin credit succeeds exactly for a positive amount, a known customer account with room, and a settlement wallet that covers it |
| MoneyTheorems.FundingSucceedsIff | src/Wallet.Infrastructure/Services/WalletService.cs:79-105 | A funding succeeds exactly when wallet and holding both have room for the positive amount |
| OtherEffects.DepositAnswer | src/Wallet.Infrastructure/Services/WalletService.cs:49-77 | The answer to a deposit, guard by guard, and the two entries of one that succeeds |
| OtherEffects.AdminCreditAnswer | src/NovaWallet.Admin.Web/Services/AdminDatabaseService.cs:113-144 | The same for an admin credit |
| OtherEffects.FundingAnswer | src/Wallet.Infrastructure/Services/WalletService.cs:79-105 | The same for a funding: wallet and holding gain the amount together, or neither does |
| OtherEffects.MoneyInSteps | src/Wallet.Infrastructure/Services/WalletService.cs:49-105 | What succeeds is committed, what does not changes nothing |
| OtherEffects.SeedIsBare | src/Wallet.Infrastructure/DbInitializer.cs:61-99 | A new deployment: three system wallets, all the money in the settlement wallet and its holding, no other rows |
| MoneyTheorems.DepositMovesMoney | src/Wallet.Infrastructure/Services/WalletService.cs:62-66 | A deposit moves its amount from settlement to that customer and touches no other balance |
| MoneyTheorems.ReversalMovesMoney | src/Wallet.Infrastructure/Services/TransferService.cs:286-289 | A reversal is the submission's effect undone, wallet by wallet |
| MoneyTheorems.TotalFitsIffFundingsFit | src/Wallet.Infrastructure/DbInitializer.cs:61-67 | The 64-bit condition of these results is that seed plus fundings fits |
| SettlementTheorems.CommittedPairs | src/Settlement.Worker/Program.cs:67-142 | Every committed pair is one of seven phases, whatever claim lists are still in memory: Pending iff Submitted, never Processing, DeadLetter only when Failed after five attempts, Submitted without reference or attempts, so queries only move Unknown transfers |
| SettlementTheorems.EveryPhaseIsReached | src/Settlement.Worker/Program.cs:76-109 | From any waiting transfer whose reversal is covered, each phase but the dead letter is reached without a repost |
| SettlementTheorems.StepDescends | src/Wallet.Domain/Records.cs:68-100 | Any step other than its own repost leaves a pair alone or strictly lowers its rank |
| SettlementTheorems.AtMostFourChanges | src/Settlement.Worker/Program.cs:76-109 | Between reposts a pair changes at most four times, over any run |
| SettlementTheorems.SettledIsFinal | src/Wallet.Domain/Transfer.cs:116-121 | Settled survives every continuation, reposts included |
| SettlementTheorems.StrandedStaysStranded | src/Settlement.Worker/Program.cs:103-109 | Unknown without a reference survives every continuation |
| SettlementTheorems.UnknownResolvesIffReferenced | src/Settlement.Worker/Program.cs:120-142 | An Unknown transfer leaves Unknown in some continuation exactly when it has an external reference |
| SettlementTheorems.OneOutcomePerEpoch | src/Settlement.Worker/Program.cs:61-82 | With any number of workers, and claim lists kept across reposts, committed dispatch outcomes never exceed reposts plus one |
| SettlementTheorems.NothingSentAfterOutcome | src/Settlement.Worker/Program.cs:84-88 | Between a committed outcome and any later send of that transfer lies a repost |
| SettlementTheorems.RetriesSendTheSame | src/Settlement.Worker/Program.cs:84-88 | All instructions ever sent for a transfer are the same, aborted retries included |
| SettlementEffects.EveryInstructionIsTheTransfers | src/Settlement.Worker/Program.cs:84-88 | In every reachable state each instruction sent names its own outbound transfer, reference, account, bank and name, and the amount without fee and VAT |
| SettlementEffects.InstructionIsTheCommands | src/Settlement.Worker/Program.cs:84-88 | Whatever is ever sent for a committed request carries that request's reference, account, bank, name and amount |
| SettlementEffects.DispatchSent | src/Settlement.Worker/Program.cs:90-95 | Answered Sent: settled under the rail's reference, the job succeeded, no money moved, nothing else changed |
| SettlementEffects.DispatchUnknown | src/Settlement.Worker/Program.cs:103-109 | Answered Unknown: in doubt with whatever reference came, the job failed and due in a minute, no money moved |
| SettlementEffects.DispatchFailed | src/Settlement.Worker/Program.cs:96-102 | Answered Failed: the four reversal entries, the transfer failed, the job due in a minute or dead from the fifth attempt on; or nothing if the reversal throws |
| SettlementEffects.DispatchRolledBack | src/Settlement.Worker/Program.cs:113-117 | Rolled back: the instruction is out and nothing else happened |
| SettlementEffects.DispatchTooLate | src/Settlement.Worker/Program.cs:76-82 | On a resolved transfer: the job alone is closed, nothing is sent |
| SettlementEffects.ListingAdds | src/Settlement.Worker/Program.cs:61-65 | A listing adds exactly the pending jobs, the failed ones that are due and the ones whose lease has run out, with their attempts |
| SettlementEffects.ClaimHolds | src/Wallet.Domain/Records.cs:68-74 | A claim counts one attempt, and the job cannot be claimed again until its half-minute lease has run out |
| SettlementEffects.NotAsked | src/Wallet.Infrastructure/Services/TransferService.cs:235-239 | The rail is not asked about any other transfer: wrong customer, wrong kind, settled, failed or without a reference |
| SettlementEffects.QuerySent | src/Settlement.Worker/Program.cs:129-134 | A query answered Sent settles transfer and job under the reference at hand, whoever asked |
| SettlementEffects.QueryWithoutEffect | src/Wallet.Infrastructure/Services/TransferService.cs:241-263 | A query answered Unknown, or rolled back, changes no row |
| SettlementEffects.WorkerQueryFailed | src/Settlement.Worker/Program.cs:135-141 | A worker query answered Failed: reversal entries, the transfer failed and the job with it; or nothing if the reversal throws |
| SettlementEffects.CustomerQueryFailed | src/Wallet.Infrastructure/Services/TransferService.cs:252-256 | A customer query answered Failed: reversal entries and the transfer failed, the job row as it was; or nothing |
| SettlementEffects.RepostResubmits | src/Wallet.Infrastructure/Services/TransferService.cs:312-327 | A repost submits a failed transfer again without a reference, its job pending at no attempts, its mark kept; anything else is refused |
| SettlementTheorems.ReversalsExplained | src/Settlement.Worker/Program.cs:96-102 | Reversal groups equal acted-upon explicit Failed answers, and reposts plus one if Failed |
| Attempts.AttemptsGrowWithReposts | src/Settlement.Worker/Program.cs:61-74 | After r reposts a job shows at most 2r + 3 attempts, and a dead letter needs two reposts |
| Attempts.ThreeAttemptsWithoutCrossing | src/Settlement.Worker/Program.cs:61-74 | In a run in which no claim listed before a repost of the transfer is run after it, at most three attempts and no dead letter |
| Attempts.ModestIffNoLargeClaim | src/Settlement.Worker/Program.cs:72-102 | A run keeps to three attempts and no dead letter throughout exactly when it never commits a dispatch whose claim was listed with three or more |
| Attempts.StepAttempts | src/Wallet.Domain/Records.cs:68-100 | A step sets the attempts to those of the claim it commits plus one, a repost to zero, and nothing else moves them |
| RequestTheorems.OneTransferPerKey | src/Wallet.Infrastructure/AppDbContext.cs:50 | No two transfers of a run share customer and key |
| RequestTheorems.RepeatReturnsOriginal | src/Wallet.Infrastructure/Services/TransferService.cs:265-273 | Repeated at any later point, a request returns the original id and amounts and changes nothing |
| RequestTheorems.OtherPayloadIsRefused | src/Wallet.Infrastructure/Services/TransferService.cs:269-270 | A different payload under a used key is refused for ever and changes nothing, if the text that used it holds no stray separator |
| RequestTheorems.LaterUseOfKey | src/Wallet.Infrastructure/Services/TransferService.cs:265-273 | Any later use of a key by its customer: the original transfer for the same text, a refusal otherwise |
| RequestTheorems.CountersAreReservations | src/Wallet.Application/Contracts.cs:174-181 | Each wallet-day counter is the sum of the outbound amounts reserved there, within 50,000,000 |
| RequestTheorems.OnlyReservationsMoveCounters | src/Wallet.Infrastructure/Services/TransferService.cs:97-127 | A counter moves only by an allowed reservation of the request's amount; replays, refusals, reversals and reposts leave it |
| RequestTheorems.LargeCounterNeedsVerifiedOwner | src/Wallet.Infrastructure/Services/TransferService.cs:93-95 | Behind a counter above 5,000,000 the run's latest reservation was made while the wallet's owner was Verified with a Verified document |
| RequestTheorems.VerifiedUserHasDocument | src/Wallet.Infrastructure/Services/KycService.cs:30-43 | In every reachable state a Verified user has a Verified document |
| OtherEffects.SubmissionResets | src/Wallet.Infrastructure/Services/KycService.cs:10-20 | A submission makes its owner pending and adds one pending document of hers; every other user and document stays |
| OtherEffects.VerdictFalls | src/Wallet.Infrastructure/Services/KycService.cs:30-58 | A verdict falls on the owner's own document and on the owner together; any other pair changes nothing |
| OtherEffects.OpeningAndRegistering | src/Wallet.Domain/Wallet.cs:16-31 | A wallet opens empty under a new number, a customer registers once and unverified; anything else changes nothing |
| OtherEffects.CustomersRegisterOnce | src/Wallet.Infrastructure/AppDbContext.cs:141 | In every reachable state no customer is registered twice |
| OtherEffects.NoLargeReservationUntilApproval | src/Wallet.Infrastructure/Services/TransferService.cs:93-127 | From a submission until the next approval no reservation of that customer takes a counter above 5,000,000 |
| RequestTheorems.CommittedRequestMovesMoney | src/Wallet.Infrastructure/Services/TransferService.cs:54-60 | A committed request of any kind changes every balance by exactly its own part: payer, payee and, going out, settlement, income and VAT |
| RequestTheorems.RefusalChangesNothing | src/Wallet.Infrastructure/Services/TransferService.cs:79 | A refused request changes nothing; one that changes something reports the single transfer it recorded |
| RequestTheorems.OutboundCommitsIff | src/Wallet.Infrastructure/Services/TransferService.cs:111-164 | An outbound request under a new key commits exactly when key, account, bank, amount and 64-bit sum are in order and limit, ownership, charges, balance and room for the credits allow it |
| RequestTheorems.InternalCommitsIff | src/Wallet.Infrastructure/Services/TransferService.cs:37-78 | An internal request under a new key commits exactly when its key is not blank, its amount is positive and at most 50,000,000, and ownership, balance and a payee with room, other than the source, allow it |
| RequestTheorems.InboundCommitsIff | src/Wallet.Infrastructure/Services/TransferService.cs:176-231 | An inbound request under a key its payee has not used commits exactly when key, account and amount are in order, settlement covers it and the payee has room |
| Answers.InternalAnswer | src/Wallet.Infrastructure/Services/TransferService.cs:24-62 | The answer to an internal request, guard by guard in the order they are tried: which error, a replay, or a commit |
| Answers.OutboundAnswer | src/Wallet.Infrastructure/Services/TransferService.cs:82-174 | The answer to an outbound request, guard by guard: fields, 64-bit sum, replay, limit, ownership, balance, charges, credits |
| Answers.InboundAnswer | src/Wallet.Infrastructure/Services/TransferService.cs:176-231 | The answer to an inbound request, guard by guard |
| Answers.CommittedRequest | src/Wallet.Infrastructure/Services/TransferService.cs:45-79 | A request that changes anything leaves exactly its transfer, key, journal entries, counter and job, its reply tells them, and the history notes the reservation |
| Answers.RepeatTells | src/Wallet.Infrastructure/Services/TransferService.cs:265-303 | Reply and every later repetition carry the request's own amount, charges, total and reference, with the status and rail reference of the moment |
| Answers.ResultShows | src/Wallet.Infrastructure/Services/TransferService.cs:302-303 | A reply that shows a stored transfer shows each of its fields |
| CustomerLimits.SendersOwnTheirWallets | src/Wallet.Infrastructure/Services/TransferService.cs:126 | In every reachable state the customer of an outbound transfer owns its source wallet |
| CustomerLimits.CustomerTotalIsSumOfCounters | src/Wallet.Infrastructure/Services/TransferService.cs:119-120 | What a customer sends in a day is the sum of her wallets' counters: the limit times the wallets she owns, not the limit |
| CustomerLimits.RequestKeepsLimitIff | src/Wallet.Infrastructure/Services/TransferService.cs:119-126 | A committed request leaves its customer's day within any limit exactly when the counters of her wallets and the amount together are |
| CustomerLimits.UnverifiedTotalIsBounded | src/Wallet.Infrastructure/Services/TransferService.cs:93-120 | Unless the latest reservation on some wallet of hers was made while Verified, she sends at most the unverified limit times her wallets |
| CustomerLimits.OneWalletOneLimit | src/Wallet.Application/Contracts.cs:174-181 | A customer with one wallet keeps the limit, and the unverified one unless the latest reservation was made while she was Verified |
| LimitRuns.BreakableIffTwoWallets | src/Wallet.Infrastructure/Services/TransferService.cs:93-126 | With room for one more funding: some continuation in which she opens no wallet breaks the limit per customer exactly if she has two wallets |
| ReconciliationTheorems.DiscrepancyExplained | src/Wallet.Infrastructure/Services/ReconciliationService.cs:114-117 | A report's income and VAT discrepancies are levies of reposts minus levies of transfers neither failed nor reconciled |
| ReconciliationTheorems.BalancedIffNothingOpen | src/Wallet.Domain/Records.cs:255-263 | Without reposts a report is Balanced exactly when no outbound transfer is left neither failed nor reconciled |
| ReconciliationTheorems.HoldingsMatchReports | src/Wallet.Infrastructure/Services/ReconciliationService.cs:35-65 | Holdings equal fees and VAT of reconciled transfers and the totals over all reports; no day has two reports |
| ReconciliationTheorems.ReportCountsItsOwnMarks | src/Wallet.Infrastructure/Services/ReconciliationService.cs:87 | A report's totals and count are those of exactly the transfers its run marked, all in its day |
| ReconciliationTheorems.OnlyLeviesCanImbalance | src/Wallet.Infrastructure/Services/ReconciliationService.cs:99-105 | Ledger and settlement discrepancies are always zero: only income and VAT can imbalance a report |
| ReconciliationTheorems.ReconciledOnce | src/Wallet.Infrastructure/Repositories/Repositories.cs:66-84 | A reconciled transfer keeps its instant for ever |
| ReconciliationTheorems.DayIsFrozen | src/Wallet.Infrastructure/Services/ReconciliationService.cs:22-23 | Once a day has its report, no row of that day, old or new, joins or leaves the reconciled set |
| ReconciliationTheorems.MissedTransferImbalancesLaterReports | src/Wallet.Infrastructure/Services/ReconciliationService.cs:37-83 | Without reposts, a transfer its day's report missed and that has not failed makes every later report Imbalanced |
| ReportConditions.ReportWrittenIff | src/Wallet.Infrastructure/Services/ReconciliationService.cs:17-125 | A run of a day writes a report exactly when the day has none and no holding overflows, in terms of the sums over the transfers due |
| ReportConditions.RunDayIff | src/Wallet.Infrastructure/Services/ReconciliationService.cs:28-121 | The same for any well-formed database: both loops and the alignment go through exactly when the sums fit |
| ReportConditions.HoldingsStayNonNegative | src/Wallet.Infrastructure/Services/ReconciliationService.cs:99-105 | In every reachable state no holding is negative, although debits are unchecked |
| ReportEffects.ReportSaysWhatItFound | src/Wallet.Infrastructure/Services/ReconciliationService.cs:28-121 | In every reachable state a report's totals are those of the settled, unmarked transfers of its day, its four comparisons those of the customers' and system balances with the holdings, exactly these transfers are marked, and nothing else changes |
| ReportEffects.CustomersAreTheRest | src/Wallet.Infrastructure/Repositories/Repositories.cs:44-45 | The customers' balances are the grand total less the three system wallets |
| ReportEffects.RunCountsVersions | src/Wallet.Domain/Records.cs:165-179 | Each holding counts one version for each transfer taken, and at most one more for the alignment |
| ReportEffects.RunIsStep | src/Wallet.Infrastructure/Services/ReconciliationService.cs:22-23 | A run writes its report or changes nothing |
| Statement.PagesCoverStatement | src/Wallet.Infrastructure/Repositories/Repositories.cs:106-116 | All pages in order list each entry of the wallet once, latest first and, within an instant, largest id first |
| Statement.StatementExplainsBalance | src/Wallet.Infrastructure/Repositories/Repositories.cs:106-116 | The signed sum over all pages is the customer's balance, in every reachable state |
| Statement.PageIsRightWhenOffsetFits | src/Wallet.Infrastructure/Repositories/Repositories.cs:108-113 | A page holds what its number says exactly when its offset fits in 32 bits, or both lie past the end |
| Statement.PageHolds | src/Wallet.Infrastructure/Repositories/Repositories.cs:106-116 | Within 32 bits a page holds the next rows of the statement, as many as asked for, between one and a hundred, while they last |
| Statement.WrapKeepsLowBits | src/Wallet.Infrastructure/Repositories/Repositories.cs:113 | The wrapped product is the 32-bit number congruent to the true one |
| Statement.FarPageHolds | src/Wallet.Infrastructure/Repositories/Repositories.cs:113 | Beyond 32 bits the wrapped product decides: negative is refused, anything else is the offset |
| Interleaving.CommittedBooksAreSerial | src/Wallet.Infrastructure/Repositories/Repositories.cs:32-39 | In every interleaving the committed books are the serial fold of the committed postings in commit order: no lost update |
| Interleaving.BalancesStayInRange | src/Wallet.Domain/Wallet.cs:45-60 | No interleaving makes a balance negative |
| Interleaving.LockedNeverStale | src/Wallet.Infrastructure/Repositories/Repositories.cs:32-39 | A transaction that locked its rows never fails the version check and commits what the serial machine would |
| Interleaving.UnlockedCommitsIffCurrent | src/Wallet.Infrastructure/AppDbContext.cs:33 | An unlocked reversal commits exactly when the rows it read are still the stored rows and the posting succeeds on them |
| ConcurrencyTheorems.InterleavingKeepsInv | src/Wallet.Infrastructure/Services/TransferService.cs:72-78 | The joint invariant holds in every interleaving of requests, dispatches and other operations, aborts included; the history records the verdict each request read |
| ConcurrencyTheorems.RacesCommitOnce | src/Wallet.Infrastructure/AppDbContext.cs:91 | However many requests miss the replay check together, one transfer at most is committed per customer and key |
| ConcurrencyTheorems.InterleavingIsSerial | src/Settlement.Worker/Program.cs:67-112 | An interleaving in which no request rides on a withdrawn verdict equals a run of the serial machine, up to the verdicts the history records |
| ConcurrencyTheorems.SerialUnlessOldVerdict | src/Wallet.Infrastructure/Services/TransferService.cs:93-102 | Finishing a request is the atomic request or nothing exactly unless it read Verified, that is withdrawn, the amount needs it, and key, ownership, charges, balance and room let it through |
| Verdicts.LargeReservationReadVerified | src/Wallet.Infrastructure/Services/TransferService.cs:93-127 | In every sequence of actions, a step that takes a counter above 5,000,000 finishes a request that an earlier action started while the wallet's owner was Verified by a Verified document |
| RowLocks.SchedulesRefine | src/Wallet.Infrastructure/Repositories/Repositories.cs:32-39 | Every schedule of row loads, locks, computations on loaded rows and version-checked commits is a sequence of the coarser steps |
| RowLocks.SchedulesAreSerial | src/Wallet.Infrastructure/AppDbContext.cs:33 | With no request on a withdrawn verdict such a schedule ends in a world of the serial machine |
| RowLocks.RequestsNeverStale | src/Wallet.Infrastructure/Repositories/Repositories.cs:32-39 | A request never fails the version check, and finishing it on its loaded rows is finishing it on the stored ones |
| RowLocks.DispatchCommitsIffCurrent | src/Settlement.Worker/Program.cs:90-111 | A finished dispatch is the machine's dispatch: committed if every row it loaded unlocked is still the stored row, rolled back otherwise |
| ConcurrencyTheorems.OneDispatchAtATime | src/Settlement.Worker/Program.cs:72-75 | At most one dispatch of a transfer is under way, and what it has sent was sent for a Submitted transfer |
| ConcurrencyTheorems.LateDispatchDoesNothing | src/Settlement.Worker/Program.cs:76-82 | In every interleaving a dispatch that read a resolved transfer sends nothing, moves no money and no transfer, and closes its own job alone |
| ConcurrencyTheorems.SubmittedRowStays | src/Settlement.Worker/Program.cs:75-88 | Apart from its own dispatch, nothing touches the row of a Submitted transfer |
| ConcurrencyTheorems.InternalLoser | src/Wallet.Infrastructure/Services/TransferService.cs:37-78 | The internal loser gets the winner's transfer exactly when the source still covers the amount, else InsufficientFunds |
| ConcurrencyTheorems.OutboundLoser | src/Wallet.Infrastructure/Services/TransferService.cs:119-172 | The outbound loser gets the winner's transfer exactly when limit and balance would still allow a second one |
| Losers.RaceLoserCommitsNothing | src/Wallet.Infrastructure/Services/TransferService.cs:226-230 | In every interleaving, finishing a request whose command another task has committed changes nothing; an inbound one gets an error |
| Losers.InternalRaceLoser | src/Wallet.Infrastructure/Services/TransferService.cs:37-78 | In every interleaving the internal loser gets the winner's transfer exactly when the source still covers the amount, else InsufficientFunds |
| Losers.OutboundRaceLoser | src/Wallet.Infrastructure/Services/TransferService.cs:119-172 | In every interleaving the outbound loser gets the winner's transfer exactly when limit and balance would still allow a second one |
| Losers.RaceFromTheSeed | src/Wallet.Infrastructure/Services/TransferService.cs:111-172 | From the seeded database, two equal payments race: the loser gets the winner's transfer up to half the limit, and DailyLimitExceeded above it |
| Scenarios.TwoWalletsDoubleTheLimit | src/Wallet.Infrastructure/Services/TransferService.cs:119-120 | Some run sends twice the unverified limit for one unverified customer in one day |
| Scenarios.RepostCanBlockReversal | src/Wallet.Infrastructure/Services/TransferService.cs:312-327 | Some run with a repost keeps a transfer Submitted whatever Failed answer comes |
| Scenarios.StrandedIsReachable | src/Settlement.Worker/Program.cs:103-109 | Some run from the seeded database leaves a transfer Unknown without a reference, and no continuation resolves it |
| StaleClaims.EveryPairIsReachable | src/Settlement.Worker/Program.cs:67-142 | Each of the seven pairs is committed by some run from the seeded database |
| StaleClaims.FiveAttemptsAfterOneRepost | src/Settlement.Worker/Program.cs:61-74 | Some run with one repost and a stale claim shows five attempts: the bound 2r + 3 is met |
| StaleClaims.DeadLetterIsReachable | src/Settlement.Worker/Program.cs:96-102 | Some run with two reposts and a stale claim commits a dead letter |
| VerdictRace.OldVerdictCommits | src/Wallet.Infrastructure/Services/TransferService.cs:93-102 | Some sequence of actions from the seeded database commits six million under a five-million limit, its last action finishing on a withdrawn verdict |
| Entities.Wallet.Credit | src/Wallet.Domain/Wallet.cs:45-51 | Adds the amount and one version, exactly when it is positive and the sum fits, else throws and changes nothing |
| Entities.Wallet.Debit | src/Wallet.Domain/Wallet.cs:53-60 | Takes the amount and adds one version, exactly when it is positive and covered, else throws and changes nothing |
| Entities.ExternalAccount.AlignTo | src/Wallet.Infrastructure/Services/ReconciliationService.cs:99-105 | Ends at the target by one credit, one debit or neither |
| Entities.SettlementJob.Claim | src/Wallet.Domain/Records.cs:68-74 | The claimed row: Processing, one more attempt, lease and next attempt set |
| Entities.SettlementJob.Fail | src/Wallet.Domain/Records.cs:85-91 | The failed row, for ever when dead-lettered |
| Entities.SettlementJob.Repost | src/Wallet.Domain/Records.cs:93-100 | The reposted row: Pending, attempts at zero, no lease |
| Entities.Transfer.ResetForRepost | src/Wallet.Domain/Transfer.cs:119 | Submitted again, reference gone, reconciliation mark kept |
| Entities.ReconciliationReport.Complete | src/Wallet.Domain/Records.cs:255-263 | Balanced exactly when all four discrepancies are zero |
| WalletTracking.UnitOfWork.Load | src/Wallet.Infrastructure/Repositories/Repositories.cs:32-39 | Loading a row twice gives the same object, and loading changes nothing |
| WalletTracking.UnitOfWork.Apply | src/Wallet.Infrastructure/Services/TransferService.cs:54-60 | One leg on the tracked rows is one leg of the posting, or throws and leaves the rows alone |
| TransferServices.ReverseOutbound | src/Wallet.Infrastructure/Services/TransferService.cs:275-299 | The four tracked writes are the reversal posting of the ledger machine, error included |
| TransferServices.TransferService.TransferInternal | src/Wallet.Infrastructure/Services/TransferService.cs:24-80 | Reply and new database are those of one internal request of the ledger machine |
| TransferServices.TransferService.TransferOutbound | src/Wallet.Infrastructure/Services/TransferService.cs:82-109 | The retry loop ends with the first run that is no deadlock victim, as one request of the machine, or with a deadlock after three and nothing changed |
| TransferServices.TransferService.RunOutbound | src/Wallet.Infrastructure/Services/TransferService.cs:111-174 | One run of the core: replay, limit, guards, postings and rows, or nothing |
| TransferServices.TransferService.TransferInbound | src/Wallet.Infrastructure/Services/TransferService.cs:176-231 | Reply and new database are those of one inbound request of the ledger machine |
| TransferServices.TransferService.QueryTransferStatus | src/Wallet.Infrastructure/Services/TransferService.cs:233-263 | One customer query of the machine, rolled back or not; an answer shows the committed row |
| TransferServices.QueryTells | src/Wallet.Infrastructure/Services/TransferService.cs:233-263 | Its answer field by field: not found, the stored row, the row as the rail's answer leaves it, or why nothing was committed |
| TransferServices.TransferService.Repost | src/Wallet.Infrastructure/Services/TransferService.cs:312-327 | One repost of the machine, with its two refusals; claim lists stay as they are |
| SettlementWorkers.SettlementWorker.Dispatch | src/Settlement.Worker/Program.cs:72-111 | The objects changed in place give the dispatch transaction of the machine |
| SettlementWorkers.SettlementWorker.DispatchBatch | src/Settlement.Worker/Program.cs:61-118 | The first loop is a run of the machine over the first twenty claimable jobs, each with the attempts it was listed with |
| SettlementWorkers.SettlementWorker.QueryBatch | src/Settlement.Worker/Program.cs:120-153 | The second loop is a run of the machine over the twenty Unknown transfers with a reference updated longest ago |
| SettlementWorkers.BatchIsRun | src/Settlement.Worker/Program.cs:50-154 | A whole batch is one run of admissible events, starting with the listing |
| SettlementWorkers.BatchStepByStep | src/Settlement.Worker/Program.cs:61-154 | A batch is the listing, one dispatch of every listed job with the attempts it was listed with, then one query of every transfer the second list holds by then, in order |
| SettlementWorkers.BatchLeads | src/Settlement.Worker/Program.cs:50-154 | A batch leads from a reachable world to a reachable one, so every result on reachable worlds survives it |
| SettlementWorkers.SettlementWorker.ProcessBatch | src/Settlement.Worker/Program.cs:50-154 | Both loops one after the other, on one clock reading |
| SettlementWorkers.UnknownListIsQueryable | src/Settlement.Worker/Program.cs:120-122 | The second list holds at most twenty different queryable transfers |
| SettlementWorkers.UnknownListIsOldestFirst | src/Settlement.Worker/Program.cs:122 | It starts with the rows updated longest ago, and leaves a queryable one out only after twenty that are no younger |
| SettlementWorkers.ClaimListIsFirst | src/Settlement.Worker/Program.cs:61-65 | The claim list is ascending, and a claimable job is left out only after twenty earlier ones |
| ReconciliationServices.Reconciler.TakeAll | src/Wallet.Infrastructure/Services/ReconciliationService.cs:37-83 | Either loop, object by object, is the fold of the ledger machine over its selection, error included |
| ReconciliationServices.ReconciliationService.Run | src/Wallet.Infrastructure/Services/ReconciliationService.cs:17-125 | One reconciliation step of the machine: an existing report, a new one, or an error and nothing changed |
| WalletServices.WalletService.Credit | src/Wallet.Infrastructure/Services/WalletService.cs:49-77 | One deposit step of the machine, or an error and nothing changed |
| WalletServices.WalletService.CreditSettlement | src/Wallet.Infrastructure/Services/WalletService.cs:79-105 | One funding step of the machine: wallet and holding together, or an error and nothing changed |
| WalletServices.WalletService.CreditCustomerAccount | src/NovaWallet.Admin.Web/Services/AdminDatabaseService.cs:113-144 | One admin credit of the machine, or an error and nothing changed |
| WalletServices.KycService.Submit | src/Wallet.Infrastructure/Services/KycService.cs:10-20 | A new pending document and its owner pending, in one step |
| WalletServices.KycService.Approve | src/Wallet.Infrastructure/Services/KycService.cs:30-43 | Document and owner Verified in one step, only for the owner's own document |
| WalletServices.KycService.Reject | src/Wallet.Infrastructure/Services/KycService.cs:45-58 | Document and owner Rejected in one step, only for the owner's own document |

## Left out

- EF change tracking across loop iterations: the worker shares one context per batch; here each transaction starts from the committed rows.
- Transfer rows that go stale between a status query's rail call and its commit, and racing reposts: each is one step.
- Audit log, outbox messages and their publishing, LastError and review texts, timestamps other than those listed: they decide nothing.
- Column lengths and check constraints of the schema, and case-insensitive text comparison in the database.
- Decimal VAT rounding: fee and VAT are given; zero or negative charges make an outbound request fail, as in the code.
- ReportWrittenIff: only for days whose outbound debits leave the ledger holding above -2^63; beyond that C# wraps, which the model does not.
- RunDayIff: the same, and the other three holdings above -2^63; in reachable states they never are below zero.
- FundingSucceedsIff: for a settlement holding above -2^63; in reachable states it never is below zero.
- FundingAnswer: the same.
- NoLargeReservationUntilApproval: over the serial machine; a request already under way may still ride on the withdrawn verdict (OldVerdictCommits).
- EveryPhaseIsReached: not the dead letter, which needs two reposts; EveryPairIsReachable covers it from the seeded database.
- Overflow of the unchecked totals in reconciliation and of external debits: modelled as integers.
- The scheduling of the end-of-day run, which skips days without settled outbound transfers: any day may be reconciled at any time.
- Account-number generation, user registration details, currencies, balance and list queries: they move no money.
- The operators on Money: no operation uses them.
- Deadlock detection in the server: any run of the outbound core may be chosen as the victim.
- Web pages, gateway, rate limiting, encryption, channel keys and tokens: not part of this model.
