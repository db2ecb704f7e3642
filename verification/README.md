# Gemone, modelled and verified in Dafny

A model of the parts of the Gemone rewards platform where being wrong costs money or trust, with
proofs over every input, every run and every interleaving. `dafny verify dfyconfig.toml` checks all
of it. The proofs are about the model; no part of the platform is executed.

## What is modelled

**The money machine.** `Ledger.dfy` holds the three-bucket reward ledger as values,
`RewardAccounting.dfy` the service that updates balances and history in place, `Payouts.dfy`,
`Conversions.dfy` and `PostbackIntake.dfy` the services around it. Each service method is proved to
do what its specification function says. `Platform.dfy` puts them into one state machine in which
users, deliveries, workers, admins and the maturation sweep interleave, one database transaction a
step; a payout review holds its row lock over several steps, and a settlement reads its request, pays
and enters its review in steps of their own. The invariants of each part are in
`LedgerInvariants.dfy`, `PayoutInvariants.dfy` and `ConversionInvariants.dfy`, kept together by every
event in `PlatformInvariants.dfy`, and read off for a reader in `PlatformTheorems.dfy`,
`AttributionTheorems.dfy`, `PostbackTheorems.dfy`, `HoldTheorems.dfy`, `ReviewTheorems.dfy`,
`PayoutTheorems.dfy` and `PaymentTheorems.dfy`. `LedgerTheorems.dfy` says when each ledger operation is
granted and what it moves, `PlatformMovements.dfy` what one event can do to the ledger; `ChargebackRace.dfy` splits a chargeback's transaction at the
balance lock, with every other event in between; `PlatformRuns.dfy` holds concrete histories.
`Reconciliation.dfy` is the nightly check of balances against history and its chain of pages.

**Configuration.** `ConfigurationStore.dfy` interleaves writing transactions over the table and its
history; `AdminConfiguration.dfy` is the version-checked write; `ConfigurationCache.dfy` is the
in-process cache with remembered misses and its lookup chain; `InvalidationProtocol.dfy` is the
best-effort protocol between any number of processes, and `InvalidationBus.dfy` one process's end of
it. `ProviderReloads.dfy` is the serialised registry reload and `RegistryProtocol.dfy` the registry
as the channel's second client.

**Catalog and login.** `Offers.dfy` and `CatalogSync.dfy` are the sync loop, its counters and the
prune guard, `CatalogRuns.dfy` the same runs statement by statement; `LoginThrottle.dfy` the windowed
counters shared by concurrent attempts.

Ids are positions or natural numbers, times are integers, points and money are unbounded integers
(the code stays within exact doubles). A refused operation leaves its state unchanged, as a rolled
back transaction does. A JSON value is an integer and a schema any function that rejects or parses it.

## What the proofs found

- `pending` can go negative: a chargeback of a matured credit spends the pending points of another
  credit, which then matures. `PendingTurnsNegative` gives the exact condition.
- `reverse` says its double-reversal check runs after the balance lock
  (apps/api/src/modules/rewards/reward-accounting.service.ts:279-281); the code checks before it, and
  no unique key stands behind the check
  (apps/api/prisma/migrations/20260802220850_add_reward_accounting/migration.sql:53). Two deliveries
  that report one conversion reversed can both take its points. `ChargedTwiceIff` is the exact
  condition; the platform's invariants hold with each reversal taken as one transaction.
- A chargeback of a conversion whose hold an admin REJECTED always ends FAILED: attribution only
  leaves out REVERSED originals and the credit is already taken back.
- The loser of a chargeback race reports the winner, as the comment at
  apps/api/src/modules/conversions/conversions.service.ts:600-608 says, if and only if it checked for
  an earlier reversal before the credit's first chargeback committed (`LoserReportsTheWinnerIff`). A
  loser that starts later fails on that check, and FAILED overwrites PROCESSED.
- PROCESSED says that the conversion exists except where a worker marked the postback after another
  worker's commit (`ProcessedIff`).
- Net points are not the points of the standing conversions once a payout below zero is held:
  apps/api/src/modules/providers/adapters/mock/mock.adapter.ts:342-351 parses one, and the row is HELD
  with negative points and no credit.
- Money and points can part: `execute` reads the status without a lock and then waits for the provider
  (apps/api/src/modules/payouts/payouts.service.ts:385-416), and `settle` takes the row lock only
  afterwards. A second settlement pays again, a review fails and refunds a paid request, and a payment
  runs on a request that was failed meanwhile. `MoneySentIffPointsConsumed` is the exact condition
  after a history, `MoneySentForGoodIff` and `PaidOnceForGoodIff` those under which it can no longer
  happen to an ended request.
- Two overlapping runs of one provider, which a catalog queue of concurrency two allows
  (apps/api/src/jobs/catalog-sync.processor.ts:38), can switch off an offer that both listed: a prune
  takes down exactly what was last written by a run that fetched before it started (`PruneDarkensIff`).
- The comment at apps/api/src/modules/conversions/conversions.service.ts:163-167 expects a retry to
  succeed; after the FAILED mark the retry skips the postback (`FailuresAreFinal`).
- `appliedActionOf` records BLOCK on a row the provider rejected whenever the engine recommended it,
  although the score was not acted on (`DecisionMeaning`).
- Two first writes of a configuration key that both assert absence both commit; the comment at
  apps/api/src/modules/admin/admin-configuration.service.ts:250-254 says one is refused.
  `PreconditionBrokenIff`: that is the only way an asserted version can be out of date at the commit.
  The upsert is modelled as a single statement that updates the row it finds.
- A cached value from before a process's first subscription is never invalidated; coherence is proved
  under the assumption that nothing is cached by then, which is a guard of the step.
- A provider change whose local reload fails is neither announced nor put on record, and a registry
  loaded before its process's first subscription can stay behind.

## Model

| member | source | states |
|---|---|---|
| `PlatformTheorems.WithdrawalsAreCovered` | apps/api/src/modules/payouts/payouts.service.ts:217-244 | After any interleaving of submissions, reviews, chargebacks and sweeps: a user's locked bucket is the sum of their PENDING_REVIEW and APPROVED requests and is never negative, lifetime withdrawn is the sum of the PAID ones, and locked plus withdrawn never exceeds the points maturation released |
| `PlatformTheorems.OneLockPerRequest` | apps/api/src/modules/payouts/payouts.service.ts:302-355 | Each request has a lock of its own; the lock is resolved by at most one row, exactly once the request is terminal, by a settle exactly when it is PAID; a PAID request had its payment executed first |
| `PlatformTheorems.PointsAreAccountedFor` | apps/api/src/modules/rewards/reward-accounting.service.ts:290-306 | After any history of the platform: pending between the open credits less the late reversals and the open credits, and the buckets add up to earned - reversed - withdrawn - manual debits |
| `PlatformTheorems.CashOut` | apps/api/src/modules/payouts/payouts.service.ts:229-243 | With each request's own stored rate, cash times rate over all PAID requests lies within one rate unit per request below 100 times the withdrawn points and never above it |
| `PlatformTheorems.NetIsStandingPoints` | apps/api/src/modules/conversions/conversions.service.ts:449-597 | A user's net conversion points equal the points of their CREDITED and HELD originals if and only if none of those is priced below zero |
| `PlatformTheorems.NetIsPointsWithoutNegativePayouts` | apps/api/src/modules/conversions/conversions.service.ts:449-597 | So they are equal after every history in which no provider reported a payout below zero |
| `PlatformRuns.NegativePayoutStands` | apps/api/src/modules/conversions/conversions.service.ts:1023-1040 | They need not be: a history in which an inactive account's confirmed conversion with a payout of -5 is HELD with -5 points and no credit |
| `PlatformTheorems.StatusTellsTheCredit` | apps/api/src/modules/conversions/conversions.service.ts:1023-1066 | What each status says about the credit: none for PENDING, ATTRIBUTED and REVERSAL rows, charged back for REVERSED and REJECTED, standing for CREDITED and HELD exactly when the row is worth something; a held credit is unmatured and has no maturity date; one credit per conversion, for its user and its points |
| `AttributionTheorems.OriginalsAreDecided` | apps/api/src/modules/conversions/conversions.service.ts:224-230 | Over the two events that read and record a report, after any history: what the provider rejected or reserved is stored and moves nothing; of what it confirmed, a block on an active account is REJECTED without a row, an inactive account, HOLD and REVIEW are HELD with an undated credit, anything else is CREDITED with a credit of the floored priced points dated the hold days ahead |
| `AttributionTheorems.ChargebacksAreCarriedOut` | apps/api/src/modules/conversions/conversions.service.ts:449-597 | After any history a chargeback that can be about one conversion only stores its row and the REVERSED original and takes the original's points back, pending first, unless an admin had rejected the hold |
| `AttributionTheorems.RecordedOriginalsAreFound` | apps/api/src/modules/conversions/conversions.service.ts:401-426 | An original just recorded is the one a chargeback with its click, payout and currency is about, unless an earlier row matches too |
| `AttributionTheorems.QuarantinedIff` | apps/api/src/modules/conversions/conversions.service.ts:401-426 | A report is quarantined, with nothing stored or moved, if and only if it is unreadable, of another provider, currency or an unknown user, or a chargeback that not exactly one conversion matches |
| `PlatformTheorems.AtMostOnce` | apps/api/src/modules/conversions/postback-intake.service.ts:208-262 | Under concurrent workers and duplicate deliveries one (provider, transaction id) has at most one archive row, one conversion and one credit, and 1 + duplicates + uncounted refusals equals the deliveries |
| `PostbackTheorems.ProcessedIff` | apps/api/src/modules/conversions/conversions.service.ts:594-594 | After every history a postback is PROCESSED if and only if its conversion exists and no worker marked it after the commit; a converted one is not PROCESSED if and only if some worker did |
| `PostbackTheorems.ProcessedMeansConverted` | apps/api/src/modules/conversions/conversions.service.ts:126-130 | So with one worker per postback at a time, PROCESSED if and only if the conversion exists |
| `PlatformRuns.TwoWorkersCanHideAConversion` | apps/api/src/modules/conversions/conversions.service.ts:168-172 | With two workers a history leaves a FAILED postback whose conversion exists |
| `PostbackTheorems.FailuresAreFinal` | apps/api/src/modules/conversions/conversions.service.ts:126-130 | Once a postback is marked and no worker holds it, no later event changes its state or converts it: only RECEIVED is processed, so a retried job finds nothing to do |
| `PostbackTheorems.AttemptsAreOutcomes` | apps/api/src/modules/conversions/postback-intake.service.ts:402-462 | After any history the attempts counted on a row are the outcomes workers have written for it, and an untouched row has none |
| `PlatformTheorems.NoClockReleasesAHold` | apps/api/src/modules/rewards/reward-accounting.service.ts:342-391 | Every maturation acts on an earlier credit of the same user whose stored date had come, or whose conversion's hold an admin cleared; no credit matures twice or after its chargeback |
| `ReviewTheorems.OnlyClearingReleasesAHold` | apps/api/src/modules/conversions/conversions.service.ts:806-827 | Over whole histories: a maturation before its credit's date, or of a credit without one, was preceded by an admin clearing that conversion while it was HELD |
| `HoldTheorems.HoldPeriodsAreKept` | apps/api/src/modules/rewards/reward-accounting.service.ts:169-177 | Over whole histories: a maturation comes no earlier than d times 86,400,000 ms after the event that wrote its credit with a hold of d days, unless an admin cleared the conversion while it was HELD |
| `HoldTheorems.ClearingReleasesThePoints` | apps/api/src/modules/conversions/conversions.service.ts:806-817 | After any history, clearing a HELD conversion makes it CREDITED and reviewed and moves exactly its points from pending to available by one maturation of its credit |
| `HoldTheorems.RejectingTakesThePointsBack` | apps/api/src/modules/conversions/conversions.service.ts:829-853 | Rejecting one makes it REJECTED and takes exactly its points back, pending first |
| `HoldTheorems.OnlyHoldsAreDecided` | apps/api/src/modules/conversions/conversions.service.ts:752-805 | A decision about anything but a HELD conversion changes nothing |
| `ReviewTheorems.RejectedStaysRejected` | apps/api/src/modules/conversions/conversions.service.ts:829-853 | A hold an admin rejected that was worth something keeps its row under every later event |
| `PlatformTheorems.HistoryIsPermanent` | apps/api/src/modules/rewards/reward-accounting.service.ts:159-192 | No history row is ever changed or removed, so a later hold-period change moves no existing credit's maturity |
| `PlatformTheorems.ChargebackRefusedIff` | apps/api/src/modules/conversions/conversions.service.ts:641-671 | A planned chargeback is refused if and only if its original is REVERSED or REJECTED and had a credit |
| `PlatformTheorems.RejectedHoldsCannotBeChargedBack` | apps/api/src/modules/conversions/conversions.service.ts:401-426 | Attribution offers REJECTED originals as chargeback targets; for one an admin rejected that was worth something the transaction always fails |
| `PlatformTheorems.ReversalRaceLoserOverwrites` | apps/api/src/modules/conversions/conversions.service.ts:168-172 | Two workers on one chargeback: a loser whose transaction starts after the winner's commit fails before it meets the unique index, and its FAILED mark overwrites the winner's PROCESSED |
| `ChargebackRaces.LoserReportsTheWinnerIff` | apps/api/src/modules/rewards/reward-accounting.service.ts:271-290 | Over histories in which a chargeback's already-reversed check and its locked write are two steps with anything in between: once the winner has committed, the other worker reports the winner if and only if its check came before the credit's first chargeback, and fails if and only if it came after |
| `ChargebackRaces.UninterruptedIsPersist` | apps/api/src/modules/conversions/conversions.service.ts:449-617 | Check and commit with nothing in between are the platform's one transaction, refusals included |
| `ChargebackRaces.ChargedTwiceIff` | apps/api/src/modules/rewards/reward-accounting.service.ts:278-290 | After every such history a credit was charged back twice if and only if a transaction that checked before its first chargeback committed after it, for a postback nobody had converted |
| `ChargebackRaces.TwoChargebacksBothCommit` | apps/api/src/modules/rewards/reward-accounting.service.ts:278-290 | From any history: two chargebacks of one credit for two postbacks that both check before either commits both commit |
| `PlatformRuns.ChargedBackTwice` | apps/api/src/modules/rewards/reward-accounting.service.ts:278-290 | Such a history, from the first registration on |
| `PlatformRuns.ChargebackRaceHappens` | apps/api/src/modules/conversions/conversions.service.ts:599-617 | The race happens: a history ends with the chargeback recorded and its postback FAILED |
| `PlatformRuns.RejectedHoldsChargebackFails` | apps/api/src/modules/conversions/conversions.service.ts:401-426 | A history in which the chargeback of a rejected hold is planned, refused and left FAILED |
| `PlatformInvariants.EveryRun` | apps/api/src/modules/rewards/reward-accounting.service.ts:871-912 | Every reachable state keeps the whole money invariant: ledger, conversions, payouts, archive, jobs, row locks and sweeps together |
| `PayoutTheorems.AcceptedIff` | apps/api/src/modules/payouts/payouts.service.ts:151-258 | A submission is accepted if and only if its method, amount and destination are within the policy, fewer requests than the cap fall in the last 24 hours, and available covers it; then exactly its points are locked |
| `PayoutTheorems.RequestsWereAccepted` | apps/api/src/modules/payouts/payouts.service.ts:151-258 | After any history every request still holds what an event submitted under a policy that allowed it, and its cash is its amount at that policy's rate, rounded down |
| `PayoutTheorems.ReviewDecidesIff` | apps/api/src/modules/payouts/payouts.service.ts:276-370 | A review brings its request to the status it asks for if and only if it approves or rejects a pending one or settles or fails an approved one; otherwise nothing changes |
| `PayoutTheorems.DecisionsMovePoints` | apps/api/src/modules/payouts/payouts.service.ts:302-355 | An allowed decision is written on the request; approving moves nothing, settling uses the locked points up, rejecting and failing make them available again |
| `PayoutTheorems.RequestsGoForward` | apps/api/src/modules/payouts/internal/payout-state-machine.ts:35-59 | Over whole histories no request goes back, on after its end, or forgets what was submitted |
| `PaymentTheorems.MoneySentIffPointsConsumed` | apps/api/src/modules/payouts/payouts.service.ts:385-416 | Reading APPROVED, paying and the review are separate steps: once a request has ended, its payment ran as often as its points were consumed if and only if no payment ran on it when it was already paid or no longer APPROVED, and no review failed it after its payment |
| `PaymentTheorems.MoneySentForGoodIff` | apps/api/src/modules/payouts/payouts.service.ts:385-416 | Money and points of an ended request agree under everything that can still happen if and only if they agree and no settlement that read APPROVED still waits to pay |
| `PaymentTheorems.SettlementsAreAccountedFor` | apps/api/src/modules/payouts/payouts.service.ts:385-416 | Each settlement that read a request as APPROVED paid, gave up before paying, or still waits |
| `PaymentTheorems.PaidAtMostOnceIff` | apps/api/src/modules/payouts/payouts.service.ts:385-416 | At any time after the end the payment has run at most once if and only if, of the settlements that read APPROVED before the end, all but at most one gave up or still wait |
| `PaymentTheorems.PaidOnceForGoodIff` | apps/api/src/modules/payouts/payouts.service.ts:385-416 | Nothing that can still happen pays an ended request twice if and only if its payments and the settlements waiting on it are at most one together |
| `PaymentTheorems.PaidThenFailed` | apps/api/src/modules/admin/admin-payouts.service.ts:106-117 | From any history with an approved request: pay, then fail it, and the money is out with the request FAILED |
| `PaymentTheorems.FailedThenPaid` | apps/api/src/modules/payouts/payouts.service.ts:385-416 | From any such history: a review fails the request while a settlement waits for the provider, which then pays |
| `PaymentTheorems.PaidTwice` | apps/api/src/modules/admin/admin-payouts.service.ts:106-117 | From any such history: two settlements read APPROVED, one is marked PAID, and the other pays again |
| `PlatformRuns.PaidForNothing` | apps/api/src/modules/admin/admin-payouts.service.ts:106-117 | Histories from the first registration on in which one payment went out and the points were refunded: paid before the failing review, or after it |
| `PlatformRuns.PaidTwiceOver` | apps/api/src/modules/admin/admin-payouts.service.ts:106-117 | And one in which a PAID request was paid twice |
| `LedgerInvariants.ReachableInv` | apps/api/src/modules/rewards/reward-accounting.service.ts:797-912 | For any sequence of calls by any caller, every bucket and lifetime total is the sum of the history and every row acts as its kind allows |
| `LedgerInvariants.LedgerSound` | apps/api/src/modules/rewards/reward-accounting.service.ts:871-912 | Each row's amount is the sum of its three deltas, each bucket the sum of its column, and pending + available + locked = earned - reversed - withdrawn - manual debits |
| `LedgerInvariants.PendingBound` | apps/api/src/modules/rewards/reward-accounting.service.ts:290-306 | open credits - credits reversed after maturing <= pending <= open credits, in every reachable ledger |
| `LedgerInvariants.EarlyReversalsStayInPending` | apps/api/src/modules/rewards/reward-accounting.service.ts:290-306 | If no matured credit of the user was reversed, pending is exactly the open credits and no reversal touched available |
| `LedgerInvariants.PendingTurnsNegative` | apps/api/src/modules/rewards/reward-accounting.service.ts:342-391 | From a non-negative pending one call makes it negative if and only if it matures an open credit larger than what pending still holds |
| `LedgerInvariants.PendingCanBeNegative` | apps/api/src/modules/rewards/reward-accounting.service.ts:290-306 | It happens: a concrete run ends with pending at -5 |
| `LedgerInvariants.NothingUnmaturedIsWithdrawn` | apps/api/src/modules/rewards/reward-accounting.service.ts:413-457 | 0 <= locked and locked + withdrawn <= points moved by maturation rows, chargebacks and debits included |
| `LedgerInvariants.HistoryOnlyGrows` | apps/api/src/modules/rewards/reward-accounting.service.ts:871-912 | The history after any prefix of calls is a prefix of the history after all of them |
| `LedgerTheorems.CreditIsPending` | apps/api/src/modules/rewards/reward-accounting.service.ts:159-192 | A credit is granted for any positive amount to any account and moves exactly that into pending and earned |
| `LedgerTheorems.CreditStoresItsDate` | apps/api/src/modules/rewards/reward-accounting.service.ts:169-177 | A hold of d days stores the time of the credit plus d times 86,400,000; an indefinite one stores none |
| `LedgerTheorems.HeldCreditsAreNotDue` | apps/api/src/modules/rewards/reward-accounting.service.ts:572-599 | So the maturation query returns it at no earlier time, whatever else happens to the history |
| `LedgerTheorems.DebitTakesAvailable` | apps/api/src/modules/rewards/reward-accounting.service.ts:201-226 | A debit of any positive amount is granted and comes from available alone |
| `LedgerTheorems.LockIffCovered` | apps/api/src/modules/rewards/reward-accounting.service.ts:413-457 | A positive lock is granted if and only if available covers it, whatever is locked already, and moves exactly that |
| `LedgerTheorems.ReverseTakesPendingFirst` | apps/api/src/modules/rewards/reward-accounting.service.ts:241-330 | A positive row not charged back yet is taken back whole, what pending covers first and the rest from available |
| `LedgerTheorems.MatureReleases` | apps/api/src/modules/rewards/reward-accounting.service.ts:342-391 | An open row's points move from pending to available; nothing else moves |
| `LedgerTheorems.ResolveOnce` | apps/api/src/modules/rewards/reward-accounting.service.ts:703-785 | A lock is resolved if and only if it has not been; settling takes the points out, refunding makes them available |
| `RewardAccountings.SweepReleasesWhatIsDue` | apps/api/src/jobs/reward-maturation.processor.ts:88-118 | A run whose selection is no full batch of 500 leaves no open credit unmatured whose date was reached when it started |
| `RewardAccountings.RewardAccounting.OpenAccount` | apps/api/src/modules/rewards/reward-accounting.service.ts:142-147 | Opens a zero balance row once; an existing one is left alone |
| `RewardAccountings.RewardAccounting.Credit` | apps/api/src/modules/rewards/reward-accounting.service.ts:159-192 | Appends the credit to pending with the maturity fixed at credit time (none for an indefinite hold) and counts it as earned, or refuses and changes nothing |
| `RewardAccountings.RewardAccounting.Debit` | apps/api/src/modules/rewards/reward-accounting.service.ts:201-226 | Takes a positive amount from available, which may go negative, or refuses |
| `RewardAccountings.RewardAccounting.Reverse` | apps/api/src/modules/rewards/reward-accounting.service.ts:241-330 | Takes the credit back, pending first and the rest from available; refuses an unknown row, a non-credit and a second reversal |
| `RewardAccountings.RewardAccounting.Mature` | apps/api/src/modules/rewards/reward-accounting.service.ts:342-391 | Moves an open credit from pending to available; does nothing for an unknown, matured or charged-back one |
| `RewardAccountings.RewardAccounting.Lock` | apps/api/src/modules/rewards/reward-accounting.service.ts:413-457 | Moves available points to locked, refusing more than is available |
| `RewardAccountings.RewardAccounting.ResolveLock` | apps/api/src/modules/rewards/reward-accounting.service.ts:703-785 | Settles (points leave, counted as withdrawn) or refunds (back to available) an unresolved lock |
| `RewardAccountings.FindMaturableIsABatch` | apps/api/src/modules/rewards/reward-accounting.service.ts:572-599 | The query returns open credits whose date has come, earliest first, without repetition, at most a batch, and leaves nobody earlier out |
| `RewardAccountings.RewardAccounting.Sweep` | apps/api/src/jobs/reward-maturation.processor.ts:88-118 | Selects the batch as of now and matures it one transaction at a time, skipping failures; the count is the rows appended |
| `Payouts.ExactlyOneResolution` | apps/api/src/modules/payouts/internal/payout-state-machine.ts:35-59 | Along any path of the machine the lock is resolved exactly once when the path has ended and never before, settled exactly when it ended in PAID |
| `Payouts.CashIsRoundedDown` | apps/api/src/modules/payouts/payouts.service.ts:574-576 | Cash times rate is at most 100 times the points and more than that less one rate unit |
| `Payouts.SplittingPaysNoMore` | apps/api/src/modules/payouts/payouts.service.ts:574-576 | At one rate two withdrawals never pay more than one of their sum |
| `Payouts.PayoutsService.CreateRequest` | apps/api/src/modules/payouts/payouts.service.ts:151-258 | Refusals in the source's order, the destination among them; the lock and the request commit together or neither does |
| `Payouts.PayoutsService.Review` | apps/api/src/modules/payouts/payouts.service.ts:276-370 | Missing reason, unknown request, forbidden transition; otherwise the lock effect and the new status together |
| `PayoutInvariants.TransitionSucceeds` | apps/api/src/modules/payouts/payouts.service.ts:302-355 | The ledger never refuses a transition the machine permits: it succeeds if and only if it is permitted |
| `PayoutTheorems.PayableIff` | apps/api/src/modules/payouts/payouts.service.ts:385-416 | A payment may start on an APPROVED request and on no other |
| `PayoutTheorems.ReviewAnswers` | apps/api/src/modules/payouts/payouts.service.ts:276-355 | What an admin is told, in order: refusing needs a reason, the request exists, the machine leads there; nothing else ever refuses |
| `Conversions.DecisionMeaning` | apps/api/src/modules/conversions/conversions.service.ts:903-1066 | From provider status, account state, recommendation and points to what is stored: when points move, when they are withheld, which action is recorded |
| `Conversions.ReversalNeverGuesses` | apps/api/src/modules/conversions/conversions.service.ts:401-426 | A chargeback is planned against a conversion if and only if it is the only candidate |
| `Conversions.WhyRefused` | apps/api/src/modules/conversions/conversions.service.ts:190-426 | The reason of a quarantine, in the source's order; no candidate and several are told apart |
| `Conversions.FindsTheFirst` | apps/api/src/modules/rewards/reward-accounting.service.ts:552-563 | The credit found for a conversion is there whenever one is, and no earlier row is one |
| `Conversions.Candidates` | apps/api/src/modules/conversions/conversions.service.ts:401-414 | Exactly the unreversed originals of the click with that payout and currency, in order |
| `Conversions.ConversionsService.PersistConversion` | apps/api/src/modules/conversions/conversions.service.ts:449-617 | Credit or reversal, conversion row, original marked, postback marked: all or nothing, with the ledger rolled back when the unique index refuses |
| `Conversions.ConversionsService.ReviewHold` | apps/api/src/modules/conversions/conversions.service.ts:752-854 | Only a HELD conversion: clearing matures its credit, rejecting takes it back; status and points together |
| `PostbackIntakes.PostbackIntake.Archive` | apps/api/src/modules/conversions/postback-intake.service.ts:208-262 | A new key is archived RECEIVED, a known one counted on its own row |
| `PostbackIntakes.PostbackIntake.ArchiveUnparseable` | apps/api/src/modules/conversions/postback-intake.service.ts:280-323 | An unparseable payload is kept without a key |
| `PostbackIntakes.PostbackIntake.MarkDuplicate` | apps/api/src/modules/conversions/postback-intake.service.ts:332-343 | One more on the duplicated row |
| `PostbackIntakes.PostbackIntake.Mark` | apps/api/src/modules/conversions/postback-intake.service.ts:402-462 | The outcome's state and one more attempt, on that row only |
| `Reconciliations.AlwaysBalanced` | apps/api/src/modules/rewards/reward-accounting.service.ts:658-699 | Reconciling any user of any reachable ledger on one snapshot reports balanced |
| `Reconciliations.DriftIsExact` | apps/api/src/modules/rewards/reward-accounting.service.ts:658-699 | A balance row changed behind the ledger is reported by exactly the change, and only for its user |
| `Reconciliations.EveryMovementIsCounted` | apps/api/src/modules/rewards/reward-accounting.service.ts:658-699 | The report counts every movement of the user and no other |
| `Reconciliations.TornReadReportsTheMovement` | apps/api/src/modules/rewards/reward-accounting.service.ts:658-699 | Why one snapshot: a balance read after a movement and a history read before it differ by exactly that movement |
| `Reconciliations.PageIsARun` | apps/api/src/modules/rewards/reward-accounting.service.ts:619-628 | A page is ascending, past the cursor, skips nobody, and is everybody left when it is short |
| `Reconciliations.ReconciliationProcessor.SweepPage` | apps/api/src/jobs/reconciliation.processor.ts:115-168 | Checked, failed and drifted count the page; a continuation is queued exactly when the page filled and the cursor moved |
| `Reconciliations.ReconciliationProcessor.Process` | apps/api/src/jobs/reconciliation.processor.ts:99-105 | The job reads a page of 200 from the cursor it carries |
| `Reconciliations.CleanPages` | apps/api/src/jobs/reconciliation.processor.ts:115-135 | Over any reachable ledger no page reports drift |
| `Reconciliations.PageCounts` | apps/api/src/jobs/reconciliation.processor.ts:115-135 | The counters of a page are numbers of users: read, unreadable, and of those read the ones whose balance is not what their history adds up to |
| `Reconciliations.NobodyTwice` | apps/api/src/jobs/reconciliation.processor.ts:145-150 | For every page size >= 1 and whatever happens to the user table, the chain visits nobody twice |
| `Reconciliations.EverybodyOnce` | apps/api/src/jobs/reconciliation.processor.ts:115-150 | A finished chain visits exactly once each user who was there throughout |
| `Reconciliations.ChainStops` | apps/api/src/jobs/reconciliation.processor.ts:136-150 | The chain stops once it has as many jobs as pages of users past the cursor, over any finite user set |
| `ConfigurationStores.TableIsFoldOfHistory` | apps/api/src/core/config/configuration.service.ts:271-317 | In every interleaving the stored value of each slot is what its last history entry left, null meaning absent |
| `ConfigurationStores.LockedChangesChain` | apps/api/src/modules/admin/admin-configuration.service.ts:256-284 | A change made under the row lock records exactly the value the previous entry left |
| `ConfigurationStores.CommitChainsIff` | apps/api/src/core/config/configuration.service.ts:259-272 | Any other change chains if and only if the value it read is still stored at its commit |
| `ConfigurationStores.OneCommitPerVersion` | apps/api/src/modules/admin/admin-configuration.service.ts:256-284 | Of all writers holding one version of an existing row at most one commits |
| `ConfigurationStores.PreconditionBrokenIff` | apps/api/src/modules/admin/admin-configuration.service.ts:246-284 | At its commit a writer's asserted version is no longer the row's if and only if it asserted absence and another commit has stored the row since its check |
| `ConfigurationStores.TwoFirstWritesBothCommit` | apps/api/src/modules/admin/admin-configuration.service.ts:246-254 | It happens: two writers that both assert absence both commit |
| `ConfigurationStores.EveryRun` | apps/api/src/core/config/configuration.service.ts:271-440 | Locks, versions and history stay consistent over every interleaving of sets, resets and aborts |
| `ConfigurationStores.AbortsLeaveNoTrace` | apps/api/src/modules/admin/admin-configuration.service.ts:156-191 | A transaction given up changes neither table nor history and holds no lock |
| `ConfigurationStores.WriteAnswers` | apps/api/src/core/config/configuration.service.ts:216-258 | Which writes are refused and why; an accepted one lands on a slot only its own scope can address |
| `ConfigurationStores.ResetAnswers` | apps/api/src/core/config/configuration.service.ts:365-385 | A reset reaches exactly the slot a write with the same target stores at; without a provider's id it is accepted and reaches none |
| `AdminConfigurations.AdminConfigurationService.Change` | apps/api/src/modules/admin/admin-configuration.service.ts:129-357 | Every refusal in order; otherwise table, history and audit together, then the local drop and the broadcast, and neither for a reset of nothing |
| `AdminConfigurations.AdminConfigurationService.Write` | apps/api/src/modules/admin/admin-configuration.service.ts:156-193 | The uninterrupted transaction: table, history row and audit entry |
| `AdminConfigurations.AloneMeans` | apps/api/src/modules/admin/admin-configuration.service.ts:156-193 | That transaction stores the value, touches no other slot, appends one chaining entry and keeps the invariant |
| `AdminConfigurations.ChangeAnswers` | apps/api/src/modules/admin/admin-configuration.service.ts:129-357 | Which changes are refused and why: key, target, a decision on another value, scope, value |
| `AdminConfigurations.SecondUseIsStale` | apps/api/src/modules/admin/admin-configuration.service.ts:256-284 | A version is good for one change: whoever comes second with it is refused |
| `AdminConfigurations.ServiceWritesAreTransactions` | apps/api/src/core/config/configuration.service.ts:259-440 | The service's own set and unset leave the table and the history of one uninterrupted unconditional transaction |
| `ConfigurationCaches.ConfigurationService.Invalidate` | apps/api/src/core/config/configuration.service.ts:604-610 | Drops one entry and advances the generation |
| `ConfigurationCaches.ConfigurationService.InvalidateAll` | apps/api/src/core/config/configuration.service.ts:613-616 | Drops every entry and advances the generation |
| `ConfigurationCaches.ConfigurationService.Remember` | apps/api/src/core/config/configuration.service.ts:791-800 | Caches only if no invalidation came in between |
| `ConfigurationCaches.ConfigurationService.ReadStored` | apps/api/src/core/config/configuration.service.ts:693-752 | The cached entry or the row, parsed again; misses and rejected rows remembered as misses |
| `ConfigurationCaches.ConfigurationService.Resolve` | apps/api/src/core/config/configuration.service.ts:185-206 | PROVIDER, then GLOBAL, then default; with a coherent cache the same answer as straight from the rows, and the next lookup answers the same until an invalidation |
| `ConfigurationCaches.ConfigurationService.Set` | apps/api/src/core/config/configuration.service.ts:216-317 | Stores the parsed value with its history row and drops the entry after it, or refuses and changes nothing; coherence is kept |
| `ConfigurationCaches.ConfigurationService.Unset` | apps/api/src/core/config/configuration.service.ts:365-440 | Removes the row with its history row and drops the entry; a no-op records and drops nothing |
| `ConfigurationCaches.LookupRefinesPlain` | apps/api/src/core/config/configuration.service.ts:185-206 | Through hits, remembered misses and rejected rows a coherent cache resolves as the stored rows do |
| `ConfigurationCaches.RejectedRowsAreMisses` | apps/api/src/core/config/configuration.service.ts:693-752 | A row today's schema rejects answers every lookup as if it were not there |
| `ConfigurationCaches.DroppedIsReadAfresh` | apps/api/src/core/config/configuration.service.ts:604-616 | After an invalidation a lookup of the slot reads the row as it is now; other slots are answered as before |
| `ConfigurationCaches.GlobalValuesAreInForce` | apps/api/src/core/config/configuration.service.ts:185-226 | What a write accepts for everybody is what every caller without an accepted value of its own is answered, as GLOBAL; the others keep theirs |
| `ConfigurationCaches.ProviderValuesAreInForce` | apps/api/src/core/config/configuration.service.ts:185-226 | What a write accepts for one provider is what it is answered, as PROVIDER, and moves nobody else's answer |
| `ConfigurationCaches.ResetsRestoreTheChain` | apps/api/src/core/config/configuration.service.ts:353-465 | Resetting a provider's value returns it to the shared one, resetting both to the default |
| `InvalidationProtocols.StaleMeansOwed` | apps/api/src/core/config/configuration.service.ts:604-643 | For any number of processes and any run: a stale cached value, or a read that could still cache one, means an invalidation is owed to that process (a write not yet announced, a message waiting, a link not resynced, or a lost broadcast on record) |
| `InvalidationProtocols.SettledMeansCoherent` | apps/api/src/core/config/configuration.service.ts:693-800 | When nothing is under way and nothing is owed, every cache agrees with the table |
| `InvalidationProtocols.UnowedLookupsArePlain` | apps/api/src/core/config/configuration.service.ts:185-206 | A lookup in a process that is owed nothing on the slots it consults answers as the stored rows do |
| `InvalidationProtocols.EveryRun` | apps/api/src/core/events/invalidation.bus.ts:162-392 | The staleness invariant holds in every reachable state |
| `InvalidationProtocols.LateFirstSubscriptionStaysStale` | apps/api/src/core/events/invalidation.bus.ts:319-341 | The assumption is needed: a process that cached before its first subscription stays stale with nothing owed |
| `InvalidationProtocols.HearingDropsWhatIsCovered` | apps/api/src/core/events/invalidation.bus.ts:349-392 | After any history a message drops exactly the entries it covers, so none of those is stale, and nothing else: an echo and another domain's message touch nothing |
| `InvalidationProtocols.ReconnectingCures` | apps/api/src/core/events/invalidation.bus.ts:316-347 | From every reachable state a lost and regained connection leaves a process that had subscribed with nothing stale |
| `InvalidationProtocols.LostNewsGoesOut` | apps/api/src/core/events/invalidation.bus.ts:274-305 | Recorded domains reach everybody connected as soon as the channel carries them, one by one, the rest still to come |
| `InvalidationBuses.InvalidationBus.Publish` | apps/api/src/core/events/invalidation.bus.ts:162-172 | The message is sent or its domain is recorded |
| `InvalidationBuses.InvalidationBus.AnnounceMissed` | apps/api/src/core/events/invalidation.bus.ts:274-305 | Announces the recorded domains in order; those not sent are recorded again |
| `InvalidationBuses.InvalidationBus.Establish` | apps/api/src/core/events/invalidation.bus.ts:316-347 | Only a reconnection drops everything |
| `InvalidationBuses.InvalidationBus.Receive` | apps/api/src/core/events/invalidation.bus.ts:349-392 | Unreadable drops everything in every domain, an echo nothing, the rest what they name |
| `InvalidationBuses.InvalidationBus.InvalidateAndBroadcast` | apps/api/src/core/config/configuration.service.ts:632-643 | The local drop first, then the broadcast or its record |
| `InvalidationBuses.InvalidationBus.SetAndBroadcast` | apps/api/src/core/config/configuration.service.ts:320-347 | A write in its own transaction, then the message or its record; a refusal tells nobody |
| `InvalidationBuses.InvalidationBus.UnsetAndBroadcast` | apps/api/src/core/config/configuration.service.ts:442-465 | A removal likewise; removing nothing tells nobody |
| `InvalidationBuses.NothingForgotten` | apps/api/src/core/events/invalidation.bus.ts:274-305 | Wherever the connection breaks, each lost domain is announced or still on record |
| `CatalogSyncs.FullSyncIsExact` | apps/api/src/modules/offers/catalog-sync.service.ts:288-319 | After a pruned full run with no overlap an offer is live if and only if it was accepted and no admin had pulled it |
| `CatalogSyncs.PrunesIff` | apps/api/src/modules/offers/catalog-sync.service.ts:288-319 | A full run prunes if and only if 100 * accepted >= threshold * live after its writes |
| `CatalogRuns.UninterruptedRunIsSynced` | apps/api/src/modules/offers/catalog-sync.service.ts:237-319 | Upserts, count, decision and prune as single steps with nothing in between leave the catalog the whole run is specified to leave |
| `CatalogRuns.PruneDarkensIff` | apps/api/src/modules/offers/offers.service.ts:127-149 | After every history of runs, one statement a step, a prune takes a live offer of its provider down if and only if the run behind the offer's last upsert had fetched before the pruning run started |
| `CatalogRuns.PrunedRunIsExact` | apps/api/src/modules/offers/catalog-sync.service.ts:237-319 | With an admin's switches anywhere between its statements, a pruning run that no other run of the provider overlapped leaves an offer live if and only if it accepted it and it is not pulled |
| `CatalogRuns.LiveWasListedSince` | apps/api/src/modules/offers/offers.service.ts:127-149 | However runs overlap, what a prune leaves live was accepted from a response fetched after its run started |
| `CatalogRuns.OverlapDarkensAListedOffer` | apps/api/src/modules/offers/offers.service.ts:99-110 | It happens to an offer the pruning run accepted: a run that fetched before it started wrote last |
| `CatalogRuns.PruneLeavesTheThreshold` | apps/api/src/modules/offers/catalog-sync.service.ts:288-319 | With the count, the decision and the prune as separate steps: a run alone on its provider leaves, with its accepted but admin-pulled offers, the threshold share of what was live at the count, so of what was live right before the prune less what an admin switched on in between |
| `CatalogSyncs.PrunedIsUnseen` | apps/api/src/modules/offers/offers.service.ts:127-149 | For a run on any table, the exact condition for each offer |
| `CatalogRuns.PulledStaysPulled` | apps/api/src/modules/offers/offers.service.ts:78-113 | Wherever it lands between the statements of any number of runs, an admin's pull holds until an admin restores the offer |
| `CatalogRuns.SwitchesLand` | apps/api/src/modules/offers/offers.service.ts:165-192 | Between any two statements a pull takes a live offer off at once and a restore puts it back |
| `CatalogRuns.RunsEnd` | apps/api/src/modules/offers/catalog-sync.service.ts:237-319 | A run can stop at any statement and an incremental one ends when everything is written; neither touches an offer |
| `CatalogSyncs.PruningLeavesTheThreshold` | apps/api/src/modules/offers/catalog-sync.service.ts:299-313 | In an uninterrupted run, if anything is switched off, 100 * (left live + accepted but admin-pulled) >= threshold * live before pruning |
| `CatalogSyncs.RefusalDarkensNothing` | apps/api/src/modules/offers/catalog-sync.service.ts:303-314 | A refused prune switches nothing off |
| `CatalogSyncs.NothingUsableDarkensNothing` | apps/api/src/modules/offers/catalog-sync.service.ts:288-319 | A response with nothing acceptable leaves a live catalog as it is, for any positive threshold |
| `CatalogSyncs.WrittenMeans` | apps/api/src/modules/offers/catalog-sync.service.ts:237-273 | Each accepted id is written once, from its first mention, live unless an admin pulled it; nothing else moves |
| `CatalogSyncs.CatalogSyncService.WriteOffers` | apps/api/src/modules/offers/catalog-sync.service.ts:237-273 | fetched = accepted + rejected, accepted = created + updated = distinct accepted ids, the rejection map counts each reason and sums to rejected; a failure keeps what was written |
| `CatalogSyncs.RefusalsAreEntries` | apps/api/src/modules/offers/catalog-sync.service.ts:237-273 | The rejection counters are numbers of entries refused for that reason, duplicates of an accepted id among them |
| `CatalogSyncs.WhatTheGuardMeets` | apps/api/src/modules/offers/catalog-sync.service.ts:288-319 | Which faults a run's guard meets: the threshold is only read for a live catalog, the prune only sent when it is safe |
| `CatalogSyncs.CatalogSyncService.PruneIfSafe` | apps/api/src/modules/offers/catalog-sync.service.ts:288-319 | Refuses exactly below the threshold share, otherwise deactivates exactly the unseen; a failing count, threshold read or prune switches nothing off |
| `CatalogSyncs.CatalogSyncService.Sync` | apps/api/src/modules/offers/catalog-sync.service.ts:65-149 | When a run fails (fetch, upsert, count, threshold read, prune or health record), succeeds or ends PARTIAL, and the table each leaves |
| `Offers.DeactivationCounts` | apps/api/src/modules/offers/offers.service.ts:127-154 | The live count falls by exactly what a deactivation reports; no other provider's moves |
| `Offers.UpsertCounts` | apps/api/src/modules/offers/offers.service.ts:78-113 | An upsert adds one to the live count exactly when the offer was not live and no admin had pulled it |
| `Offers.SwitchAnswers` | apps/api/src/modules/offers/offers.service.ts:165-192 | A switch is granted exactly when it changes something, and leaves the admin's name exactly when it switches off |
| `Offers.UpsertActivates` | apps/api/src/modules/offers/offers.service.ts:78-113 | An upsert leaves its offer live exactly when no admin had pulled it, with the new content and time, and no other offer changed |
| `Offers.OffersService.UpsertFromSync` | apps/api/src/modules/offers/offers.service.ts:78-113 | Creates or updates; activation untouched when an admin pulled the offer |
| `Offers.OffersService.DeactivateUnseen` | apps/api/src/modules/offers/offers.service.ts:127-149 | Exactly the provider's live offers last seen before the start, marked as a sync's doing |
| `Offers.OffersService.SetActive` | apps/api/src/modules/offers/offers.service.ts:165-192 | Unknown offer, no-op refused, otherwise switched with the admin as the source |
| `LoginThrottles.AdmittedIsBounded` | apps/api/src/modules/auth/login-throttle.service.ts:104-179 | Under any interleaving, the attempts the service admitted minus those given back in a window <= the highest address limit used + places of earlier windows given back in it |
| `LoginThrottles.BurstAdmitsExactly` | apps/api/src/modules/auth/login-throttle.service.ts:104-145 | With nothing given back exactly min(n, limit) of n attempts in a window are admitted |
| `LoginThrottles.AdmittedIff` | apps/api/src/modules/auth/login-throttle.service.ts:104-145 | What the service answers, for any sequence of attempts on any accounts from any addresses in one window with nothing given back: admitted if and only if among the first limits.account of its account and the first limits.ip of its address |
| `LoginThrottles.FirstOnesAreAdmitted` | apps/api/src/modules/auth/login-throttle.service.ts:104-145 | So of the attempts at one address, or on one account, that nothing else stops exactly the first limit are admitted |
| `LoginThrottles.NoMoreThanTheLimit` | apps/api/src/modules/auth/login-throttle.service.ts:104-145 | Of n of them exactly min(n, limit) |
| `LoginThrottles.OutagesRefuse` | apps/api/src/modules/auth/login-throttle.service.ts:115-131 | An attempt is told unavailable if and only if one of its counters could not be moved |
| `LoginThrottles.ReservingTakesOnePlaceEach` | apps/api/src/modules/auth/login-throttle.service.ts:104-145 | An attempt moves its account's and its address's counter by one and no other, and leaves none without an expiry |
| `LoginThrottles.WindowsEnd` | apps/api/src/modules/auth/login-throttle.service.ts:230-251 | Once the window is over the next attempt is admitted and opens a new one: nobody is locked out past the window |
| `LoginThrottles.PlacesComeBackOnce` | apps/api/src/modules/auth/login-throttle.service.ts:104-179 | An attempt takes one place whether admitted or not; only an admitted one gives it back, once, counted in its own window or as late |
| `LoginThrottles.ExpiryIsFixed` | apps/api/src/modules/auth/login-throttle.service.ts:230-251 | A live key always carries an expiry, fixed when its window opened and never moved |
| `LoginThrottles.ReleaseUndoesReserve` | apps/api/src/modules/auth/login-throttle.service.ts:165-179 | Reserve then release restores the address counter if and only if the window has not ended in between |
| `LoginThrottles.LoginThrottle.Transact` | apps/api/src/modules/auth/login-throttle.service.ts:230-251 | Increment and conditional expiry as one step |
| `LoginThrottles.LoginThrottle.ReserveAttempt` | apps/api/src/modules/auth/login-throttle.service.ts:104-145 | Both places first, then the verdict: unavailable, account, address |
| `LoginThrottles.LoginThrottle.ReleaseAttempt` | apps/api/src/modules/auth/login-throttle.service.ts:165-179 | Clears the account, gives back one place at the address |
| `ProviderReloads.NeverBackwards` | apps/api/src/modules/providers/providers.service.ts:129-141 | Over any interleaving of calls, commits and failed rebuilds the registry's database version never decreases |
| `ProviderReloads.ResolvedIncludesEverythingBefore` | apps/api/src/modules/providers/providers.service.ts:129-141 | A resolved reload leaves a snapshot with every commit made before its call |
| `ProviderReloads.UnchainedGoesBackwards` | apps/api/src/modules/providers/providers.service.ts:50-67 | Without the chain overlapping reloads can leave the older state |
| `ProviderReloads.ProvidersService.Reload` | apps/api/src/modules/providers/providers.service.ts:129-172 | With no other reload under way: the snapshot becomes the current database state, or stays as it was on failure |
| `ProviderReloads.ProvidersService.ReloadAndBroadcast` | apps/api/src/modules/providers/providers.service.ts:156-159 | Announces after a successful reload; a failed one announces and records nothing |
| `RegistryProtocols.BehindMeansOwed` | apps/api/src/modules/providers/providers.service.ts:90-92 | For any number of processes and any run: a registry that lacks a committed version is owed its write's own reload or message, a waiting message, a resync, a reload that will bring it or another process's lost news, unless a rebuild failed here after the commit or at its writer |
| `RegistryProtocols.SettledMeansCurrent` | apps/api/src/modules/providers/providers.service.ts:129-172 | When nothing is under way a registry lacks only what a failed rebuild cost it |
| `RegistryProtocols.LateFirstSubscriptionStaysBehind` | apps/api/src/core/events/invalidation.bus.ts:319-341 | The assumption is needed: a snapshot loaded before the first subscription stays old with nothing owed |
| `RegistryProtocols.RebuildsAreCurrent` | apps/api/src/modules/providers/providers.service.ts:129-141 | A rebuild nothing fails loads every version committed by its query |
| `RegistryProtocols.HearingAsksForAReload` | apps/api/src/core/events/invalidation.bus.ts:349-392 | A message queues one reload exactly when it is unreadable or another process's provider change |
| `RegistryProtocols.ReconnectingAsksForAReload` | apps/api/src/core/events/invalidation.bus.ts:316-347 | A lost and regained connection queues a reload that reads the table afresh |
| `RegistryProtocols.NewcomersListen` | apps/api/src/modules/providers/providers.service.ts:90-118 | A process that has just booted can listen at once, its first reload still coming |
| `RegistryProtocols.LostNewsGoesOut` | apps/api/src/core/events/invalidation.bus.ts:274-305 | A recorded provider change reaches everybody connected once the channel carries it |
| `RegistryProtocols.WritersAreThere` | apps/api/src/modules/providers/providers.service.ts:156-172 | In every reachable state the process of a write under way is running, so nothing owed is orphaned |
| `RegistryProtocols.EveryRun` | apps/api/src/modules/providers/providers.service.ts:156-172 | The registry invariant holds in every reachable state |

## Left out

- HTTP controllers, guards, cookies, module wiring, logging, e-mail and the web application: plumbing and presentation.
- Signature checks, `sub_id` signing, password hashing and token rotation: cryptography.
- Prisma and Redis themselves: a transaction is one atomic commit with row locks and unique keys, `MULTI` one atomic step.
- Statement-level interleavings inside `reverse` and `mature`: their existence checks run before the balance lock. The platform takes each as one atomic transaction; only a chargeback's is split, in `ChargebackRace.dfy`, against events that are whole.
- `mature` of a row that is no credit: the code has no type guard and every caller passes a credit, so runs of the ledger interface assume it (`CallableRun`).
- Click, rate and user lookups, the adapters and the fraud engine: their answers are inputs of the attribution step, any answer at any time.
- The text rules of a payout destination: whether one normalises is an input of the submission.
- `mapOffer` and `toRewardPoints` internals: a fetched offer is already accepted or refused; points are the floor of payout times rate times share.
- An admin switching an offer between the read and the write of one upsert: the upsert is one step.
- The daily payout cap is counted in the submitting step; the code counts it before the transaction and accepts the race.
- A process that crashes or shuts down between commit and broadcast: a step the protocol does not have.
- A configuration row holding JSON null, whose removal `unset` reports as nothing to remove: values are never null here.
- `updatedAt` strictly increases with every write of the configuration table: assumed, the code takes it from a clock.
- Labels, reasons, actors, hold-day counts and other columns that no rule reads.
- ProviderReloads.ProvidersService.Reload: one call with no other under way; overlapping calls are steps of their own in the interleaving beside it (`NeverBackwards`).
- Provider health scores, list paging and clamping, click limits, admin summaries: easy members beside the above.
- `ReconciliationProcessor.SweepPage`: a user whose read fails is a parameter, not a modelled fault.
