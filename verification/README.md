# Keygate: a verified model of its state machines

Keygate is a licence server. Its hard parts are small state machines that have to survive
retries, reordering, crashes and races: a licence row that follows a Stripe subscription, a
ledger of paid renewals and their refunds, a gate on update feeds whose links outlive it, a claim
on webhook events, and a handful of in-memory machines behind every request. This project models
those machines in Dafny and proves what they keep in every run.

`dafny verify dfyconfig.toml` verifies the whole project.

## How it is modelled

* A protocol is a state, the events that can happen to it (`Event`), when each can happen
  (`Enabled`) and what it does (`Next`). `Follows` says that a sequence of events is a run and
  `End` is where it leads. Every store call or transaction is one step at one instant of the
  database clock; Stripe, customers and operators are the environment and may do anything the
  events allow, in any order. Deliveries may die at any step.
* State that the program changes in place is a class (`FeedGate.Product`,
  `SubscriptionSync.Licence`, `BruteForce.Protection`, `RateLimiter.Memory`, `PriceCache.Handler`,
  `PendingWalk.Walker`, `Idempotency.CaptureWriter`) and a loop is a loop. Each such method is
  proved equal to a function of the old state, and the theorems are about that function.
* Where a promise does not hold in every run, the model keeps what the code does, one lemma gives
  a run in which it fails, and another proves exactly when it holds:

| promise | fails when | exactly when it holds |
|---|---|---|
| a read that shows held terms may end the hold (`DowngradeFailures.CrossedIsUnsafe`) | a read stamped later was answered earlier and is still on its way | `DowngradeExact.HoldEndIsExact` |
| lowering a licence for a downgrade leaves it within what is billed and above what is in use (`DowngradeFailures.StaleLoweringIsUnsafe`, `DowngradeFailures.DisturbedIsUnsafe`) | what is billed moved after the change was read: a lost downgrade was made, or a change that waited was paid | `DowngradeExact.LoweringIsExact`, for whatever is in use `DowngradeExact.CountIsExact`, for the count alone `Downgrade.LowerCheckIsExact` |
| a hold is released once its change is seen to be made (`DowngradeFailures.UnmarkedIsUnsafe`) | the stamp before the release could not be written, and an older read is on its way | `DowngradeExact.UnmarkedIsExact` |
| a request Stripe serves leaves the licence within what is billed (`DowngradeFailures.LateServiceIsUnsafe`, `DowngradeFailures.OvertakenIsUnsafe`) | it is served after a later one, or after a change that waited was paid | `DowngradeExact.LateServiceIsExact`, in full `DowngradeExact.UnheldServiceIsExact` and `DowngradeExact.HeldServiceIsExact` |
| a type change waits for public links (`FeedGate.LateEditIsUnsafe`) | the row it read has changed by the time it is written | `FeedGate.LateEditIsExact` |
| a cutoff is written only after the wait for public links (`FeedGate.RevertIsUnsafe`) | an undone upgrade writes its cutoff back on a product with nothing bounded | `FeedGate.RevertIsExact` |
| a delivery told that an event is done is told the truth (`EventClaim.ToldDoneTooSoon`, `EventClaim.TakerDies`) | the reservation was given back between its two looks, or a taker is, or died, between its two statements | `EventClaim.DoneAnswerIsExact` |
| a canceled licence stays canceled (read of Stripe alone) | a live answer with no earlier stamp is on its way | `SubscriptionSync.CancellationIsExact` |
| the row's own stamp bounds how old its status is (`SubscriptionSync.StampOutrunsStatus`) | a write moved the stamp and left the status alone | `SubscriptionSync.StampIsExact` |
| every change of standing is announced (`SubscriptionSync.FailureUnpauses`) | a failed payment known only from its payload lands on a licence that is no longer in use | `SubscriptionSync.UntoldIsExact` |
| every deadline of the breaker lets one probe through (`Breaker.BothPass`) | the cooldown is zero or less, and a deadline is written over itself | `Breaker.OneProbeIsExact` |
| a key has one result (`Idempotency.RowVanishes`) | the row that refused a request is gone when the request reads it | `Idempotency.VanishedRowIsExact` |

## Files

`PlanLimits` and `Downgrade`: changes of plan and seats, and the system they run in.
`DowngradeKernel`: the states from which nothing can go wrong. `DowngradeExact`: that there are no
others, and what it says of single steps. `DowngradeSafety`: runs of a licence from its start.
`DowngradeFailures`: runs without one of the conditions. `SubscriptionSync`: status, deletion and
announcements. `Renewals`: the ledger. `FeedGate`: feeds, links and update periods. `EventClaim`:
the two-row claim. `BruteForce`, `RateLimiter`, `Breaker`, `Idempotency`, `PriceCache`: the
machines behind requests. `Features`: add-ons. `PendingWalk`: the walk over unpaid sessions.

## Model

| member | source | states |
|---|---|---|
| `DowngradeSafety.NeverAboveBilled` | internal/payment/subscription_change.go:887-1091 | in every run of upgrades, downgrades, refusals, lost answers, retries, restarts, delayed reads and lapsed holds, neither the licence nor anything in use exceeds what Stripe bills, given `Undisturbed` (what is billed has not moved past a change being made), `InOrder` and `Uncrossed` |
| `Downgrade.UnmovedIsUndisturbed` | internal/payment/subscription_change.go:282-315 | a change made over the very terms it was read over disturbs nothing: one that is not mixed lowers only what it was found to lower, and raises nothing |
| `DowngradeKernel.CountedFits` | internal/store/store.go:2684-2704 | what the count under the row lock lets through fits the lowered terms |
| `DowngradeSafety.StepTidies` | internal/payment/subscription_change.go:770-1092 | every step of such a run keeps its invariant: each downgrade still due is moot or held, and nothing due can raise what is billed past a change being made |
| `DowngradeKernel.StepKeeps` | internal/payment/subscription_change.go:887-1091 | from any state in the kernel, every step that keeps the conditions leads back into it |
| `DowngradeExact.SecureIsExact` | internal/payment/subscription_change.go:887-1091 | in every state any run can reach: all later runs are safe if and only if the state is in the kernel, which is said of reads in flight, requests due, the hold and the change under way |
| `DowngradeExact.HoldEndIsExact` | internal/store/store.go:1037-1102 | all runs after a read ends a hold are safe if and only if no read stamped no earlier is in flight with more than is billed |
| `DowngradeExact.LoweringIsExact` | internal/store/store.go:2684-2704 | all runs after a downgrade lowers the licence are safe if and only if the terms are no more than is billed and no less than is in use, and no upgrade still due can follow their showing |
| `DowngradeExact.LoweringInRunsIsExact` | internal/payment/subscription_change.go:929-948 | in the runs of a licence from its start the last part holds of itself: if and only if the terms are no more than is billed and no less than is in use |
| `DowngradeExact.CountIsExact` | internal/store/store.go:2684-2704 | for whatever is in use within what is billed, every lowering the count lets through is safe from there on if and only if the terms are no more than is billed, every limit lowered against that was found to be lowered, and no upgrade still due can follow their showing |
| `DowngradeExact.UnmarkedIsExact` | internal/payment/subscription_change.go:919-928 | a release may go without its stamp if and only if no read still to come shows more than is billed |
| `DowngradeExact.LateServiceIsExact` | internal/payment/subscription_change.go:1007-1040 | all runs after Stripe makes a change or holds it for payment, in or out of turn and whatever is under way, are safe if and only if it leaves room for the licence, usage, reads in flight and terms yet to be put back, and nothing more can then be billed before a downgrade still due, unless a hold that cannot end first covers it |
| `DowngradeExact.UnheldServiceIsExact` | internal/payment/subscription_change.go:1007-1040 | with nothing held or under way, in full: if and only if the licence, usage and every read that may land are within the new terms and each downgrade still due is calm from there |
| `DowngradeExact.HeldServiceIsExact` | internal/payment/subscription_change.go:1007-1040 | under a running hold with nothing under way, in full: the same, but a read may die before the hold does, and a downgrade need be calm only where what is billed, or a read on its way, can show the licence's terms and end the hold |
| `DowngradeExact.LateWaitIsExact` | internal/payment/subscription_change.go:1000-1007 | of a change Stripe holds for payment in its turn: if and only if it raises what is billed |
| `Downgrade.LowerCheckIsExact` | internal/payment/subscription_change.go:333-349 | usage within what is billed fits the lowered terms if and only if each limit lowered against what is billed was one the change was found to lower |
| `Downgrade.RefusedGivesBack` | internal/store/store.go:2728-2742 | whatever comes between the lowering and the restore, a downgrade refused while its hold runs leaves the terms the licence had before |
| `Downgrade.MadeIsReleased` | internal/payment/subscription_change.go:976-987 | whatever comes between, one that is made leaves the terms asked for and no hold |
| `Downgrade.NewReadSettles` | internal/payment/stripe.go:1294-1343 | from any state with no running hold a new read puts the licence on what is billed |
| `Downgrade.SuspendedTakesTerms` | internal/store/store.go:1032-1084 | so does one on a licence an operator suspended, with its stamp, and a lapsed hold is left for the sweep |
| `Downgrade.HoldKeepsTerms` | internal/store/store.go:1050-1062 | while a hold runs, a read that does not show its terms moves the stamp at most, and on a suspended licence nothing |
| `Downgrade.ShowingEndsHold` | internal/store/store.go:1050-1068 | one that shows them ends the hold, unless the licence is suspended; one older than the stamp does nothing |
| `Downgrade.ChangeIsAsked` | internal/payment/subscription_change.go:887-948 | a change up to its request: read over what is billed, refused for held terms, for raising one limit and lowering another, or for what is in use; an upgrade lowers nothing, a downgrade is lowered and held for ten minutes |
| `Downgrade.StripeMakes` | internal/payment/subscription_change.go:995-1009 | a change is billed at once unless it waits for payment; paid, it is billed, and run out, dropped |
| `Downgrade.SeenIsReleased` | internal/payment/subscription_change.go:976-987 | seen to be made, a downgrade stamps the row and gives its hold up, and nothing else moves |
| `Downgrade.GivenUpIsSwept` | internal/payment/stripe.go:1294-1343 | with no answer the terms stay held and earlier reads are out of date, until the sweep ends the lapsed hold |
| `Downgrade.RunForms` | internal/store/store.go:2684-2742 | in every run, conditions or not, a hold outlasts every downgrade asked before it by the time a read may take, and while a change is past its check a running hold has the licence on that change's terms |
| `DowngradeFailures.DisturbedIsUnsafe` | internal/store/store.go:2684-2704 | a run in which a pending change is paid between the check and the lowering ends with more in use than billed |
| `DowngradeFailures.StaleLoweringIsUnsafe` | internal/payment/subscription_change.go:929-948 | so does one in which a lost downgrade is made, and its hold ends, between another's read and its lowering |
| `DowngradeFailures.LateServiceIsUnsafe` | internal/payment/subscription_change.go:1007-1040 | and one in which Stripe serves a superseded request after a later one |
| `DowngradeFailures.OvertakenIsUnsafe` | internal/payment/subscription_change.go:995-1016 | and one in which a waiting change is paid while another is with Stripe |
| `DowngradeFailures.CrossedIsUnsafe` | internal/store/store.go:1050-1070 | and one in which two reads cross the change |
| `DowngradeFailures.UnmarkedIsUnsafe` | internal/payment/subscription_change.go:919-928 | and one in which the stamp before a release fails and an older read lands |
| `DowngradeFailures.RaisingIsNotEnough` | internal/payment/subscription_change.go:1007-1040 | a run that keeps every condition leads to a late service that raises what is billed and is safe at once, and can still go wrong: a downgrade already made is due again |
| `PlanLimits.OverLimitIsExact` | internal/payment/subscription_change.go:333-349 | no refusal if and only if everything lowered still holds what is in use; a refusal names the count and the limit it exceeds |
| `PlanLimits.ChangeKeepsInUse` | internal/payment/subscription_change.go:213-331 | any change let through, downgrade or not, leaves used seats, activations and floating sessions within the new limits if they were within the old |
| `PlanLimits.ChangesCompare` | internal/payment/subscription_change.go:282-315 | a downgrade that is not mixed raises nothing, and a change is no downgrade exactly when it lowers nothing |
| `PlanLimits.LowersIsExact` | internal/payment/subscription_change.go:282-315 | a limit is lowered if and only if something fitted it before and does not now, with 0 seats no limit and 0 devices none |
| `PlanLimits.MixedIsExact` | internal/payment/subscription_change.go:282-315 | a change is mixed if and only if each side has something the other has not |
| `PlanLimits.FitIsRoom` | internal/model/model.go:326-334 | what fits is what the kind of product has room for |
| `PlanLimits.Capabilities` | internal/model/model.go:99-115 | what each kind of product has |
| `PlanLimits.LimitsOfPlan` | internal/model/model.go:326-334 | a plan sold per seat holds the seats bought, at least one, and its devices for each; any other what it says |
| `PlanLimits.ClampIsNearest` | internal/payment/seats.go:90-98 | the nearest quantity a licence row holds |
| `PlanLimits.ResolvedIsAsked` | internal/payment/subscription_change.go:213-331 | a change let through is to the plan and quantity asked for, within what the plan sells, and a downgrade, mixed, done or kept by what it is over |
| `PlanLimits.RefusedIsExact` | internal/payment/subscription_change.go:213-331 | what is refused and for what, the count and limit included, and nothing else is |
| `Renewals.ReplayRenewals` | internal/model/model.go:926-968 | the nested loops over the `before` slice compute `Replay` |
| `Renewals.WalkRows` | internal/model/model.go:928-949 | one walk over the first rows computes `Walk`, for a past instant or for good |
| `Renewals.LedgerTruth` | internal/model/model.go:907-968 | after any interleaving of purchases, refunds and early refunds, the licence's end is the plain fold over the unrefunded purchases, the replay agrees, and it sees no shift and no restart |
| `Renewals.NeverBought` | internal/model/model.go:907-925 | deleting every delivery of a refunded payment intent from the run does not change where the licence ends |
| `Renewals.RefundConfluence` | internal/payment/stripe.go:2716-2785 | completion and full refund of one payment intent, in any order and number, leave one row, refunded, and no early-refund marker |
| `Renewals.RefundSettles` | internal/payment/stripe.go:2461-2535 | after a full refund every row of its intent is refunded, and there is a row or a marker |
| `Renewals.RunKeepsLedger` | internal/store/store.go:3482-3637 | every write keeps: recorded previous ends equal their predictions, rows are one per intent, markers belong to intents without a row |
| `Renewals.NoDrift` | internal/model/model.go:936-967 | with any number of edits and no refunds the replay is within a second of the last recorded end |
| `Renewals.RefundNeverExtends` | internal/model/model.go:926-968 | a refund after every purchase never moves the replayed end later, edits or not |
| `Renewals.RevertNeverExtends` | internal/store/store.go:3573-3637 | nor the licence's own end |
| `Renewals.RefundTakesItsDays` | internal/model/model.go:917-968 | across admin edits of any size, refunding a renewal bought with time in hand takes back exactly its days from the replayed end |
| `Renewals.RevertTakesItsDays` | internal/store/store.go:3573-3637 | and from the licence's own end, with an edit made since left on top |
| `Renewals.RevertKeepsEdit` | internal/store/store.go:3573-3637 | an edit made since survives any refund to the nanosecond |
| `Renewals.RevertWithoutReplay` | internal/store/store.go:3573-3637 | where the ledger gives no end, a refund takes the days the renewal gave |
| `Renewals.RevertOfNothing` | internal/store/store.go:3573-3637 | a renewal that gave nothing takes nothing and is still marked |
| `Renewals.RenewalRuns` | internal/model/model.go:1049-1059 | a renewal runs for its days from what is left of the period, or from now when nothing is |
| `Renewals.SameEndIsExact` | internal/model/model.go:970-977 | two ends are the same if and only if less than a second apart, or neither an end |
| `Renewals.IneligibleIsLeft` | internal/store/store.go:3499-3506 | a licence with updates for life, or not to be renewed, is left and nothing is recorded |
| `FeedGate.GateSafety` | internal/handler/admin.go:816-951 | in every run of gates, type changes, plan and cutoff writes and undone upgrades whose edits are current and whose returning cutoffs waited, a product that serves feeds with anything bounded is gated and every public link has expired |
| `FeedGate.StepKeeps` | internal/handler/admin.go:109-142 | every step keeps it, together with what the gate's instant says about links |
| `FeedGate.LateEditIsExact` | internal/handler/admin.go:868-951 | over a row of given type and gate, an edit that read another keeps every product safe if and only if it is `Current` |
| `FeedGate.LateEditIsUnsafe` | internal/handler/admin.go:816-838 | a run in which an edit that read a desktop product reopens feeds without the wait |
| `FeedGate.RevertIsExact` | internal/store/upgrades.go:196-213 | a cutoff written back by an undone upgrade leaves every product of a given row safe if and only if it serves no feeds, is refused for its open gate, has something bounded already, or no wait is running |
| `FeedGate.RevertIsUnsafe` | internal/store/upgrades.go:164-230 | a run with current edits in which a gate goes off and on between an upgrade and its refund, and the cutoff is back while a public link works |
| `FeedGate.RetryKeepsWaiting` | internal/handler/admin.go:918-946 | however often a type change refused for draining is retried, the gate's instant stays, and the first try after the wait succeeds |
| `FeedGate.BoundIsExact` | internal/store/release.go:80-108 | a period or cutoff is let through if and only if the product serves no feeds, or is gated and the recorded lifetime, this replica's own and a minute have passed since, or it never published |
| `FeedGate.EditIsExact` | internal/handler/admin.go:816-951 | an edit over the row it read: what is saved, when the gate's instant moves, what conflicts and what waits |
| `FeedGate.LinksAddUp` | internal/handler/admin.go:493-500 | each link works for its own life, and earlier ones for theirs |
| `FeedGate.Product.Update` | internal/handler/admin.go:886-951 | the transaction's statements leave the row, and answer, as `Edited` says, and a conflict leaves the row alone |
| `EventClaim.ClaimSafety` | internal/payment/stripe.go:386-490 | at most one delivery owns the event, at most one completion is recorded, and a reservation without a marker means exactly one of: done, a taker between its statements, one that died there |
| `EventClaim.StepKeeps` | internal/payment/stripe.go:419-490 | every transaction, statement and death keeps that |
| `EventClaim.LimitIsExact` | internal/payment/stripe.go:1434-1443 | deliveries exclude each other in every run if and only if none works longer than the stale age |
| `EventClaim.DoneAnswerIsExact` | internal/payment/stripe.go:454-460 | a delivery is told "done" of an event that is not if and only if the reservation is gone, a taker is between its statements, or one died there |
| `EventClaim.ToldDoneTooSoon` | internal/payment/stripe.go:294-384 | a run that answers "done" while nobody has handled, or handles, the event |
| `EventClaim.TakerDies` | internal/payment/stripe.go:466-473 | a run in which a taker dies between its two statements |
| `EventClaim.LostForGood` | internal/payment/stripe.go:466-473 | after that no run ever handles the event |
| `EventClaim.TakenUpAgain` | internal/payment/stripe.go:466-473 | otherwise an unhandled event that nobody owns is worked on by the next delivery after the stale age |
| `EventClaim.ReleasedIsRetaken` | internal/payment/stripe.go:475-490 | a delivery that failed gives its claim back at once: the next one works on the event |
| `EventClaim.CompletedIsSkipped` | internal/payment/stripe.go:371-384 | one that succeeded leaves it done, and every later one is told so |
| `EventClaim.TakeoverIsExact` | internal/store/store.go:2489-2502 | a marker is taken over if and only if it is more than ten minutes old |
| `EventClaim.LateTakerIsRefused` | internal/payment/stripe.go:470-473 | a marker there after all is left, and the taker sent away |
| `SubscriptionSync.Freshness` | internal/payment/stripe.go:1799-1865 | in every run the status a read or deletion left on the row is one Stripe had at a moment not before the newest stamp of a read or deletion written to it |
| `SubscriptionSync.UnstampedIsFresh` | internal/model/model.go:390-393 | with no write that moves the stamp alone, that stamp is the row's own |
| `SubscriptionSync.StampIsExact` | internal/payment/stripe.go:3072-3100 | after a write that moves the stamp alone the row's own stamp bounds its status, whatever Stripe's history, if and only if the stamp is no later than the moment the status was read at or the subscription had ended |
| `SubscriptionSync.StampOutrunsStatus` | internal/payment/stripe.go:3092-3092 | a run in which a cancel at the period's end leaves a stamp newer than any moment Stripe had the status |
| `SubscriptionSync.Finality` | internal/payment/stripe.go:2274-2287 | once a deletion or immediate cancel is written, no run of late reads, payloads, invoices or sweeps makes the licence usable |
| `SubscriptionSync.DeletionIsFinal` | internal/store/store.go:1168-1182 | the stamp written with a deletion shuts out every read that may have seen the subscription live |
| `SubscriptionSync.CancellationIsExact` | internal/store/store.go:1253-1286 | a cancellation is final if and only if the licence is held by an operator or no live read stamped no earlier is in flight |
| `SubscriptionSync.NewReadSettles` | internal/store/store.go:1037-1290 | a new read puts the licence on Stripe's current status, except in exactly four states of the licence's own, in which it moves at most the stamp, and that when the subscription is live and the read carries its terms |
| `SubscriptionSync.PayloadSettles` | internal/store/store.go:1245-1286 | what an event says without a read lands except in exactly four states of the licence's own, and leaves the stamp |
| `SubscriptionSync.InvoiceSettles` | internal/payment/stripe.go:1900-1935 | the same of a paid and of a failed invoice alone |
| `SubscriptionSync.DeletionSettles` | internal/store/store.go:1168-1182 | a deletion ends any licence but a revoked one, with the later of the two stamps |
| `SubscriptionSync.OthersSettle` | internal/store/admin.go:477-504 | expiry and suspension reach exactly the licences in use |
| `SubscriptionSync.StatusTable` | internal/payment/stripe.go:2018-2078 | the licence status each status of the subscription comes to, and which can be used |
| `SubscriptionSync.PastDueDate` | internal/store/store.go:1208-1213 | of every step: an episode that goes on keeps its date, one that begins is dated now, an active or canceled licence has none |
| `SubscriptionSync.EpisodeKeepsDate` | internal/payment/stripe.go:2026-2035 | all through an episode of non-payment its date is the instant it began |
| `SubscriptionSync.SuspendedByWhom` | internal/store/store.go:1214-1227 | who is on record as having suspended the licence, after every step |
| `SubscriptionSync.OperatorsWordStands` | internal/store/store.go:1240-1286 | no run of reads, payloads, invoices, deletions and sweeps undoes what an operator stopped |
| `SubscriptionSync.ToldOnce` | internal/payment/stripe.go:2139-2162 | folding the announcements of a run gives how the licence stands |
| `SubscriptionSync.AnnouncedExactly` | internal/model/model.go:497-512 | a landed write is announced if and only if it changes how the licence stands |
| `SubscriptionSync.UntoldIsExact` | internal/payment/stripe.go:2368-2397 | the announcements stay right if and only if a failed payment known from its payload lands on a licence in use |
| `SubscriptionSync.FailureUnpauses` | internal/payment/stripe.go:2369-2379 | a run in which such a payment ends a pause and nothing is announced |
| `SubscriptionSync.Licence.ApplySubscriptionState` | internal/payment/stripe.go:2013-2169 | when the write lands, the row it leaves and what it announces |
| `SubscriptionSync.Licence.End` | internal/payment/stripe.go:2244-2292 | a deletion always lands but on a revoked licence, moves the stamp up and never back, and is told unless the licence had ended |
| `BruteForce.SweepIsInvisible` | internal/middleware/bruteforce.go:121-147 | for every run with a monotone clock `IsBlocked` answers the same with sweeps anywhere as with none |
| `BruteForce.RunsAlike` | internal/middleware/bruteforce.go:48-147 | the bisimulation: records are equal, or one is forgotten and the other lapsed, or they differ in a lockout that is over |
| `BruteForce.StreakLocks` | internal/middleware/bruteforce.go:48-95 | in one window the maxFails-th failure locks out and none before does, for the length the earlier lockouts call for |
| `BruteForce.LockedOut` | internal/middleware/bruteforce.go:48-119 | after any history, an address that fails maxFails times in a new window is answered blocked, with what is left of its lockout, and not before or after |
| `BruteForce.StreakBlocks` | internal/middleware/bruteforce.go:105-119 | the same of one record |
| `BruteForce.LockoutDoubles` | internal/middleware/bruteforce.go:82-89 | the first lockout is the shortest, each further one twice the last, up to the longest |
| `BruteForce.LockedFailureIsFree` | internal/middleware/bruteforce.go:58-63 | a failure during a lockout changes nothing |
| `BruteForce.OthersDoNotMatter` | internal/middleware/bruteforce.go:48-119 | no address is answered by what another did |
| `BruteForce.SuccessClears` | internal/middleware/bruteforce.go:98-102 | a success forgets everything |
| `BruteForce.ForgottenIsExact` | internal/middleware/bruteforce.go:133-147 | which records a sweep forgets |
| `BruteForce.Protection.Duration` | internal/middleware/bruteforce.go:84-89 | the doubling loop yields lockout times a power of two, capped |
| `BruteForce.Protection.RecordFailure` | internal/middleware/bruteforce.go:48-95 | the whole table after a failure |
| `BruteForce.Protection.Sweep` | internal/middleware/bruteforce.go:133-147 | the deleting loop drops exactly the quiet records |
| `RateLimiter.CleanupIsInvisible` | internal/middleware/ratelimit.go:73-91 | cleanups anywhere never change an answer, for a key called with one window |
| `RateLimiter.ShortWindowsToo` | internal/middleware/ratelimit.go:82-90 | nor for keys called with any windows up to five minutes |
| `RateLimiter.SpanAdmitsAtMostTwice` | internal/middleware/ratelimit.go:51-71 | any closed span of one window length lets at most twice max(rate, 1) through, cleanups or not |
| `RateLimiter.WindowAdmitsRate` | internal/middleware/ratelimit.go:64-70 | and n calls in one window have exactly min(n, max(rate, 1)) let through |
| `RateLimiter.WindowReopens` | internal/middleware/ratelimit.go:64-67 | a window that has run its length reopens with the next call |
| `RateLimiter.WindowCounts` | internal/middleware/ratelimit.go:69-70 | inside it every call is counted, and let through while the count is below the rate |
| `RateLimiter.CleanedIsExact` | internal/middleware/ratelimit.go:82-90 | which windows a cleanup drops |
| `RateLimiter.Memory.Allow` | internal/middleware/ratelimit.go:51-71 | the answer and the whole table after a call |
| `RateLimiter.Memory.Cleanup` | internal/middleware/ratelimit.go:78-91 | the deleting loop drops exactly the closed windows |
| `Breaker.ProbesAreSpaced` | internal/breaker/breaker.go:31-61 | with every atomic a step of its own, probes with no report between are a cooldown apart by their own clocks |
| `Breaker.OneProbeIsExact` | internal/breaker/breaker.go:31-61 | in every run no value of `openUntil` lets two probes through between two reports if and only if the cooldown is positive |
| `Breaker.BothPass` | internal/breaker/breaker.go:41-43 | with a cooldown of zero or less a run lets two callers through on one value |
| `Breaker.ProbesAreFew` | internal/breaker/breaker.go:31-43 | so n of them span at least n - 1 cooldowns |
| `Breaker.AllowAlone` | internal/breaker/breaker.go:31-43 | an undisturbed caller is let through if and only if the breaker is closed or its clock has reached the deadline, and then it probes |
| `Breaker.SuccessAlone` | internal/breaker/breaker.go:46-53 | a success reported alone closes the breaker and clears the failures |
| `Breaker.FailureAlone` | internal/breaker/breaker.go:56-61 | a failure reported alone is counted, and the one that makes the count opens the breaker for a cooldown |
| `Idempotency.OneResult` | internal/middleware/idempotency.go:94-148 | over all interleavings of retries, panics, server errors and lost completions there is at most one result, and every replay is that result for the same body, provided rows are found |
| `Idempotency.VanishedRowIsExact` | internal/store/idempotency.go:54-92 | all runs from a request's SELECT on keep to one result if and only if the row was still there |
| `Idempotency.RowVanishes` | internal/store/idempotency.go:78-87 | a run in which a request goes on without a slot |
| `Idempotency.RetryReplays` | internal/middleware/idempotency.go:108-122 | once recorded, a result is given to every retry with its body and to no other |
| `Idempotency.ErrorRunsAgain` | internal/middleware/idempotency.go:132-146 | after a panic or server error the next request runs the handler |
| `Idempotency.RecordedIsExact` | internal/middleware/idempotency.go:132-146 | a result is recorded if and only if there was one, below 500; otherwise the slot is freed |
| `Idempotency.InFlightIsRefused` | internal/middleware/idempotency.go:117-121 | while the handler runs, or its completion was lost, others are sent away |
| `Idempotency.CompleteIsKept` | internal/store/idempotency.go:115-122 | a request without a slot that fails frees nobody's |
| `Idempotency.CutIsPrefix` | internal/store/idempotency.go:96-102 | what is kept of a body is its first 65536 bytes |
| `Idempotency.ReplayIsWhole` | internal/store/idempotency.go:96-111 | a replay equals the response if and only if it is at most 65536 bytes |
| `Idempotency.FirstStatusWins` | internal/middleware/idempotency.go:162-183 | the captured status is that of the first call to set one, 200 for a bare write |
| `Idempotency.CaptureWriter.WriteHeader` | internal/middleware/idempotency.go:162-167 | the captured response is the fold of all calls, this one included |
| `Idempotency.CaptureWriter.Write` | internal/middleware/idempotency.go:169-183 | the same for a body write |
| `PriceCache.NewestIsServed` | internal/handler/plans_public.go:167-221 | in every interleaving one lookup per price is in flight, and whoever is served gets the newest price Stripe returned for that id, or is told there is none |
| `PriceCache.FailureKeepsPrice` | internal/handler/plans_public.go:189-199 | a failed lookup changes no price and takes none away |
| `PriceCache.AnswerLasts` | internal/handler/plans_public.go:167-221 | a price is served for cacheTTL and a failure for retryTTL from when Stripe returned; the first caller after that looks it up again, and nobody before |
| `PriceCache.FirstLooksUp` | internal/handler/plans_public.go:167-181 | a price never asked for is looked up by the first who asks, and until it is in the others are told of none |
| `Features.LicenseFeatures` | internal/service/license_features.go:17-61 | list and index, updated in place, compute the left fold of add-ons over the plan |
| `Features.FeatureByFeature` | internal/service/license_features.go:44-58 | each feature of the fold has the plan's meter and plan id, the last add-on's value and period, and the last unit named |
| `Features.LastAddonDecides` | internal/service/license_features.go:39-58 | field by field: type, value and period are the last add-on's, the unit too when it names one, the meter and plan the plan's |
| `Features.MergeKeepsPlan` | internal/service/license_features.go:17-61 | one entry per feature, the plan's in their places with their meters |
| `PendingWalk.VisitedExactlyOnce` | internal/payment/stripe.go:1504-1539 | between two resets of the cursor every session that stays pending is looked at exactly once, whatever the backlog's size |
| `PendingWalk.Walker.SyncPendingCheckouts` | internal/payment/stripe.go:1504-1539 | a round ends, looks at fewer than its cap plus one page, in order, passes over nothing that stays, and resets the cursor only at the end of the backlog |
| `PendingWalk.PageIsNext` | internal/store/store.go:2461-2476 | a page is the next rows after the cursor, and empty only when there are none |

## Left out

- DowngradeSafety.NeverAboveBilled: three conditions on the environment, each with a run that shows it is needed and a theorem that says exactly when the step it speaks of may be taken. `Undisturbed`: what is billed has not moved so far that a downgrade being asked for is more than it, or lowers a limit the downgrade was not found to lower, or that an upgrade being made lowers it. `InOrder`: Stripe makes the changes asked of one subscription in turn, but for those that change nothing. `Uncrossed`: when a hold ends on a read, or is about to without its stamp, no read the row may still take is in flight with more than is billed. Edits made in the Stripe dashboard fall under the first. An attempt takes at most 66 s, a read is applied within 2 min of its stamp, and time is dense.
- FeedGate.GateSafety: two conditions, each with a run that shows it is needed and a theorem that says exactly when the step may be taken: product edits are current when they are written, and a cutoff that an undone upgrade writes back is not the first thing bounded while links drain. A transaction is one instant, so a link signed between the gate's stamp and its commit is not seen; operators' direct SQL, and lowering the recorded link lifetime while older links live, are not events.
- FeedGate.Product.Update: earlier refusals of the same request (the maintenance switch, incompatible plans or releases, the look for maintenance before the lock) change nothing and are not modelled.
- EventClaim.ClaimSafety: one event or session at a time; the extra "already fulfilled" look for sessions is not modelled.
- SubscriptionSync.Freshness: a status written from an event's payload has no stamp and is not claimed to be fresh.
- SubscriptionSync.Finality: an operator's reinstatement or unlinking is not an event; the licence's dates and the return of an upgraded licence to its free plan are not modelled, nor are the statuses incomplete and incomplete_expired.
- Renewals.NeverBought: one licence on a perpetual plan with a finite end and no admin edit in the run; grants for life and superseded renewals, and the tie between a session and its payment intent, are not modelled. With edits, only `NoDrift` and the two lemmas on refunds that never extend are claimed.
- RateLimiter.SpanAdmitsAtMostTwice: for windows longer than zero; the Redis script and the fallback to memory are not modelled.
- Breaker.ProbesAreSpaced: the failure counter does not wrap at 32 bits and clock readings not at 64, and how many failures open the breaker under concurrency is not claimed.
- Idempotency.OneResult: one key and endpoint within its 24 hours; hashes stand for bodies, and the HTTP writer under the capture is not modelled.
- PendingWalk.VisitedExactlyOnce: listings do not fail (a failed one starts the round again from its cursor); what is done with a session is left to the environment.
- Integers and durations are unbounded: overflow of 64-bit nanoseconds is not modelled.
- `announceTermsChanged`, past-due reminders and recovery mail, and other notices about a licence that keep its standing.
- `normalizeMaintenance`, `mergeTermsIn`, `itemIs`, `pendingIs`, `heldChangeInvoice` and `featureEnabled`: single decisions that would only add easy members.
- Stripe, SQL, HTTP, JSON, mail, cryptography and token formats: foreign calls and plumbing.
