# Taking boards: a verified model of the paid-takeover protocol

A board shows one message. Whoever outbids the live takeover by an increment takes the board over, for money or
in free play. A takeover is protected for a guaranteed time; a higher bid that arrives meanwhile waits as the one
authorized challenger and is captured only when it takes the board. Moderators remove takeovers, which restores the
previous one and refunds the removed one less the provider's fee. Every Sunday at 23:59 the boards start over.

The rules that matter are spread over many services, so they hold only as invariants over all of them together. This
project models every database transaction of the protocol as one atomic step, allows arbitrary sequences of steps
(events may be repeated, reordered and interleaved freely, and a refused transaction is rolled back), and proves what
every state of every run satisfies. Then it writes the services down the way the application has them, as methods that
update tables in place, and proves that each of them is exactly one of those steps.

## How it is laid out

| layer | modules |
|---|---|
| rows and transactions on values | `Base`, `Pricing`, `Rows`, `Takeovers`, `Books`, `Desk`, `Week`, `Risk`, `Intake`, `Protocol` |
| invariants and the proof that each transaction keeps them | `GameInvariant`, `GameSteps`, `Lineage`, `BooksInvariant`, `BooksSteps`, `DeskInvariant`, `DeskSteps`, `Safety`, `SafetySteps`, `EventSteps` |
| steps, runs and what holds along them | `Machine`, `Display`, `Tenure`, `Contest`, `History`, `Provenance`, `Census`, `Rollover`, `Totals`, `Guarantees` |
| what each operation leaves behind, said of the tables alone, and what that means along runs | `Reports`, `Events`, `Outcomes`, `Remedies`, `Retries` |
| where the code falls short, with exact conditions | `Disputes`, `Leases`, `Scenario` |
| the finalization queue and the incident gate | `Queue`, `Inbox`, `Sentry` |
| the services, updating tables in place | `GameStore`, `BookStore`, `DeskStore`, `Services`, `Workers` |

The whole state is `Protocol.World`: the game tables (boards, bids, takeovers, delivery evidence, report cases), the
books (accounts, capture snapshots, ledger, what the provider was asked to capture and what it has captured), the desk
(payment actions, removal notices, every request made to the payment and mail providers, and a log of which mail worker
claimed what and what it answered), and the intake (approvals, confirmations, entities, competition periods). `Safety.WorldInv` is the invariant of the whole; `Machine.IsRun` says
what a run is; `Services.System.Execute` connects the services to it. The rows below about
members of the stores and of `Services.System` state refinement: the method, written the way the service is, changes
the tables exactly as one transaction of the model does, and the row says which. What that transaction leaves behind is
said, in the fields of the tables, by `Events`, `Outcomes`, `Remedies` and `Retries`, and what it means along runs by the
modules before them.

`dafny verify dfyconfig.toml` checks everything.

## Modelling decisions

- Tables are map-valued fields keyed by primary key; one-to-one rows (takeover, evidence, case, action, snapshot) are
  keyed by their bid, and a notice by the case in its event key. A locked row is read, changed field by field and
  saved back.
- Foreign keys (`Rows.Linked`) are what the database enforces. Unique constraints are modelled as refusals, and proved
  never to fire where the services rely on that.
- Time is local wall-clock time in microseconds. Runs need not have increasing times.
- A payment intent carries the bid in its metadata, which never changes. The payment provider is honest: a capture is
  reported as successful exactly for the intent that was to be captured, and success events are about intents this
  code captured. Everything else it may answer freely.
- A refused transaction rolls back the provider effects made inside it as well.
- `WorldInv` requires a price increment of at least one cent; rules, risk limits and mail settings stay fixed along a
  run. The sums that feed a risk decision (recent spend, open exposure, recent failures) are free inputs of each
  checkout.

## Findings

- REFUNDED and DISPUTED are not ordered. A refund is paid out without looking at the bid's status, and a dispute
  overwrites whatever is there (`Disputes.LateExactlyWhen` says exactly when a step does either). A disputed bid can
  still end as a refunded one, so that its dispute no longer shows, if and only if its refund had been promised before
  the dispute, is not settled, and is not already known to come to nothing; it does not have to be with the provider
  yet (`Disputes.DisputeHiddenExactlyWhen`). A refunded bid can always be disputed later
  (`Disputes.RefundCanBeContested`). `Scenario.RefundAndDisputeAlternate` is a run of nine steps from a fresh deployment
  that goes through all of it. Every other status change is one way (`Guarantees.BidsOnlyMoveForward`).
- A queue message that names the pending challenger under another board's group is deleted although its bid still
  waits. `Queue.DeletedMeansNoLongerPending` shows that this is the only case, and no message the service itself sends
  is like that (`Inbox.EveryChallengerHasItsMessage`).
- A mail worker whose lease was reclaimed and whose own delivery fails late marks the notice failed while another
  worker is delivering it; the success is then not recorded and the notice is sent once more
  (`Leases.LateFailureLosesASuccess`, `Scenario.ADeliveryIsLost`). An answer is recorded if and only if nobody has
  answered about its notice since the latest claim (`Leases.AnswerRecordedExactlyWhen`,
  `Leases.SuccessLostExactlyWhen`); answers are lost only after a claim that was made more than a lease after an
  unanswered one (`Leases.LostAnswerNeedsReclaim`, `Leases.ReclaimWaitsOutTheLease`), which is also exactly when two
  workers hold one notice (`Leases.TwoWorkersExactlyAfterReclaim`). The copies carry the same content under the same
  key (`Leases.AttemptsCountSends`).

## Model

| member | source | states |
|---|---|---|
| `Guarantees.DeliveryOutlivesGuarantee` | apps/payments/services/evidence.py:13-42 | in every state of every run a recorded delivery end is never earlier than the guarantee of that takeover, through removals, restorations and replacements |
| `Guarantees.OneChallengerInOrder` | apps/payments/services/process_webhooks.py:72-138 | in every reachable state a board's challenger is the only authorized bid on it, beats the live amount by an increment and waits behind a guarantee; a board without a takeover is blank |
| `Guarantees.LiveTakeoverIsIntact` | apps/boards/services/publish_takeover.py:9-51 | in every reachable state a live board shows the amount, message and controller of its current takeover, which has not been removed |
| `Guarantees.RemovalRestoresNearest` | apps/moderation/services/report_cases.py:125-161 | in any run, removing the live takeover restores exactly its nearest non-removed ancestor with that takeover's own data, or a blank board if there is none, and frees the board; removing any other takeover changes no board and no bid |
| `Guarantees.ProviderRequestsAgree` | apps/moderation/services/payment_actions.py:23-139 | no two payment actions share an idempotency key; requests under one key ask for the same amount for the same bid; sends under one event key have the same content |
| `Guarantees.NoticeFollowsRefund` | apps/notifications/services/outbox.py:45-133 | the notice of a removed case waits exactly while its refund is unsettled, cannot be claimed until then, and carries the refund figures exactly when the refund succeeded |
| `Remedies.RemovalQueuesItsWork` | apps/moderation/services/report_cases.py:29-57 | removing an open case queues the refund, pending exactly if the takeover was won with a payment, and, when it is live, its challenger's release, pending exactly if that has a payment; it cancels the challenger and writes the one notice |
| `Remedies.BeginOutcome` | apps/moderation/services/payment_actions.py:27-88 | beginning a pending or failed action asks the provider once under its key, for the release or for gross less fee; a refund of unknown amount waits, one of nothing is closed and its notice freed |
| `Remedies.EndOutcome` | apps/moderation/services/payment_actions.py:106-139 | an answer leaves a failure to try again, a release, or a refund with its entry, its count and the figures in the notice |
| `Remedies.AttemptsCountCalls` | apps/moderation/services/payment_actions.py:50-88 | in every state of every run the attempts of an action equal the requests made for its bid, and nothing is requested for any other bid |
| `Remedies.NoticeTellsTheRemoval` | apps/notifications/services/outbox.py:79-102 | in every state of every run a notice names the board of its takeover, the moment of its removal, and its reference |
| `Guarantees.LedgerOfABid` | apps/payments/services/capture_records.py:126-163 | a bid is captured exactly when it has a capture entry; no bid has two entries of a kind; captures less refunds leave the amount or, after a refund, the fee, never less than zero |
| `Guarantees.AccountsAddUp` | apps/payments/services/capture_records.py:149-165 | counters of captured bids, spend and refunds equal the number and worth of the captured bids and the number of succeeded refund actions |
| `Guarantees.InputsAreUsedOnce` | apps/payments/services/create_checkout.py:98-148 | no two bids of a run share a message approval or a bid confirmation, and a paid bid never exceeds the global maximum |
| `Guarantees.CheckoutOpensExactlyWhen` | apps/payments/services/create_checkout.py:76-205 | a checkout opens if and only if neither switch pauses bidding, the offer is in whole dollars and beats by an increment both what the board shows and what waits once a due challenger has been settled, the account's own captures, age, disputes and exposure allow the amount, and entity, account, confirmation, approval and provider session permit it |
| `Outcomes.RefusedForTheFirstRequirement` | apps/payments/services/create_checkout.py:81-160 | a checkout on a settled board is refused for the first of its nine requirements that it does not fulfil, in the order of the service, and for nothing else; a low bid is told the price |
| `Outcomes.CheckoutOutcome` | apps/payments/services/create_checkout.py:98-205 | an opened checkout writes its bid, uses its approval and confirmation up, stores the account's tier and activates a period if none is active; it changes nothing else on a settled board |
| `Outcomes.FreePlayOutcome` | apps/bidding/services/create_bid.py:101-199 | a free-play bid is accepted if and only if neither switch pauses bidding, a named account that is not banned makes it, and it beats board and challenger after settlement; it then queues behind a guarantee or takes the board at once, and nothing else changes |
| `Outcomes.AuthorizationOutcome` | apps/payments/services/process_webhooks.py:72-138 | what becomes of an authorized bid, row by row: turned away, waiting with its message sent, published with its money recorded, or failed; and which authorizations are released |
| `Outcomes.ReleasesAreTheCanceled` | apps/payments/services/process_webhooks.py:98-111 | the authorizations that a committed authorization event asks the provider to release are, without repetition, exactly those of the bids it canceled |
| `Outcomes.SettlementOutcome` | apps/bidding/services/finalize_bid.py:29-92 | a settlement publishes an overdue challenger that pays, drops one that does not with the attempt counted, and otherwise does nothing at all |
| `Events.SettlementMoney` | apps/payments/services/capture_payment.py:17-44 | a settlement asks for the money of an overdue challenger once and records exactly what comes in; a report that cannot be recorded leaves only the capture itself |
| `Guarantees.BidsOnlyMoveForward` | apps/payments/services/process_webhooks.py:27-43 | along a run a bid keeps what it was created with, its status only moves forward, and it is published at most once |
| `Guarantees.RecordsAreWrittenOnce` | apps/payments/services/capture_records.py:55-112 | ledger entries, provider identifiers, fee data, delivery ends and delivered notices never change once written |
| `Reports.FeesAreAsHeard` | apps/payments/services/capture_records.py:55-112 | a snapshot becomes complete in a step only with the fee and net, and gets identifiers only as, that step heard them for its own intent |
| `Reports.FeesWereReported` | apps/payments/services/capture_records.py:103-112 | along any run a complete snapshot carries the fee and net that the provider reported for its intent in that run |
| `Events.RecordOutcome` | apps/payments/services/capture_records.py:115-166 | a report is recorded exactly if it pays for its bid in full and agrees with what is recorded; snapshot, entry and counters as written, or the whole record taken back when its charge cannot be stored |
| `Events.RecordingTwice` | apps/payments/services/capture_records.py:136-166 | a report that has been recorded is recorded again, however late, without any change |
| `Events.ChargeOutcome` | apps/payments/services/capture_records.py:55-112 | a charge fills what one snapshot lacks, exactly if its fee is not negative and no other snapshot has its identifiers |
| `Events.PaymentSuccessOutcome` | apps/payments/services/process_webhooks.py:203-209 | a reported success goes on record as any other report of its bid; one about an unknown bid is dropped |
| `Events.ChargeUpdateOutcome` | apps/payments/services/capture_records.py:169-181 | a charge update fills the snapshot of its intent, if there is one and the charge can be stored, and changes nothing else |
| `Events.ReconcileOutcome` | apps/payments/services/capture_records.py:207-220 | a reconciliation counts its attempt on an incomplete snapshot, whatever was answered, and stores the charge of a captured payment |
| `Events.PaymentEventOutcome` | apps/payments/services/process_webhooks.py:58-200 | completed checkouts, failed payments and canceled ones touch the bid they name and no other: intent, failure count, or end, and a canceled challenger stops waiting |
| `Events.PaymentEventTwice` | apps/payments/services/process_webhooks.py:58-200 | a completed checkout or a canceled payment that is told again changes nothing |
| `Events.ReportOutcome` | apps/moderation/services/reporting.py:35-87 | in order, a report is taken exactly for a won or free-play takeover whose case is not closed, and opens that case |
| `Events.DecisionOutcome` | apps/moderation/services/report_cases.py:88-123 | moderators decide a known case for a reason of 1 to 500 characters, once; deciding a closed case changes nothing |
| `Disputes.LateExactlyWhen` | apps/moderation/services/payment_actions.py:106-118 | exactly when a step changes whether a bid is refunded or disputed: it becomes refunded when the provider confirms its own refund, and disputed when an unreported dispute names one of its captures, whatever its status was |
| `Disputes.DisputeHiddenExactlyWhen` | apps/moderation/services/payment_actions.py:50-118 | in every reachable state, some continuation turns a disputed bid into a refunded one if and only if its refund is promised, unsettled, and not known to have no positive net amount |
| `Disputes.DisputeIsHidden` | apps/moderation/services/payment_actions.py:50-118 | from such a state at most three worker steps do it: the fee becomes known, the refund is claimed, the provider confirms |
| `Disputes.DisputeStandsAlong` | apps/moderation/services/payment_actions.py:50-118 | from any other state the bid stays disputed through every continuation, and never becomes hideable |
| `Disputes.RefundCanBeContested` | apps/payments/services/process_webhooks.py:218-250 | in every reachable state a refunded bid becomes disputed with the next new dispute of its payment |
| `Disputes.DisputeSuspends` | apps/payments/services/process_webhooks.py:218-250 | a new dispute makes its bid disputed and suspends the bidder with one more dispute and an open case, and writes one chargeback of what the provider reported, or of the bid's amount if it reported none; it is refused exactly if another bid carries it, and a repeated one changes nothing |
| `Disputes.DisputeEndsPaidBidding` | apps/bidding/services/risk.py:144-160 | after such a dispute no checkout of its bidder ever opens again in the run |
| `Disputes.SuspendedCannotCheckOut` | apps/bidding/services/risk.py:144-160 | no checkout of a suspended account opens, whatever it offers |
| `Reports.ChargebacksSuspend` | apps/payments/services/process_webhooks.py:238-250 | in every state of every run, whoever a chargeback was written against is suspended with an open dispute |
| `Reports.DisputesStayOpen` | apps/payments/services/process_webhooks.py:238-244 | an account under dispute stays so for the rest of the run |
| `Events.DisputeNamesOneBid` | apps/payments/services/process_webhooks.py:221-230 | in every reachable state a dispute is about one bid at most: that of its payment intent, else that of its charge |
| `Scenario.RefundAndDisputeAlternate` | apps/moderation/services/payment_actions.py:116-118 | a concrete run from a fresh deployment in which a bid is disputed, then refunded, then disputed again |
| `Leases.AnswerRecordedExactlyWhen` | apps/notifications/services/outbox.py:186-263 | in every run a worker's answer is recorded if and only if nobody has answered about its notice since the latest claim, and a notice is sent if and only if a recorded answer was a delivery |
| `Leases.SuccessLostExactlyWhen` | apps/notifications/services/outbox.py:239-263 | in every run a notice counts as sent if and only if some delivery of it was answered when nobody else had answered since the latest claim |
| `Leases.ReclaimWaitsOutTheLease` | apps/notifications/services/outbox.py:136-162 | a claim of a notice whose latest claim is unanswered comes more than a lease after that claim |
| `Leases.TwoWorkersExactlyAfterReclaim` | apps/notifications/services/outbox.py:136-162 | two workers hold one notice at some moment of a run if and only if such a claim is made in that run |
| `Leases.LostAnswerNeedsReclaim` | apps/notifications/services/outbox.py:194-237 | an answer goes unrecorded only after such a claim of its notice |
| `Leases.AttemptsCountSends` | apps/notifications/services/outbox.py:154-191 | in every state of every run the attempts of a notice equal the number of messages handed to the provider under its event key, and each of them carries the notice's own recipient and content |
| `Retries.NoticesShowTheirLog` | apps/notifications/services/outbox.py:136-263 | in every state of every run a notice shows what its last claim or recorded answer left: status, lease, time of delivery, and when it may be tried again |
| `Retries.FailuresWaitForRetry` | apps/notifications/services/outbox.py:179-237 | after a recorded failure a notice is claimed again only once the delay for its attempts has passed, and after a recorded delivery or suppression never |
| `Retries.ClaimTakesExactlyWhen` | apps/notifications/services/outbox.py:136-162 | a worker gets a notice exactly when it does not wait for a refund and is ready, or its lease has run out |
| `Leases.LateFailureLosesASuccess` | apps/notifications/services/outbox.py:191-253 | any notice that can be claimed has a continuation in which a late failure under a reclaimed lease makes a successful delivery count as failed and be sent again |
| `Scenario.ADeliveryIsLost` | apps/notifications/services/outbox.py:195-237 | a concrete run from a fresh deployment that loses a delivery in this way |
| `Reports.IdentifiersStayDistinct` | apps/payments/models.py:65-67 | in every state of every run each charge and each balance transaction belongs to one snapshot at most |
| `Tenure.TakeoverServesItsTime` | apps/bidding/services/finalize_bid.py:37-81 | in every run a takeover published at a time stays live until that time plus the guaranteed display, whatever authorizations, cancellations, settlements, disputes or checkouts happen, unless it is removed or reset |
| `Tenure.StepDebuts` | apps/boards/services/publish_takeover.py:20-51 | whichever step publishes a takeover leaves it live with its full guarantee ahead, even when the step publishes and challenges in one transaction |
| `Display.GuaranteeIsHonoured` | apps/bidding/services/finalize_bid.py:37-40 | along every run a live takeover keeps its display until its guarantee ends, whatever happens, unless it is removed or its week is reset |
| `Display.StepOnBoard` | apps/boards/services/publish_takeover.py:20-51 | a step that clears nothing keeps a board's display or, if nobody is protected, raises its price by an increment for each takeover |
| `Census.VersionCountsTakeovers` | apps/boards/services/publish_takeover.py:34-51 | until a board is cleared its version grows by exactly the number of takeovers published on it, and its price by at least as many increments |
| `Census.PaidTakeoversAreBounded` | apps/bidding/services/risk.py:85-98 | between clearings a board is taken over for money at most global maximum divided by increment times, at any moment and with free play in between |
| `Census.SettlementAsksExactlyWhen` | apps/bidding/services/finalize_bid.py:37-48 | a settlement asks the provider for money if and only if the board has a due, authorized challenger with an intent, and then for exactly that challenger's |
| `Census.BiddingPath` | apps/payments/services/process_webhooks.py:72-138 | every bidding step is a sequence of moves, each of which publishes at most one takeover, for more than the board showed, and asks for money only for the authorized challenger of a board |
| `Census.CapturesAreAskedOnce` | apps/payments/services/capture_payment.py:17-43 | along a run the money of a bid is asked for at most once and by an intent of its own, nothing is captured unasked, and every request ends with the bid published or with its payment failed |
| `Contest.WindowIsAnAuction` | apps/payments/services/process_webhooks.py:91-117 | inside one protected window pending challenger and price are exactly those of the contest: an ascending auction over the committed requests, brought back to the live price by each withdrawal of the leader, whatever else happens in between |
| `Contest.TheHighestOfferWaits` | apps/bidding/services/create_bid.py:131-175 | every request since the last withdrawal is below the leader plus an increment, and no such request exceeds the leader when all amounts lie on one grid |
| `Contest.LosersAreReleased` | apps/payments/services/process_webhooks.py:104-111 | whoever led the window and no longer does, outbid or withdrawn, ends with a canceled authorization |
| `Contest.ContestIsAuction` | apps/payments/services/process_webhooks.py:91-117 | since its last withdrawal a contest is an ascending auction from the lead that it found |
| `Contest.HighestOfferLeads` | apps/bidding/services/rules.py:37-49 | on a grid of whole increments the auction is won by a highest offer |
| `Contest.OrderDoesNotMatter` | apps/bidding/services/rules.py:37-49 | on a grid two orders of the same offers end at the same amount |
| `Contest.NobodyBeatsTheLead` | apps/bidding/services/rules.py:41-49 | the amount to beat never falls, and no considered request reaches the next price |
| `Provenance.MoneyMovesExactlyOnTakeover` | apps/bidding/services/finalize_bid.py:48-81 | in every state of every run a bid's payment has been captured if and only if the bid took its board over other than in free play, and then its delivery is on record |
| `Provenance.RestoredIsNewer` | apps/moderation/services/report_cases.py:60-85 | the walk back from a newer takeover never reaches one of the older ones it is kept apart from |
| `History.StepAges` | apps/payments/services/process_webhooks.py:253-278 | no step takes anything back: bids, takeovers, evidence, cases, snapshots, entries, settled actions, delivered notices, used inputs |
| `History.RunsAge` | apps/payments/services/process_webhooks.py:253-278 | the same between any two states of a run |
| `History.ContinuationAges` | apps/payments/services/process_webhooks.py:253-278 | the same for every continuation of a state that is in order |
| `Rollover.ResetIsAllOrNothing` | apps/boards/services/reset_boards.py:79-115 | a reset is refused exactly when a challenger cannot be released; otherwise every board of the competition is blank, no authorization is left on them, and everything else is unchanged |
| `Rollover.ResetBlanksAll` | apps/boards/services/reset_boards.py:79-115 | the loop over the boards blanks each of them once and releases exactly the authorizations on them |
| `Rollover.OnePeriodIsActive` | apps/boards/services/reset_boards.py:74-77 | after a rollover the period of the current window is the only active one of its competition and counts as reset now, with its own dates; other periods change in nothing else, those of other competitions in nothing |
| `Rollover.ResetOncePerWindow` | apps/boards/services/reset_boards.py:47-63 | in any run a window of a competition counts as reset, so that further resets are refused, if and only if an earlier reset of it took effect in that very window |
| `Rollover.SecondResetChangesNothing` | apps/boards/services/reset_boards.py:57-63 | a second reset in the same window changes nothing at all |
| `Rollover.ResetsAreFinal` | apps/boards/services/reset_boards.py:97-115 | after a reset that took effect no board of the competition ever again shows a takeover published before it, whatever is removed later |
| `Lineage.WalkFindsNearest` | apps/moderation/services/report_cases.py:60-85 | the walk returns a takeover if and only if it is the nearest non-removed ancestor, so the cycle guard and the missing-row exit never cut it short |
| `Lineage.NearestIsOlder` | apps/moderation/services/report_cases.py:60-85 | every ancestor is cheaper by an increment per link, on the same board, and its delivery had already ended |
| `Machine.RunsStayInOrder` | apps/payments/services/process_webhooks.py:253-278 | every state of every run satisfies the invariant of the whole system |
| `Machine.StepKeepsInv` | apps/payments/services/process_webhooks.py:253-278 | every step keeps that invariant, whether it commits or is rolled back |
| `EventSteps.AuthorizeKeepsInv` | apps/payments/services/process_webhooks.py:72-138 | an authorization always commits and keeps the system in order, unless the queue itself is down |
| `EventSteps.RemoveKeepsWorld` | apps/moderation/services/report_cases.py:107-184 | a removal never violates the one-action-per-bid constraint; it fails only for a missing case or reason |
| `EventSteps.EndKeepsWorld` | apps/moderation/services/payment_actions.py:106-139 | recording a provider answer always commits: the snapshot and amount it needs are there |
| `EventSteps.DisputeKeepsInv` | apps/payments/services/process_webhooks.py:218-250 | a dispute keeps the system in order; it changes anything only for a captured, published bid that took its board over, and then that bid alone becomes disputed |
| `EventSteps.CanceledKeepsInv` | apps/payments/services/process_webhooks.py:177-200 | a canceled payment keeps the system in order |
| `EventSteps.ResetKeepsWorld` | apps/boards/services/reset_boards.py:37-123 | a reset keeps the system in order |
| `SafetySteps.CheckoutKeepsInv` | apps/payments/services/create_checkout.py:40-210 | a checkout keeps the system in order, including the settlement it performs first |
| `SafetySteps.CreateBidKeepsInv` | apps/bidding/services/create_bid.py:101-199 | a free-play bid keeps the system in order |
| `GameSteps.FinalizeKeepsInv` | apps/bidding/services/finalize_bid.py:29-92 | settlement always commits, keeps the tables in order, and leaves no due challenger behind |
| `GameSteps.WinKeepsInv` | apps/bidding/services/finalize_bid.py:63-81 | winning an unprotected board hits neither the one-takeover-per-bid nor the one-record-per-confirmation constraint, and gives the winner its full guarantee |
| `GameSteps.ChallengeKeepsInv` | apps/payments/services/process_webhooks.py:104-117 | an accepted challenger becomes the only authorized bid of its board |
| `GameSteps.RemoveKeepsInv` | apps/moderation/services/report_cases.py:125-161 | a removal keeps every board in order |
| `BooksSteps.RecordKeepsInv` | apps/payments/services/capture_records.py:115-166 | recording a capture is safe under any repetition: the books stay in order and only grow |
| `BooksSteps.NewCaptureKeepsInv` | apps/payments/services/capture_records.py:136-163 | the first record of a captured payment always commits, with one snapshot, one entry of the bid's amount, and one count on the bidder's account and no other |
| `BooksSteps.UpdateKeepsInv` | apps/payments/services/capture_records.py:169-181 | a charge update touches no entry and no snapshot but that of its intent, and reports success exactly when it has completed that snapshot |
| `BooksSteps.RecordRefundKeepsInv` | apps/moderation/services/payment_actions.py:117-135 | a refund of the net amount leaves exactly the provider's fee of the bid |
| `DeskSteps.RemoveCaseKeepsDesk` | apps/moderation/services/report_cases.py:163-175 | a removal leaves case, actions and notice in agreement |
| `DeskSteps.RefundKeepsDesk` | apps/moderation/services/payment_actions.py:116-136 | a refund that succeeds moves action, bid, entry and notice together |
| `DeskSteps.ClaimKeepsDesk` | apps/notifications/services/outbox.py:136-162 | a claim sends exactly what the notice carries and counts it |
| `DeskSteps.FinishKeepsDesk` | apps/notifications/services/outbox.py:194-263 | a provider answer, late or not, keeps notices, actions and sends in agreement |
| `Totals.CountersMatchCaptures` | apps/payments/services/capture_records.py:149-163 | an account's success count and spend equal the number and worth of its captured bids |
| `Totals.RefundsMatchActions` | apps/moderation/services/payment_actions.py:132-134 | an account's refund count equals the number of its succeeded refund actions |
| `Week.IsoCalendarFollowsThursday` | apps/leaderboard/week_services.py:53-58 | the calendar's year-end corrections agree with section 4.1.4 of ISO 8601:2004: a week belongs to the year of its Thursday |
| `Week.WindowHoldsNow` | apps/leaderboard/week_services.py:40-52 | every instant lies in its window, which lasts seven days from one Sunday 23:59 to the next |
| `Week.WindowsTile` | apps/leaderboard/week_services.py:40-52 | an instant lies between two resets if and only if they bound its own window |
| `Week.NameIdentifiesWindow` | apps/leaderboard/week_services.py:40-59 | two instants share a window if and only if their windows carry the same ISO year and week, year ends included |
| `Risk.AllowedBidsStayWithinLimits` | apps/bidding/services/risk.py:63-180 | a bid is allowed exactly when account, switches and failures permit it and it stays, with recent spend and open exposure, within the limits for accounts with its own captures, age and disputes, and within the global ones |
| `Risk.RefusedForTheFirstReason` | apps/bidding/services/risk.py:144-180 | a refused bid is told the first rule it breaks, in the order of the service |
| `Risk.TierTellsTheRecord` | apps/bidding/services/risk.py:63-82 | the stored tier says exactly whether a case is open, whether there was a dispute, and how many captures and days the account has |
| `Pricing.ClearsPriceIffBeatsBoth` | apps/bidding/services/rules.py:37-49 | an amount clears the price exactly when it beats both the live amount and the challenger by an increment |
| `Pricing.CentsAreExact` | apps/bidding/services/create_bid.py:35-38 | whole dollars convert exactly, and an amount converts if and only if it is whole |
| `Queue.Consumer.ConsumeOnce` | apps/bidding/services/finalization_queue.py:187-248 | the consumer's tables and message outcome are those of one handled message, error paths included |
| `Queue.Consumer.DeferActiveGuarantee` | apps/bidding/services/finalization_queue.py:156-177 | a message is deferred exactly for an authorized pending challenger of its own board behind a running guarantee |
| `Queue.OnlySettlesItsOwnBid` | apps/bidding/services/finalization_queue.py:145-153 | a message changes anything only if its bid is the due challenger of its board, and then no other board |
| `Queue.DeletedMeansNoLongerPending` | apps/bidding/services/finalization_queue.py:145-248 | when a message is deleted its bid is still pending if and only if it was pending and the message named another board's group |
| `Queue.ForeignGroupDropsTheMessage` | apps/bidding/services/finalization_queue.py:145-147 | a pending challenger named under any group but its own board's, another board's included, loses its message and nothing else changes |
| `Queue.RedeliveryChangesNothing` | apps/bidding/services/finalization_queue.py:245-248 | delivering a deleted message again changes nothing after any run in between, if its bid had been decided on by the first delivery or it named another board's group |
| `Queue.DeferralWakesOnTime` | apps/bidding/services/finalization_queue.py:165-175 | a deferred message wakes no earlier than the guarantee ends and less than a second after, exactly when the wait fits into 43200 seconds |
| `Queue.FailuresAreRetried` | apps/bidding/services/finalization_queue.py:227-243 | a message whose handling fails changes nothing and stays: hidden for its retry delay, or left for the dead-letter rule from the last receive on |
| `Queue.DeferredExactlyWhen` | apps/bidding/services/finalization_queue.py:156-177 | a message is hidden until its guarantee ends exactly when its authorized bid waits on its own board behind one |
| `Queue.NonsenseIsDropped` | apps/bidding/services/finalization_queue.py:203-215 | a malformed message or one about an unknown bid is deleted if it can be, and changes nothing |
| `Queue.RetriesBackOff` | apps/bidding/services/finalization_queue.py:227-241 | retry delays start at the configured delay, double until 900 seconds and never exceed that |
| `Queue.EmailRetriesBackOff` | apps/notifications/services/outbox.py:179-183 | email retry delays start at their base, double until their maximum and never exceed it |
| `Inbox.EveryChallengerHasItsMessage` | apps/bidding/services/finalization_queue.py:101-126 | in every run with deliveries interleaved, every paid challenger that waits has a message under its own board's group in the queue, and every message is about an authorized bid of that board |
| `Inbox.MessageSentExactlyWhenLeftWaiting` | apps/payments/services/process_webhooks.py:113-126 | an authorization sends one message, under its bid's own board, if and only if it leaves the bid waiting |
| `Sentry.AdmittedExactlyWhen` | apps/core/sentry.py:46-74 | in any trace in time order a report is admitted if and only if none like it was in the six hours before and fewer than three critical ones, or no unhandled one, were admitted in its clock hour so far; no cache entry, slot or expiry is left in the statement |
| `Sentry.CompetesExactlyWhen` | apps/core/sentry.py:122-139 | exactly which events compete at all: known critical incidents, and exceptions under the type that was raised or as unknown |
| `Sentry.HourlyBudgetHolds` | apps/core/sentry.py:53-72 | in any trace at most three critical and one unhandled report are admitted per clock hour |
| `Sentry.RepeatsAreSpacedOut` | apps/core/sentry.py:53-61 | two admitted reports of one source and signature are at least six hours apart |
| `Sentry.DenialLeavesNoSuppression` | apps/core/sentry.py:71-74 | a report denied by the budget leaves no suppression behind and touches no other entry |
| `Sentry.AdmittedIffNewAndAffordable` | apps/core/sentry.py:53-74 | a report is admitted exactly when nothing like it is remembered and a slot of the hour is free |
| `Sentry.Gate.ReserveSlot` | apps/core/sentry.py:53-78 | the loop over the cache reserves the first free slot or takes its own suppression back |
| `Sentry.BeforeSend` | apps/core/sentry.py:122-144 | only known critical incidents and unhandled exceptions compete for a slot; anything else leaves the cache alone |
| `GameStore.GameTables.RecordDeliveryEnd` | apps/payments/services/evidence.py:40-42 | refines `Takeovers.RecordDeliveryEnd`: the first recorded end stays, and no other row is touched |
| `GameStore.GameTables.RecordPurchaseEvidence` | apps/payments/services/evidence.py:13-37 | refines `Takeovers.RecordPurchaseEvidence`: one record per bid, and the refusal when a confirmation already backs another |
| `GameStore.GameTables.PublishTakeover` | apps/boards/services/publish_takeover.py:9-51 | refines `Takeovers.PublishTakeover`: row by row, the delivery that ends, the takeover that links back, and the board handed over |
| `GameStore.GameTables.FinalizeLockedPendingBid` | apps/bidding/services/finalize_bid.py:29-92 | refines `Takeovers.FinalizeLocked` in each of its five outcomes, of which `GameSteps.FinalizeKeepsInv` says what they mean |
| `GameStore.GameTables.BecomeChallenger` | apps/payments/services/process_webhooks.py:104-117 | refines `Takeovers.Challenge`, and returns exactly the bid whose authorization it replaced, if any |
| `GameStore.GameTables.DropCanceledPayment` | apps/payments/services/process_webhooks.py:177-200 | refines `Takeovers.CancelPayment`: a settled bid is left alone, any other loses its challenge |
| `GameStore.GameTables.CountFailedPayment` | apps/payments/services/process_webhooks.py:153-174 | refines `Takeovers.FailPayment`: only an open checkout counts the attempt, and stays open |
| `GameStore.GameTables.SubmitReport` | apps/moderation/services/reporting.py:35-87 | refines `Takeovers.SubmitReport`, refusals included: a published takeover gets one case, a closed case takes no more reports |
| `GameStore.GameTables.ApproveCase` | apps/moderation/services/report_cases.py:88-104 | refines `Takeovers.ApproveCase` and reports whether the case was open |
| `GameStore.GameTables.PriorNonRemovedTakeover` | apps/moderation/services/report_cases.py:60-85 | the loop with its visited set returns exactly the nearest non-removed ancestor |
| `GameStore.GameTables.RestorePrior` | apps/moderation/services/report_cases.py:125-161 | with the case closed, refines `Takeovers.RemoveTakeover`, and reports whether an ancestor was found |
| `GameStore.GameTables.ResetBoards` | apps/boards/services/reset_boards.py:79-115 | the loop over the locked boards refines `Takeovers.ResetBoards`, which `Rollover.ResetIsAllOrNothing` characterises |
| `BookStore.BookTables.ApplyChargeDetails` | apps/payments/services/capture_records.py:55-112 | refines `Books.SaveCharge`, whose outcome `Events.ChargeOutcome` states, although it saves identifiers and fee data field by field and leaves early |
| `BookStore.BookTables.RecordCaptureFromPaymentIntent` | apps/payments/services/capture_records.py:115-166 | refines `Books.RecordCapture`, whose outcome `Events.RecordOutcome` states: a matching success is recorded once, every mismatch leaves the books as they were |
| `BookStore.BookTables.UpdateCaptureFromCharge` | apps/payments/services/capture_records.py:169-181 | refines `Books.UpdateFromCharge`, of which `BooksSteps.UpdateKeepsInv` says what it touches |
| `BookStore.BookTables.ReconcilePendingCaptureFees` | apps/payments/services/capture_records.py:184-221 | every listed snapshot up to the first whose answer cannot be stored counts its attempt and has what the provider told, no other row changes, and the result counts exactly the snapshots completed |
| `BookStore.BookTables.BackfillMissingCaptureRecords` | apps/payments/services/capture_records.py:224-251 | every listed bid up to the first whose answer cannot be stored has a snapshot exactly if the answer pays for it, with what the answer told; no other snapshot changes, and the result counts exactly those created |
| `DeskStore.DeskTables.Enqueue` | apps/notifications/services/outbox.py:45-76 | refines `Desk.EnqueueNotice`: one notice per case, and the release of an undelivered waiting one |
| `DeskStore.DeskTables.AttachRefundToRemovalNotice` | apps/notifications/services/outbox.py:105-133 | refines `Desk.AttachRefund`: an undelivered notice is completed, a delivered one is left alone |
| `DeskStore.DeskTables.PaymentActionForBid` | apps/moderation/services/report_cases.py:29-57 | refines `Desk.PaymentActionFor`, the refusal of a second case for one bid included; what a removal queues is stated by `Remedies.RemovalQueuesItsWork` |
| `DeskStore.DeskTables.ClaimAction` | apps/moderation/services/payment_actions.py:50-88 | refines `Desk.BeginAction`: the action, the request logged, and the notice released when nothing is left to refund |
| `DeskStore.DeskTables.Claim` | apps/notifications/services/outbox.py:136-162 | refines `Desk.ClaimNotice`, and returns exactly the message to hand to the provider |
| `DeskStore.DeskTables.Finish` | apps/notifications/services/outbox.py:191-263 | refines `Desk.FinishNotice`: the answer enters the notice only while that is being processed, and is logged either way |
| `Services.System.CapturePayment` | apps/payments/services/capture_payment.py:17-44 | a provider success counts as captured even if recording it fails |
| `Services.System.FinalizeDueBoard` | apps/bidding/services/finalize_bid.py:95-113 | leaves a board alone that shows another challenger than expected |
| `Services.System.CreateCheckout` | apps/payments/services/create_checkout.py:40-210 | refines `Protocol.CreateCheckout`, rolled back as a whole on any refusal |
| `Services.System.RequireInputs` | apps/payments/services/create_checkout.py:92-138 | player, age, confirmation, risk and approval are refused in the service's order, each with its own reason |
| `Services.System.AuthenticatedPlayer` | apps/bidding/services/create_bid.py:76-91 | only known, unbanned, named accounts play |
| `Services.System.CreateBid` | apps/bidding/services/create_bid.py:101-199 | refines `Protocol.CreateBid`, rolled back as a whole on any refusal |
| `Services.System.HandleCheckoutCompleted` | apps/payments/services/process_webhooks.py:58-69 | refines `Protocol.CheckoutCompletedEvent`: an unknown bid or missing intent changes nothing |
| `Services.System.AuthorizeBid` | apps/payments/services/process_webhooks.py:72-138 | refines `Protocol.AuthorizeBid`: a due challenger is settled first, then the newcomer competes |
| `Services.System.HandleAuthorization` | apps/payments/services/process_webhooks.py:141-150 | refines `Protocol.AuthorizationEvent`, whose outcome `Outcomes.AuthorizationOutcome` and `Outcomes.ReleasesAreTheCanceled` state: the bids to release and the message sent, or rolled back |
| `Services.System.FindDisputed` | apps/payments/services/process_webhooks.py:221-230 | finds the disputed capture by payment intent, else by charge, and nothing only if neither is known |
| `Services.System.HandleDisputeCreated` | apps/payments/services/process_webhooks.py:218-250 | refines `Protocol.DisputeEvent`, whose effect `Disputes.DisputeSuspends` and `Disputes.LateExactlyWhen` state, including a repeated dispute and one that another bid carries |
| `Services.System.RemoveCase` | apps/moderation/services/report_cases.py:107-184 | refines `Protocol.RemoveCaseStep`: restoration, payment actions and notice together or not at all |
| `Services.System.EndPaymentAction` | apps/moderation/services/payment_actions.py:106-139 | refines `Desk.EndAction`: status, refund entry, counter and notice together or not at all |
| `Services.System.ResetBoards` | apps/boards/services/reset_boards.py:37-123 | refines `Protocol.ResetStep`: all boards of the competition or none, once per window |
| `Services.System.Execute` | apps/payments/services/process_webhooks.py:253-278 | whatever is asked of the services, the tables move by exactly one step of the state machine |
| `Services.System.Process` | apps/payments/services/process_webhooks.py:253-278 | services that find the system in order leave it in order |
| `Workers.FinalizeDueBoards` | apps/bidding/services/finalize_bid.py:116-142 | in a polling pass each listed board with an overdue challenger is taken over by it if the provider has its money and freed of it otherwise; no other board changes, none stays due, and the results name every overdue challenger and whether it was published |
| `Workers.ProcessPaymentAction` | apps/moderation/services/payment_actions.py:50-139 | asks the provider exactly when there is a release or a positive refund to ask for, once and for that; the tables move by the two steps of the action, and the result says whether it has succeeded |
| `Workers.DeliverNotice` | apps/notifications/services/outbox.py:186-271 | sends a notice exactly when it can be claimed, leaves it as the provider answered, and touches nothing else |

## Left out

- Views, forms, templates, scripts, the admin site, migrations, settings, logging, activity and audit rows, analytics and
  social cards: plumbing around the protocol.
- The provider, queue, identity, moderation-model and mail clients: their answers are parameters of the steps.
- Aliasing between in-memory row objects and the database: rows are values, so a stale object saved over a newer row
  with `update_fields` is not representable. Row locks are modelled by the atomicity of a step.
- Provider effects that survive a rolled-back transaction: an effect and its commit are one step.
- Legacy rows, operator edits to rows, rules or limits, and row deletion.
- Message text checks, hashing and the classifier cache: an approval is matched by its message.
- Registration, demo profiles and favourite entities: an offer names an existing account; `create_bid` without a
  profile differs only in how it finds the player.
- Report rows per reporter, report categories and rate limits: `SubmitReport` models the case a report opens.
- The event table: `process_stripe_event` applies an event once, the model lets every event be applied any number of
  times.
- The period and entity stored with a bid or takeover, weekly statistics and public standings: read-only aggregates
  beside the protocol.
- `weekly_reset_schedule`: a display value; a reset marks the period it starts, so a late reset is not always shown.
- Risk.AllowedBidsStayWithinLimits: the sums behind a decision (recent spend, open exposure, recent failures) are
  inputs of each checkout, and they are read when it opens; that several checkouts open at once stay within a limit
  together is not claimed, and the service does not promise it.
- The failure threshold and the scrubbing of reports, a cache that fails midway, and eviction before expiry: the
  gate's cache keeps its entries until they expire.
- Selection of due rows by the worker queries (limits, ordering, the thirty-second pause between fee lookups): the
  passes take the selected rows as an argument.
- Time zones and daylight saving: local wall-clock time is used directly.
- Contest.WindowIsAnAuction: free-play offers below the price are refused and rolled back, so they are not among the
  committed requests.
- Inbox.EveryChallengerHasItsMessage: covers the queue mode of finalization; moving a message to a dead-letter queue
  after the last retry is outside the model, and a delivery is one atomic step.
