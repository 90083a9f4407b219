// Steps, runs, and the theorem that every state of every run is in order.
module Machine {
  import opened Base
  import opened Pricing
  import opened Rows
  import opened Takeovers
  import opened GameInvariant
  import opened Books
  import opened BooksInvariant
  import opened Desk
  import opened DeskInvariant
  import opened Intake
  import opened Risk
  import opened Protocol
  import opened Safety
  import opened SafetySteps
  import opened EventSteps
  import DeskSteps

  datatype Step =
    | GrantApproval(id: nat, approval: Approval)
    | ShowConfirmation(id: nat, confirmation: Confirmation)
    | Checkout(bid: BidId, offer: Offer, session: Session, due: CaptureReply)
    | FreePlay(bid: BidId, offer: Offer)
    | CheckoutCompleted(event: EventObject)
    | Authorization(event: EventObject, due: CaptureReply, own: CaptureReply, queueUp: bool)
    | PaymentFailure(event: EventObject)
    | PaymentCancellation(event: EventObject)
    | PaymentSuccess(of: Option<BidId>, pi: PaymentIntent)
    | ChargeUpdate(intent: Option<IntentId>, charge: Charge)
    | DisputeOpened(dispute: Dispute, found: Option<BidId>)
    | FinalizeDue(board: BoardId, expected: Option<BidId>, mode: Option<CaptureReply>)
    | Report(about: BidId)
    | Approve(about: BidId, reason: string)
    | Remove(about: BidId, reason: string)
    | BeginPayment(about: BidId)
    | EndPayment(about: BidId, answer: Option<string>)
    | ClaimMail(about: BidId)
    | FinishMail(claim: nat, delivery: Delivery)
    | Reset(competition: CompetitionId, ids: seq<BoardId>, releases: Releases)
    | Reconcile(about: BidId, reply: Option<PaymentIntent>)

  /**
   Arguments refer to existing rows, the payment provider tells the truth about what it captured, and a mail worker
   answers for a claim of its own, once.
   */
  ghost predicate Enabled(w: World, step: Step) {
    && Linked(w.game)
    && match step {
      case GrantApproval(id, a) => id !in w.intake.approvals && a.consumedAt.None?
      case ShowConfirmation(id, c) => id !in w.intake.confirmations && c.consumedAt.None?
      case Checkout(id, o, x, due) =>
        && o.board in w.game.boards && id !in w.game.bids && HonestFor(w.game, o.board, due)
        && (x.intent.Some? ==> x.intent.value.owner == id)
      case FreePlay(id, o) => o.board in w.game.boards && id !in w.game.bids
      case CheckoutCompleted(e) => HonestEvent(e)
      case Authorization(e, due, own, _) =>
        && HonestEvent(e)
        && (KnownBid(w.game, e) ==>
              && w.game.bids[e.bid.value].board in w.game.boards
              && HonestFor(w.game, w.game.bids[e.bid.value].board, due))
        && (own.Captured? ==> own.pi.succeeded && own.pi.id == e.intent)
      case PaymentFailure(e) => HonestEvent(e)
      case PaymentCancellation(e) => HonestEvent(e)
      case PaymentSuccess(bid, pi) =>
        bid.Some? && pi.succeeded && pi.id.Some? ==> pi.id.value.owner == bid.value && pi.id.value in w.books.collected
      case ChargeUpdate(_, _) => true
      case DisputeOpened(d, found) => FindsDisputed(w.books, d, found)
      case FinalizeDue(b, _, mode) => b in w.game.boards && (mode.Some? ==> HonestFor(w.game, b, mode.value))
      case Report(_) => true
      case Approve(_, _) => true
      case Remove(_, _) => true
      case BeginPayment(p) => p in w.desk.actions && p in w.game.bids && w.desk.actions[p].caseOf in w.game.cases
      case EndPayment(p, _) => p in w.desk.actions && p in w.game.bids && w.desk.actions[p].caseOf in w.game.cases
      case ClaimMail(c) => c in w.desk.notices
      case FinishMail(claim, _) => Outstanding(w.desk, claim) && w.desk.sends[claim].eventKey in w.desk.notices
      case Reset(competition, ids, _) => BoardsOf(w.game, competition, ids)
      case Reconcile(p, _) => p in w.books.captures
    }
  }

  /** What one transaction does when it is not rolled back. */
  ghost function Attempt(s: Settings, w: World, step: Step, now: Time): Tx<World>
    requires Enabled(w, step)
  {
    match step
    case GrantApproval(id, a) => Commit(w.(intake := w.intake.(approvals := w.intake.approvals[id := a])))
    case ShowConfirmation(id, c) => Commit(w.(intake := w.intake.(confirmations := w.intake.confirmations[id := c])))
    case Checkout(id, o, x, due) => CreateCheckout(w, id, o, x, s, now, due)
    case FreePlay(id, o) => var r :- CreateBid(w, id, o, s.rules, now); Commit(r.0)
    case CheckoutCompleted(e) => Commit(CheckoutCompletedEvent(w, e))
    case Authorization(e, due, own, queueUp) => var r :- AuthorizationEvent(w, e, s.rules, now, due, own, queueUp); Commit(r.0)
    case PaymentFailure(e) => Commit(PaymentFailedEvent(w, e, now))
    case PaymentCancellation(e) => Commit(PaymentCanceledEvent(w, e, now))
    case PaymentSuccess(bid, pi) => RecordEvent(w, bid, pi, now)
    case ChargeUpdate(intent, charge) => var r :- UpdateFromCharge(w.books, intent, charge, now); Commit(w.(books := r.0))
    case DisputeOpened(d, found) => DisputeEvent(w, d, found, now)
    case FinalizeDue(b, expected, mode) => var r :- FinalizeDueBoard(w, b, expected, s.rules, now, mode); Commit(r.0)
    case Report(p) => var g :- SubmitReport(w.game, p); Commit(w.(game := g))
    case Approve(p, reason) => ApproveCaseStep(w, p, reason, now)
    case Remove(p, reason) => RemoveCaseStep(w, p, reason, now)
    case BeginPayment(p) => Commit(w.(desk := BeginAction(w.game, w.books, w.desk, p, now)))
    case EndPayment(p, answer) =>
      var r :- EndAction(w.game, w.books, w.desk, p, answer, now);
      Commit(w.(game := r.0, books := r.1, desk := r.2))
    case ClaimMail(c) => Commit(w.(desk := ClaimNotice(w.desk, c, s.mail, now)))
    case FinishMail(claim, delivery) => Commit(w.(desk := FinishNotice(w.desk, claim, s.mail, delivery, now)))
    case Reset(competition, ids, releases) => var r :- ResetStep(w, competition, ids, releases, now); Commit(r.0)
    case Reconcile(p, reply) => var r :- ReconcileRow(w.books, p, reply, now); Commit(w.(books := r.0))
  }

  /** A refused transaction is rolled back. */
  ghost function Apply(s: Settings, w: World, step: Step, now: Time): World
    requires Enabled(w, step)
  {
    var r := Attempt(s, w, step, now);
    if r.Commit? then r.value else w
  }

  lemma FinalizeDueKeepsInv(s: Settings, w: World, b: BoardId, expected: Option<BidId>, mode: Option<CaptureReply>, now: Time)
    requires WorldInv(s, w) && b in w.game.boards && (mode.Some? ==> HonestFor(w.game, b, mode.value))
    ensures var r := FinalizeDueBoard(w, b, expected, s.rules, now, mode); r.Commit? && WorldInv(s, r.value.0)
  {
    if mode.Some? {
      assert WaitsBehind(w.game, b);
      SettlePaidKeepsCore(s, w, b, now, mode.value);
      SettlePaidBoards(s, w, b, now, mode.value);
    } else {
      FreeSettleKeepsInv(s, w, b, now);
    }
  }

  lemma GrantKeepsInv(s: Settings, w: World, intake: Intake)
    requires WorldInv(s, w)
    requires w.intake.approvals.Keys <= intake.approvals.Keys && w.intake.confirmations.Keys <= intake.confirmations.Keys
    requires forall a | a in w.intake.approvals :: intake.approvals[a] == w.intake.approvals[a]
    requires forall c | c in w.intake.confirmations :: intake.confirmations[c] == w.intake.confirmations[c]
    requires intake.periods == w.intake.periods
    ensures WorldInv(s, w.(intake := intake))
  {
    ConsumingKeepsCore(s, w, w.(intake := intake));
  }

  lemma CommitKeepsInv(s: Settings, w: World, step: Step, now: Time)
    requires WorldInv(s, w) && Enabled(w, step)
    requires !step.Authorization? && !step.EndPayment? && !step.Reset?
    ensures Attempt(s, w, step, now).Commit? ==> WorldInv(s, Attempt(s, w, step, now).value)
  {
    match step
    case GrantApproval(id, a) => GrantKeepsInv(s, w, w.intake.(approvals := w.intake.approvals[id := a]));
    case ShowConfirmation(id, c) => GrantKeepsInv(s, w, w.intake.(confirmations := w.intake.confirmations[id := c]));
    case Checkout(id, o, x, due) => CheckoutKeepsInv(s, w, id, o, x, now, due);
    case FreePlay(id, o) => CreateBidKeepsInv(s, w, id, o, now);
    case CheckoutCompleted(e) => CompletedKeepsInv(s, w, e);
    case PaymentFailure(e) => FailedKeepsInv(s, w, e, now);
    case PaymentCancellation(e) => CanceledKeepsInv(s, w, e, now);
    case PaymentSuccess(bid, pi) => RecordEventKeepsInv(s, w, bid, pi, now);
    case ChargeUpdate(intent, charge) => ChargeKeepsInv(s, w, intent, charge, now);
    case DisputeOpened(d, found) => DisputeKeepsInv(s, w, d, found, now);
    case FinalizeDue(b, expected, mode) => FinalizeDueKeepsInv(s, w, b, expected, mode, now);
    case Report(p) => ReportKeepsInv(s, w, p);
    case Approve(p, reason) => ApproveKeepsInv(s, w, p, reason, now);
    case Remove(p, reason) => RemoveKeepsWorld(s, w, p, reason, now);
    case BeginPayment(p) => BeginKeepsWorld(s, w, p, now);
    case ClaimMail(c) => DeskSteps.ClaimKeepsDesk(w.game, w.books, w.desk, c, s.mail, now);
    case FinishMail(claim, delivery) => DeskSteps.FinishKeepsDesk(w.game, w.books, w.desk, claim, s.mail, delivery, now);
    case Reconcile(p, reply) => ReconcileKeepsWorld(s, w, p, reply, now);
  }

  /** Every step, committed or rolled back, keeps the system in order. */
  lemma StepKeepsInv(s: Settings, w: World, step: Step, now: Time)
    requires WorldInv(s, w) && Enabled(w, step)
    ensures WorldInv(s, Apply(s, w, step, now))
  {
    match step
    case Authorization(e, due, own, queueUp) =>
      if KnownBid(w.game, e) && e.intent.Some? {
        AuthorizeKeepsInv(s, w, e.bid.value, e.intent.value, now, due, own, queueUp);
      }
    case EndPayment(p, answer) => EndKeepsWorld(s, w, p, answer, now);
    case Reset(competition, ids, releases) => ResetKeepsWorld(s, w, competition, ids, releases, now);
    case _ => CommitKeepsInv(s, w, step, now);
  }

  // ----- runs -----

  /** A fresh deployment: blank boards, no bids, no money moved. */
  ghost predicate Initial(s: Settings, w: World) {
    && s.rules.increment > 0
    && (forall b {:trigger w.game.boards[b]} | b in w.game.boards ::
          var board := w.game.boards[b];
          && board.current.None? && board.controller.None? && board.amount == 0 && board.message == DEFAULT_MESSAGE
          && board.pending.None? && board.guaranteedUntil.None?)
    && w.game.bids == map[] && w.game.takeovers == map[] && w.game.evidence == map[] && w.game.cases == map[]
    && w.game.contacts.Keys == w.books.accounts.Keys
    && (forall u {:trigger w.books.accounts[u]} | u in w.books.accounts ::
          var a := w.books.accounts[u]; a.spend == 0 && a.successes == 0 && a.refunds == 0)
    && w.books.captures == map[] && w.books.ledger == [] && w.books.collected == {} && w.books.requests == []
    && w.desk == Desk(map[], map[], [], [], [])
    && w.intake.periods == map[]
  }

  lemma InitialIsInOrder(s: Settings, w: World)
    requires Initial(s, w)
    ensures WorldInv(s, w)
  {
    var b := w.books;
    forall u | u in b.accounts ensures AccountOk(b, u) { assert b.accounts[u].spend == 0; }
    forall bid: BidId ensures KeptOk(b, bid) {}
    forall id: BidId ensures RefundBacked(b, w.desk, id) {}
    forall id | id in w.game.boards ensures BoardLinked(w.game, id) && BoardOk(s.rules.increment, w.game, id) && WaitsBehind(w.game, id) {
      assert w.game.boards[id].pending.None?;
    }
  }

  datatype Moment = Moment(step: Step, at: Time)

  /** Moment `i` leads from state `i` to the next. */
  ghost predicate Connects(s: Settings, ws: seq<World>, ms: seq<Moment>, i: nat)
    requires i < |ms| && |ws| == |ms| + 1
  {
    Enabled(ws[i], ms[i].step) && ws[i + 1] == Apply(s, ws[i], ms[i].step, ms[i].at)
  }

  /** Consecutive states connected by enabled steps. */
  ghost predicate Follows(s: Settings, ws: seq<World>, ms: seq<Moment>) {
    && |ws| == |ms| + 1
    && forall i {:trigger Connects(s, ws, ms, i)} | 0 <= i < |ms| :: Connects(s, ws, ms, i)
  }

  ghost predicate IsRun(s: Settings, ws: seq<World>, ms: seq<Moment>) {
    Follows(s, ws, ms) && Initial(s, ws[0])
  }

  /** Every state of every run is in order. */
  lemma {:induction false} RunsStayInOrder(s: Settings, ws: seq<World>, ms: seq<Moment>, i: nat)
    requires IsRun(s, ws, ms) && i < |ws|
    ensures WorldInv(s, ws[i])
    decreases i
  {
    if i == 0 {
      InitialIsInOrder(s, ws[0]);
    } else {
      RunsStayInOrder(s, ws, ms, i - 1);
      assert Connects(s, ws, ms, i - 1);
      StepKeepsInv(s, ws[i - 1], ms[i - 1].step, ms[i - 1].at);
    }
  }
}
