// The services themselves: every transaction updates the tables in place, rolls back when it is refused,
// and amounts to exactly one step of the state machine.
module Services {
  import opened Base
  import opened Pricing
  import opened Rows
  import opened Takeovers
  import opened GameStore
  import opened Books
  import opened BookStore
  import opened Desk
  import opened DeskStore
  import Remediation = Desk
  import opened Intake
  import opened Risk
  import opened Protocol
  import opened Safety
  import opened Machine

  class System {
    const settings: Settings
    const game: GameTables
    const books: BookTables
    const desk: DeskTables
    var approvals: map<nat, Approval>
    var confirmations: map<nat, Confirmation>
    var entities: map<EntityId, Entity>
    var periods: Periods

    function Snapshot(): World
      reads this, game, books, desk
    {
      World(game.Rows(), books.Rows(), desk.Rows(), Intake(approvals, confirmations, entities, periods))
    }

    constructor (s: Settings, w: World)
      ensures settings == s && Snapshot() == w && fresh(game) && fresh(books) && fresh(desk)
    {
      settings := s;
      game := new GameTables(w.game);
      books := new BookTables(w.books);
      desk := new DeskTables(w.desk);
      approvals, confirmations := w.intake.approvals, w.intake.confirmations;
      entities, periods := w.intake.entities, w.intake.periods;
    }

    /** What the database does when a transaction is refused. */
    method Rollback(w: World)
      modifies this, game, books, desk
      ensures Snapshot() == w
    {
      game.Restore(w.game);
      books.Restore(w.books);
      desk.Restore(w.desk);
      approvals, confirmations := w.intake.approvals, w.intake.confirmations;
      entities, periods := w.intake.entities, w.intake.periods;
    }

    // ----- settlement -----

    /** Provider success is authoritative: a recording that fails is rolled back alone and reported as captured. */
    method CapturePayment(bid: BidId, reply: CaptureReply, now: Time) returns (captured: bool)
      requires bid in game.bids
      modifies books
      ensures (captured, books.Rows()) == Collect(old(books.Rows()), bid, game.bids[bid], reply, now)
    {
      var row := game.bids[bid];
      if row.intent.None? { return false; }
      books.requests := books.requests + [CaptureRequest(bid, row.intent.value)];
      if reply.Declined? { return false; }
      books.collected := books.collected + {row.intent.value};
      var saved := books.Rows();
      var recorded := books.RecordCaptureFromPaymentIntent(bid, row, reply.pi, now);
      if recorded.Abort? { books.Restore(saved); }
      return true;
    }

    /** `mode` is the provider behind the capture callback, or `None` for free play. */
    method FinalizeLocked(id: BoardId, now: Time, mode: Option<CaptureReply>) returns (r: Tx<Option<FinalizationResult>>)
      requires Linked(game.Rows()) && id in game.boards
      modifies game, books
      ensures var spec := Settle(old(Snapshot()), id, settings.rules, now, mode);
              if spec.Commit? then r == Commit(spec.value.1) && Snapshot() == spec.value.0 else r == Abort(spec.error)
    {
      assert BoardLinked(game.Rows(), id);
      var board := game.boards[id];
      var answer := CaptureMode.FreePlay;
      if mode.Some? {
        answer := Paid(false);
        if IsDue(board, now) && game.bids[board.pending.value].status.Authorized? {
          var captured := CapturePayment(board.pending.value, mode.value, now);
          answer := Paid(captured);
        }
      }
      r := game.FinalizeLockedPendingBid(id, settings.rules, now, answer);
    }

    method FinalizeDueBoard(id: BoardId, expected: Option<BidId>, now: Time, mode: Option<CaptureReply>)
      returns (r: Tx<Option<FinalizationResult>>)
      requires Linked(game.Rows()) && id in game.boards
      modifies this, game, books, desk
      ensures var spec := Protocol.FinalizeDueBoard(old(Snapshot()), id, expected, settings.rules, now, mode);
              if spec.Commit? then r == Commit(spec.value.1) && Snapshot() == spec.value.0
              else r == Abort(spec.error) && Snapshot() == old(Snapshot())
    {
      var saved := Snapshot();
      if expected.Some? && game.boards[id].pending != expected { return Commit(None); }
      r := FinalizeLocked(id, now, mode);
      if r.Abort? { Rollback(saved); }
    }

    // ----- checkout and free play -----

    method PriceOffer(o: Offer, now: Time) returns (r: Tx<nat>)
      requires Linked(game.Rows()) && o.board in game.boards
      ensures r == Protocol.PriceOffer(Snapshot(), o, settings.rules)
    {
      var board := game.boards[o.board];
      if o.entity !in entities || entities[o.entity] != Entity(board.competition, true) { return Abort(UnknownEntity); }
      var cents := DollarsToCents(o.amount);
      if cents.Abort? { return Abort(cents.error); }
      assert BoardLinked(game.Rows(), o.board);
      var pending := if board.pending.Some? then game.bids[board.pending.value].amount else 0;
      var required := MinimumTakeover(board.amount, settings.rules, pending);
      if cents.value < required { return Abort(BidTooLow(required)); }
      return Commit(cents.value);
    }

    method AuthenticatedPlayer(user: UserId) returns (r: Tx<Account>)
      ensures r == CheckPlayer(Snapshot(), user)
    {
      if user !in books.accounts || user !in game.contacts { return Abort(AccountRefused); }
      var account := books.accounts[user];
      if account.banned { return Abort(AccountRefused); }
      if !account.named { return Abort(AccountRefused); }
      return Commit(account);
    }

    /** Player, age, confirmation, risk and approval, in the order the service asks; then the provider's session. */
    method RequireInputs(o: Offer, amount: nat, x: Session, now: Time) returns (r: Tx<()>)
      ensures r == CheckInputs(Snapshot(), o, amount, x, settings.risk, now)
    {
      var player := AuthenticatedPlayer(o.user);
      if player.Abort? { return Abort(player.error); }
      if !player.value.ageConfirmed { return Abort(AgeNotConfirmed); }
      if x.confirmation.Some? {
        if x.confirmation.value !in confirmations { return Abort(ConfirmationRequired); }
        var c := confirmations[x.confirmation.value];
        if c.user != o.user || c.board != o.board || c.entity != o.entity || c.message != o.message
           || c.amount != amount || c.expiresAt <= now || c.consumedAt.Some? {
          return Abort(ConfirmationRequired);
        }
      }
      if Decide(player.value, settings.risk, amount, x.facts, now).Some? { return Abort(RiskRefused); }
      if x.approval !in approvals { return Abort(ApprovalRequired); }
      var a := approvals[x.approval];
      if a.user != o.user || a.board != o.board || a.entity != o.entity || a.message != o.message
         || !a.allowed || a.expiresAt <= now || a.consumedAt.Some? {
        return Abort(ApprovalRequired);
      }
      return if x.created then Commit(()) else Abort(CheckoutUnavailable);
    }

    /** `get_or_create_current_period`: the active period, else the one of the current window, activated. */
    method EnsureActivePeriod(competition: CompetitionId, now: Time)
      modifies this`periods
      ensures periods == EnsureActive(old(periods), competition, now)
    {
      if HasActive(periods, competition) { return; }
      var window := Week.CurrentWindow(now);
      var key := PeriodKey(competition, window.name);
      if key !in periods {
        periods := periods[key := Period(window.startsAt, window.endsAt, true, None)];
      }
      if !periods[key].active {
        periods := periods[key := periods[key].(active := true)];
      }
    }

    method OpenCheckout(id: BidId, o: Offer, x: Session, now: Time) returns (r: Tx<()>)
      requires Linked(game.Rows()) && o.board in game.boards && id !in game.bids
      modifies this, game, books, desk
      ensures var spec := PlaceCheckout(old(Snapshot()), id, o, x, settings, now);
              if spec.Commit? then r.Commit? && Snapshot() == spec.value else r == Abort(spec.error)
    {
      ghost var w := Snapshot();
      var priced := PriceOffer(o, now);
      if priced.Abort? { return Abort(priced.error); }
      var amount := priced.value;
      var checked := RequireInputs(o, amount, x, now);
      if checked.Abort? { return Abort(checked.error); }
      EnsureActivePeriod(game.boards[o.board].competition, now);
      var account := books.accounts[o.user];
      books.accounts := books.accounts[o.user := account.(tier := TierOf(account, now))];
      approvals := approvals[x.approval := approvals[x.approval].(consumedAt := Some(now))];
      var row := NewBid(o, amount, Some(x.approval), x.confirmation, Created, None);
      row := row.(status := CheckoutCreated);
      if x.intent.Some? { row := row.(intent := x.intent); }
      game.bids := game.bids[id := row];
      if x.confirmation.Some? {
        var shown := confirmations[x.confirmation.value];
        shown := shown.(confirmedAt := Some(now));
        shown := shown.(consumedAt := Some(now));
        confirmations := confirmations[x.confirmation.value := shown];
      }
      return Commit(());
    }

    /** Every refusal, before or after settlement, leaves the tables as they were. */
    method CreateCheckout(id: BidId, o: Offer, x: Session, now: Time, due: CaptureReply) returns (r: Tx<()>)
      requires Linked(game.Rows()) && o.board in game.boards && id !in game.bids
      modifies this, game, books, desk
      ensures var spec := Protocol.CreateCheckout(old(Snapshot()), id, o, x, settings, now, due);
              if spec.Commit? then r.Commit? && Snapshot() == spec.value
              else r == Abort(spec.error) && Snapshot() == old(Snapshot())
    {
      var saved := Snapshot();
      if !game.boards[o.board].biddingEnabled || !settings.rules.biddingEnabled { return Abort(BiddingPaused); }
      SettleLinks(saved, o.board, settings.rules, now, Some(due));
      var settled := FinalizeLocked(o.board, now, Some(due));
      if settled.Abort? {
        Rollback(saved);
        return Abort(settled.error);
      }
      r := OpenCheckout(id, o, x, now);
      if r.Abort? { Rollback(saved); }
    }

    /** A protected board is challenged; an open one is taken at once. */
    method PlayOrChallenge(id: BidId, now: Time) returns (r: Tx<bool>)
      requires Linked(game.Rows()) && id in game.bids
      modifies game
      ensures var spec := PlaceFreePlay(old(Snapshot()), id, settings.rules, now);
              if spec.Commit? then r == Commit(spec.value.1) && Snapshot() == spec.value.0 else r == Abort(spec.error)
    {
      assert BidLinked(game.Rows(), id);
      var board := game.boards[game.bids[id].board];
      if board.current.Some? && board.guaranteedUntil.Some? && board.guaranteedUntil.value > now {
        var _ := game.BecomeChallenger(id, None, now);
        return Commit(false);
      }
      var taken := game.TakeBoard(game.bids[id].board, id, settings.rules, now, false);
      return if taken.Commit? then Commit(true) else Abort(taken.error);
    }

    method PlaceBid(id: BidId, o: Offer, now: Time) returns (r: Tx<bool>)
      requires Linked(game.Rows()) && o.board in game.boards && id !in game.bids
      modifies this, game, books, desk
      ensures var spec := Protocol.PlaceBid(old(Snapshot()), id, o, settings.rules, now);
              if spec.Commit? then r == Commit(spec.value.1) && Snapshot() == spec.value.0 else r == Abort(spec.error)
    {
      var priced := PriceOffer(o, now);
      if priced.Abort? { return Abort(priced.error); }
      var player := AuthenticatedPlayer(o.user);
      if player.Abort? { return Abort(player.error); }
      EnsureActivePeriod(game.boards[o.board].competition, now);
      ghost var g := game.Rows();
      var row := NewBid(o, priced.value, None, None, Created, None);
      game.bids := game.bids[id := row];
      NewBidLinks(g, id, row);
      r := PlayOrChallenge(id, now);
    }

    method CreateBid(id: BidId, o: Offer, now: Time) returns (r: Tx<bool>)
      requires Linked(game.Rows()) && o.board in game.boards && id !in game.bids
      modifies this, game, books, desk
      ensures var spec := Protocol.CreateBid(old(Snapshot()), id, o, settings.rules, now);
              if spec.Commit? then r == Commit(spec.value.1) && Snapshot() == spec.value.0
              else r == Abort(spec.error) && Snapshot() == old(Snapshot())
    {
      var saved := Snapshot();
      if !game.boards[o.board].biddingEnabled || !settings.rules.biddingEnabled { return Abort(BiddingPaused); }
      SettleLinks(saved, o.board, settings.rules, now, None);
      var settled := FinalizeLocked(o.board, now, None);
      if settled.Abort? {
        Rollback(saved);
        return Abort(settled.error);
      }
      r := PlaceBid(id, o, now);
      if r.Abort? { Rollback(saved); }
    }

    // ----- provider events -----

    method HandleCheckoutCompleted(e: EventObject)
      modifies game
      ensures Snapshot() == CheckoutCompletedEvent(old(Snapshot()), e)
    {
      if e.bid.None? || e.bid.value !in game.bids { return; }
      var row := game.bids[e.bid.value];
      if e.intent.Some? && row.intent != e.intent {
        row := row.(intent := e.intent);
      }
      game.bids := game.bids[e.bid.value := row];
    }

    /** The second half of an authorization: price, supersede, and publish or send the message of a bid that has to wait. */
    method PlaceChallenger(bid: BidId, intent: IntentId, now: Time, own: CaptureReply, queueUp: bool) returns (r: Tx<Outside>)
      requires Linked(game.Rows()) && bid in game.bids
      modifies game, books
      ensures var spec := Protocol.PlaceChallenger(old(Snapshot()), bid, intent, settings.rules, now, own, queueUp);
              if spec.Commit? then r == Commit(spec.value.1) && Snapshot() == spec.value.0 else r == Abort(spec.error)
    {
      ghost var g := game.Rows();
      assert BidLinked(g, bid);
      var row := game.bids[bid];
      var id := row.board;
      assert BoardLinked(g, id);
      var board := game.boards[id];
      var pending := if board.pending.Some? then game.bids[board.pending.value].amount else 0;
      if row.amount < MinimumTakeover(board.amount, settings.rules, pending) {
        row := row.(intent := Some(intent));
        row := row.(status := AuthCanceled);
        row := row.(canceledAt := Some(now));
        game.bids := game.bids[bid := row];
        return Commit(Outside([bid], None));
      }
      ChallengeLinks(g, bid, Some(intent), now);
      var canceled := game.BecomeChallenger(bid, Some(intent), now);
      board := game.boards[id];
      if board.current.Some? && board.guaranteedUntil.Some? && board.guaranteedUntil.value > now {
        return if queueUp then Commit(Outside(canceled, Some(Trigger(bid, id)))) else Abort(QueueUnavailable);
      }
      var published := FinalizeLocked(id, now, Some(own));
      return if published.Commit? then Commit(Outside(canceled, None)) else Abort(published.error);
    }

    /** `due` and `own` answer the captures of the challenger that was due and of the newcomer. */
    method AuthorizeBid(bid: BidId, intent: IntentId, now: Time, due: CaptureReply, own: CaptureReply, queueUp: bool)
      returns (r: Tx<Outside>)
      requires Linked(game.Rows()) && bid in game.bids
      modifies game, books
      ensures var spec := Protocol.AuthorizeBid(old(Snapshot()), bid, intent, settings.rules, now, due, own, queueUp);
              if spec.Commit? then r == Commit(spec.value.1) && Snapshot() == spec.value.0 else r == Abort(spec.error)
    {
      assert BidLinked(game.Rows(), bid);
      var row := game.bids[bid];
      if !(row.status.Created? || row.status.CheckoutCreated?) { return Commit(Outside([], None)); }
      SettleLinks(Snapshot(), row.board, settings.rules, now, Some(due));
      var settled := FinalizeLocked(row.board, now, Some(due));
      if settled.Abort? { return Abort(settled.error); }
      r := PlaceChallenger(bid, intent, now, own, queueUp);
    }

    /** Returns the bids whose authorization the provider is then asked to release, and the message sent. */
    method HandleAuthorization(e: EventObject, now: Time, due: CaptureReply, own: CaptureReply, queueUp: bool)
      returns (r: Tx<Outside>)
      requires Linked(game.Rows())
      modifies this, game, books, desk
      ensures var spec := AuthorizationEvent(old(Snapshot()), e, settings.rules, now, due, own, queueUp);
              if spec.Commit? then r == Commit(spec.value.1) && Snapshot() == spec.value.0
              else r == Abort(spec.error) && Snapshot() == old(Snapshot())
    {
      if e.bid.None? || e.bid.value !in game.bids || e.intent.None? { return Commit(Outside([], None)); }
      var saved := Snapshot();
      r := AuthorizeBid(e.bid.value, e.intent.value, now, due, own, queueUp);
      if r.Abort? { Rollback(saved); }
    }

    method HandlePaymentFailed(e: EventObject, now: Time)
      modifies game
      ensures Snapshot() == PaymentFailedEvent(old(Snapshot()), e, now)
    {
      if e.bid.None? || e.bid.value !in game.bids { return; }
      game.CountFailedPayment(e.bid.value, e.intent, now);
    }

    method HandlePaymentCanceled(e: EventObject, now: Time)
      requires Linked(game.Rows())
      modifies game
      ensures Snapshot() == PaymentCanceledEvent(old(Snapshot()), e, now)
    {
      if e.bid.None? || e.bid.value !in game.bids { return; }
      game.DropCanceledPayment(e.bid.value, e.intent, now);
    }

    method HandlePaymentSucceeded(bid: Option<BidId>, pi: PaymentIntent, now: Time) returns (r: Tx<()>)
      modifies this, game, books, desk
      ensures var spec := RecordEvent(old(Snapshot()), bid, pi, now);
              if spec.Commit? then r.Commit? && Snapshot() == spec.value
              else r == Abort(spec.error) && Snapshot() == old(Snapshot())
    {
      if bid.None? || bid.value !in game.bids { return Commit(()); }
      var saved := Snapshot();
      var recorded := books.RecordCaptureFromPaymentIntent(bid.value, game.bids[bid.value], pi, now);
      if recorded.Abort? {
        Rollback(saved);
        return Abort(recorded.error);
      }
      return Commit(());
    }

    method HandleChargeUpdated(intent: Option<IntentId>, charge: Charge, now: Time) returns (r: Tx<bool>)
      modifies this, game, books, desk
      ensures var spec := UpdateFromCharge(old(books.Rows()), intent, charge, now);
              if spec.Commit? then r == Commit(spec.value.1) && Snapshot() == old(Snapshot()).(books := spec.value.0)
              else r == Abort(spec.error) && Snapshot() == old(Snapshot())
    {
      var saved := Snapshot();
      r := books.UpdateCaptureFromCharge(intent, charge, now);
      if r.Abort? { Rollback(saved); }
    }

    /** By payment intent first, then by charge. */
    method FindDisputed(d: Dispute) returns (found: Option<BidId>)
      ensures FindsDisputed(books.Rows(), d, found)
    {
      if d.intent.Some? && d.intent.value.owner in books.captures && books.captures[d.intent.value.owner].intent == d.intent.value {
        return Some(d.intent.value.owner);
      }
      if d.charge.Some? && exists o | o in books.captures :: books.captures[o].charge == d.charge {
        var o :| o in books.captures && books.captures[o].charge == d.charge;
        return Some(o);
      }
      return None;
    }

    method HandleDisputeCreated(d: Dispute, found: Option<BidId>, now: Time) returns (r: Tx<()>)
      modifies this, game, books, desk
      ensures var spec := DisputeEvent(old(Snapshot()), d, found, now);
              if spec.Commit? then r.Commit? && Snapshot() == spec.value
              else r == Abort(spec.error) && Snapshot() == old(Snapshot())
    {
      if found.None? || found.value !in game.bids || d.id.None? { return Commit(()); }
      var bid := found.value;
      var row := game.bids[bid];
      if row.dispute == d.id { return Commit(()); }
      if exists o | o in game.bids :: game.bids[o].dispute == d.id { return Abort(ConstraintViolated); }
      var amount := if d.amount.Some? && d.amount.value != 0 then d.amount.value else row.amount;
      books.WriteDispute(bid, row, amount, now);
      row := row.(status := Disputed);
      row := row.(dispute := d.id);
      game.bids := game.bids[bid := row];
      return Commit(());
    }

    // ----- moderation -----

    method ReportTakeover(bid: BidId) returns (r: Tx<()>)
      requires Linked(game.Rows())
      modifies this, game, books, desk
      ensures var spec := Takeovers.SubmitReport(old(game.Rows()), bid);
              if spec.Commit? then r.Commit? && Snapshot() == old(Snapshot()).(game := spec.value)
              else r == Abort(spec.error) && Snapshot() == old(Snapshot())
    {
      var saved := Snapshot();
      r := game.SubmitReport(bid);
      if r.Abort? { Rollback(saved); }
    }

    method ApproveCase(bid: BidId, reason: string, now: Time) returns (r: Tx<bool>)
      modifies game
      ensures var spec := ApproveCaseStep(old(Snapshot()), bid, reason, now);
              if spec.Commit? then r.Commit? && Snapshot() == spec.value else r == Abort(spec.error) && Snapshot() == old(Snapshot())
    {
      if !ReasonGiven(reason) { return Abort(ReasonRequired); }
      if bid !in game.cases { return Abort(MissingRow); }
      var changed := game.ApproveCase(bid, now);
      return Commit(changed);
    }

    /** The rows of a removal, in the order the service writes them. */
    method RedactTakeover(bid: BidId, now: Time) returns (r: Tx<()>)
      requires Linked(game.Rows()) && bid in game.cases
      modifies game, desk
      ensures var spec := Remediation.RemoveCase(old(game.Rows()), old(desk.Rows()), bid, now);
              if spec.Commit? then r.Commit? && (game.Rows(), desk.Rows()) == spec.value else r == Abort(spec.error)
    {
      if !game.cases[bid].status.Open? { return Commit(()); }
      assert TakeoverLinked(game.Rows(), bid) && BidLinked(game.Rows(), bid) && BoardLinked(game.Rows(), game.takeovers[bid].board);
      var row, to := game.bids[bid], Recipient(game.Rows(), bid);
      var id := game.takeovers[bid].board;
      var board := game.boards[id];
      if board.current == Some(bid) {
        if board.pending.Some? {
          var released := desk.PaymentActionForBid(bid, board.pending.value, game.bids[board.pending.value], now);
          if released.Abort? { return Abort(released.error); }
        }
        var _ := game.RestorePrior(bid, now);
      }
      game.CloseCase(bid, now);
      var action := desk.PaymentActionForBid(bid, bid, row, now);
      if action.Abort? { return Abort(action.error); }
      var waiting := action.value.op.IssueRefund? && action.value.status.ActionPending?;
      desk.Enqueue(bid, to, Context(id, now, bid, None), waiting, now);
      return Commit(());
    }

    method RemoveCase(bid: BidId, reason: string, now: Time) returns (r: Tx<()>)
      requires Linked(game.Rows())
      modifies this, game, books, desk
      ensures var spec := RemoveCaseStep(old(Snapshot()), bid, reason, now);
              if spec.Commit? then r.Commit? && Snapshot() == spec.value
              else r == Abort(spec.error) && Snapshot() == old(Snapshot())
    {
      if !ReasonGiven(reason) { return Abort(ReasonRequired); }
      if bid !in game.cases { return Abort(MissingRow); }
      var saved := Snapshot();
      r := RedactTakeover(bid, now);
      if r.Abort? { Rollback(saved); }
    }

    // ----- the two-phase payment worker -----

    method BeginPaymentAction(id: BidId, now: Time)
      requires Linked(game.Rows()) && id in desk.actions && id in game.bids && desk.actions[id].caseOf in game.cases
      modifies desk
      ensures Snapshot() == old(Snapshot()).(desk := BeginAction(old(game.Rows()), old(books.Rows()), old(desk.Rows()), id, now))
    {
      desk.ClaimAction(game.Rows(), books.Rows(), id, now);
    }

    method EndPaymentAction(id: BidId, reply: Option<string>, now: Time) returns (r: Tx<()>)
      requires Linked(game.Rows()) && id in desk.actions && id in game.bids && desk.actions[id].caseOf in game.cases
      modifies this, game, books, desk
      ensures var spec := EndAction(old(game.Rows()), old(books.Rows()), old(desk.Rows()), id, reply, now);
              if spec.Commit?
              then r.Commit? && Snapshot() == old(Snapshot()).(game := spec.value.0, books := spec.value.1, desk := spec.value.2)
              else r == Abort(spec.error) && Snapshot() == old(Snapshot())
    {
      var saved := Snapshot();
      var action := desk.actions[id];
      if !action.status.ActionProcessing? { return Commit(()); }
      if reply.None? {
        desk.actions := desk.actions[id := action.(status := ActionFailed)];
        return Commit(());
      }
      action := action.(status := ActionSucceeded);
      action := action.(reference := reply);
      action := action.(completedAt := Some(now));
      desk.actions := desk.actions[id := action];
      if action.op.CancelAuthorization? { return Commit(()); }
      if action.amount.None? || id !in books.captures || books.captures[id].fee.None? {
        Rollback(saved);
        return Abort(MissingRow);
      }
      var row := game.bids[id];
      assert TakeoverLinked(game.Rows(), action.caseOf) && BidLinked(game.Rows(), id);
      var figures := Figures(row.amount, books.captures[id].fee.value, action.amount.value);
      var to, context := Recipient(game.Rows(), id), RemovalContext(game.Rows(), action.caseOf, Some(figures), now);
      game.bids := game.bids[id := row.(status := Refunded)];
      books.WriteRefund(id, row, action.amount.value);
      desk.AttachRefundToRemovalNotice(action.caseOf, to, context, now);
      return Commit(());
    }

    // ----- rollover -----

    /** All boards of the competition or none, once per window. */
    method ResetBoards(competition: CompetitionId, ids: seq<BoardId>, releases: Releases, now: Time) returns (r: Tx<nat>)
      requires Linked(game.Rows()) && forall i | 0 <= i < |ids| :: ids[i] in game.boards
      modifies this, game, books, desk
      ensures var spec := ResetStep(old(Snapshot()), competition, ids, releases, now);
              if spec.Commit? then r == Commit(spec.value.1) && Snapshot() == spec.value.0
              else r == Abort(spec.error) && Snapshot() == old(Snapshot())
    {
      var saved := Snapshot();
      var window := Week.CurrentWindow(now);
      var key := PeriodKey(competition, window.name);
      if key in periods && periods[key].resetCompletedAt.Some? { return Commit(0); }
      var period := if key in periods then periods[key] else Period(window.startsAt, window.endsAt, false, None);
      periods := map k | k in periods :: if k.competition == competition then periods[k].(active := false) else periods[k];
      period := period.(active := true);
      period := period.(resetCompletedAt := Some(now));
      periods := periods[key := period];
      r := game.ResetBoards(ids, releases, now);
      if r.Abort? { Rollback(saved); }
    }

    // ----- dispatch -----

    method Perform(step: Step, now: Time)
      requires Enabled(Snapshot(), step)
      requires !step.Authorization? && !step.Checkout? && !step.FreePlay? && !step.FinalizeDue? && !step.Reset? && !step.EndPayment?
      modifies this, game, books, desk
      ensures Snapshot() == Apply(settings, old(Snapshot()), step, now)
    {
      match step
      case GrantApproval(id, approval) => approvals := approvals[id := approval];
      case ShowConfirmation(id, confirmation) => confirmations := confirmations[id := confirmation];
      case CheckoutCompleted(e) => HandleCheckoutCompleted(e);
      case PaymentFailure(e) => HandlePaymentFailed(e, now);
      case PaymentCancellation(e) => HandlePaymentCanceled(e, now);
      case PaymentSuccess(bid, pi) => var _ := HandlePaymentSucceeded(bid, pi, now);
      case ChargeUpdate(intent, charge) => var _ := HandleChargeUpdated(intent, charge, now);
      case DisputeOpened(d, found) => var _ := HandleDisputeCreated(d, found, now);
      case Report(p) => var _ := ReportTakeover(p);
      case Approve(p, reason) => var _ := ApproveCase(p, reason, now);
      case Remove(p, reason) => var _ := RemoveCase(p, reason, now);
      case BeginPayment(p) => BeginPaymentAction(p, now);
      case ClaimMail(c) => var _ := desk.Claim(c, settings.mail, now);
      case FinishMail(claim, answer) => desk.Finish(claim, settings.mail, answer, now);
      case Reconcile(p, reply) => var _ := books.ReconcileOne(p, reply, now);
    }

    method PerformBidding(step: Step, now: Time)
      requires Enabled(Snapshot(), step)
      requires step.Authorization? || step.Checkout? || step.FreePlay? || step.FinalizeDue?
      modifies this, game, books, desk
      ensures Snapshot() == Apply(settings, old(Snapshot()), step, now)
    {
      match step {
        case Checkout(id, o, x, due) => var _ := CreateCheckout(id, o, x, now, due);
        case FreePlay(id, o) => var _ := CreateBid(id, o, now);
        case Authorization(e, due, own, queueUp) => var _ := HandleAuthorization(e, now, due, own, queueUp);
        case FinalizeDue(b, expected, mode) => var _ := FinalizeDueBoard(b, expected, now, mode);
      }
    }

    /** Whatever is asked of the system, the tables move by exactly one step of the state machine. */
    method Execute(step: Step, now: Time)
      requires Enabled(Snapshot(), step)
      modifies this, game, books, desk
      ensures Snapshot() == Apply(settings, old(Snapshot()), step, now)
    {
      if step.Authorization? || step.Checkout? || step.FreePlay? || step.FinalizeDue? {
        PerformBidding(step, now);
      } else if step.EndPayment? {
        var _ := EndPaymentAction(step.about, step.answer, now);
      } else if step.Reset? {
        var _ := ResetBoards(step.competition, step.ids, step.releases, now);
      } else {
        Perform(step, now);
      }
    }

    /** So a system that is in order stays in order, whether the transaction commits or is refused. */
    method Process(step: Step, now: Time)
      requires WorldInv(settings, Snapshot()) && Enabled(Snapshot(), step)
      modifies this, game, books, desk
      ensures WorldInv(settings, Snapshot()) && Snapshot() == Apply(settings, old(Snapshot()), step, now)
    {
      StepKeepsInv(settings, Snapshot(), step, now);
      Execute(step, now);
    }
  }
}
