// What the provider's reports and the moderators' decisions leave behind, and that repeating them changes nothing.
module Events {
  import opened Base
  import opened Rows
  import opened Takeovers
  import opened GameInvariant
  import opened Books
  import opened BooksInvariant
  import opened BooksSteps
  import opened Desk
  import opened Intake
  import opened Protocol
  import opened Safety
  import opened SafetySteps
  import opened EventSteps
  import opened Machine
  import opened Reports
  import DeskSteps

  // ----- charges -----

  /** A charge that brings the fee data a snapshot still lacks, in its own amount and currency. */
  predicate Brings(c: Capture, x: Charge) {
    && !c.available && x.balance.Some? && x.balance.value.fee.Some? && x.balance.value.net.Some?
    && x.balance.value.gross in {None, Some(c.gross as int)} && x.balance.value.currency in {"", c.currency}
  }

  /** The snapshot with everything known that was known before or that the charge tells. */
  function Filled(c: Capture, x: Charge, now: Time): Capture
    requires Brings(c, x) ==> x.balance.value.fee.value >= 0
  {
    var told := if x.balance.Some? then x.balance.value.id else None;
    Capture(
      intent := c.intent, gross := c.gross, currency := c.currency, attempts := c.attempts, attemptedAt := c.attemptedAt,
      charge := if c.charge.Some? then c.charge else x.id,
      balanceTransaction := if c.balanceTransaction.Some? then c.balanceTransaction else told,
      fee := if Brings(c, x) then Some(x.balance.value.fee.value) else c.fee,
      net := if Brings(c, x) then x.balance.value.net else c.net,
      available := c.available || Brings(c, x),
      availableAt := if Brings(c, x) then Some(now) else c.availableAt)
  }

  /** Another snapshot already names the charge or the balance transaction of `c`. */
  ghost predicate Clashes(captures: map<BidId, Capture>, id: BidId, c: Capture) {
    exists o {:trigger captures[o]} | o in captures && o != id ::
      (c.charge.Some? && captures[o].charge == c.charge) || (c.balanceTransaction.Some? && captures[o].balanceTransaction == c.balanceTransaction)
  }

  /** Charge `x` can be stored with snapshot `id`: no negative fee, and no identifier of another snapshot. */
  ghost predicate Storable(captures: map<BidId, Capture>, id: BidId, x: Charge)
    requires id in captures
  {
    (Brings(captures[id], x) ==> x.balance.value.fee.value >= 0) && !Clashes(captures, id, Filled(captures[id], x, 0))
  }

  /** A charge is stored exactly if it is storable, fills one snapshot and nothing else, and is said to complete it exactly if it does. */
  lemma ChargeOutcome(b: Books, id: BidId, x: Charge, now: Time)
    requires id in b.captures
    ensures var r := SaveCharge(b, id, x, now);
            if Storable(b.captures, id, x)
            then r == Commit((b.(captures := b.captures[id := Filled(b.captures[id], x, now)]), Brings(b.captures[id], x)))
            else r == Abort(ConstraintViolated)
  {
    if Brings(b.captures[id], x) ==> x.balance.value.fee.value >= 0 {
      var c, c' := Filled(b.captures[id], x, 0), Filled(b.captures[id], x, now);
      assert Clashes(b.captures, id, c) <==> Clashes(b.captures, id, c');
    }
  }

  /** What has been stored is stored again without any change, however late. */
  lemma StoringTwice(b: Books, id: BidId, x: Charge, now: Time, later: Time)
    requires id in b.captures && SaveCharge(b, id, x, now).Commit?
    ensures var b' := SaveCharge(b, id, x, now).value.0; id in b'.captures && SaveCharge(b', id, x, later) == Commit((b', false))
  {
    ChargeOutcome(b, id, x, now);
    var b' := SaveCharge(b, id, x, now).value.0;
    var c := Filled(b.captures[id], x, now);
    assert Filled(c, x, later) == c && Filled(c, x, 0) == c;
    assert Clashes(b'.captures, id, c) <==> Clashes(b.captures, id, c);
    ChargeOutcome(b', id, x, later);
    assert b'.captures[id := c] == b'.captures;
  }

  // ----- captured payments -----

  /** A payment that succeeded, for this bid and in full. */
  predicate PaysFor(row: Bid, pi: PaymentIntent) {
    && pi.succeeded && pi.id.Some? && (row.intent.Some? ==> row.intent == pi.id)
    && (pi.received.Some? && pi.received.value != 0 ==> pi.received.value == row.amount)
  }

  /** The snapshot of a payment of which only its amount is known. */
  function FirstSnapshot(row: Bid, pi: PaymentIntent): Capture
    requires pi.id.Some?
  {
    Capture(intent := pi.id.value, charge := None, balanceTransaction := None, gross := row.amount, currency := pi.currency,
            fee := None, net := None, available := false, availableAt := None, attempts := 0, attemptedAt := None)
  }

  /** The books with the first snapshot of bid `id`, its entry, and its place in the bidder's record. */
  function FirstRecord(b: Books, id: BidId, row: Bid, pi: PaymentIntent): Books
    requires pi.id.Some?
  {
    b.(captures := b.captures[id := FirstSnapshot(row, pi)],
       ledger := b.ledger + [Entry(kind := BidCapture, amount := row.amount, user := row.bidder, entity := row.entity, bid := id)],
       accounts :=
         if row.bidder !in b.accounts then b.accounts
         else
           var a := b.accounts[row.bidder];
           b.accounts[row.bidder := a.(successes := a.successes + 1, spend := a.spend + row.amount)])
  }

  /** What becomes of a report about the payment of bid `id`, and whether the payment is on record then. */
  ghost function AfterReport(b: Books, id: BidId, row: Bid, pi: PaymentIntent, now: Time): Tx<(Books, bool)> {
    if !PaysFor(row, pi) || (id in b.captures && Some(b.captures[id].intent) != pi.id) then Commit((b, false))
    else if id !in b.captures && exists o {:trigger b.captures[o]} | o in b.captures :: b.captures[o].intent == pi.id.value
    then Abort(ConstraintViolated)
    else
      var b1 := if id in b.captures then b else FirstRecord(b, id, row, pi);
      if !Storable(b1.captures, id, pi.charge) then Abort(ConstraintViolated)
      else Commit((b1.(captures := b1.captures[id := Filled(b1.captures[id], pi.charge, now)]), true))
  }

  /**
   A report of a captured payment is recorded exactly if it pays for its bid and agrees with what is recorded already;
   the first one writes snapshot, entry and counters, and every one adds what its charge tells. A charge that cannot be
   stored takes the whole record back.
   */
  lemma RecordOutcome(bids: map<BidId, Bid>, b: Books, id: BidId, pi: PaymentIntent, now: Time)
    requires BooksInv(bids, b) && id in bids
    ensures RecordCapture(b, id, bids[id], pi, now) == AfterReport(b, id, bids[id], pi, now)
  {
    if PaysFor(bids[id], pi) {
      if id in b.captures {
        ChargeOutcome(b, id, pi.charge, now);
      } else {
        NoEntryWithoutCapture(bids, b, id, BidCapture);
        var created := NewCapture(b, id, bids[id], pi.id.value, pi.currency);
        if created.Commit? {
          assert created.value == FirstRecord(b, id, bids[id], pi);
          ChargeOutcome(created.value, id, pi.charge, now);
        }
      }
    }
  }

  /** The books after the provider was asked for the payment of bid `p`; a report that cannot be recorded is left to later ones. */
  ghost function AfterRequest(b: Books, p: BidId, row: Bid, reply: CaptureReply, now: Time): Books {
    if row.intent.None? then b
    else
      var asked := b.(requests := b.requests + [CaptureRequest(bid := p, intent := row.intent.value)]);
      if reply.Declined? then asked
      else
        var paid := asked.(collected := b.collected + {row.intent.value});
        var recorded := AfterReport(paid, p, row, reply.pi, now);
        if recorded.Commit? then recorded.value.0 else paid
  }

  lemma RequestOutcome(bids: map<BidId, Bid>, b: Books, p: BidId, reply: CaptureReply, now: Time)
    requires BooksInv(bids, b) && p in bids
    ensures Collect(b, p, bids[p], reply, now) == (bids[p].intent.Some? && reply.Captured?, AfterRequest(b, p, bids[p], reply, now))
  {
    if bids[p].intent.Some? && reply.Captured? {
      var paid := b.(requests := b.requests + [CaptureRequest(p, bids[p].intent.value)], collected := b.collected + {bids[p].intent.value});
      CollectingKeepsInv(bids, b, paid.collected, paid.requests);
      RecordOutcome(bids, paid, p, reply.pi, now);
    }
  }

  /** A settlement asks for the money of an overdue challenger, once, records what comes in, and touches no other money. */
  lemma SettlementMoney(s: Settings, w: World, id: BoardId, now: Time, reply: CaptureReply)
    requires CoreInv(s, w) && id in w.game.boards
    ensures var board, r := w.game.boards[id], SettlePaid(w, id, s.rules, now, reply);
            r.Commit? ==>
              if board.pending.None? || (board.guaranteedUntil.Some? && now < board.guaranteedUntil.value) then r.value.0.books == w.books
              else
                && board.pending.value in w.game.bids
                && r.value.0.books == AfterRequest(w.books, board.pending.value, w.game.bids[board.pending.value], reply, now)
  {
    assert BoardOk(s.rules.increment, w.game, id);
    if w.game.boards[id].pending.Some? { RequestOutcome(w.game.bids, w.books, w.game.boards[id].pending.value, reply, now); }
  }

  /** A report that has been recorded is recorded again without any change: no second entry, no second count. */
  lemma RecordingTwice(b: Books, id: BidId, row: Bid, pi: PaymentIntent, now: Time, later: Time)
    requires var r := RecordCapture(b, id, row, pi, now); r.Commit? && r.value.1
    ensures var b' := RecordCapture(b, id, row, pi, now).value.0; RecordCapture(b', id, row, pi, later) == Commit((b', true))
  {
    var b1 := if id in b.captures then b else NewCapture(b, id, row, pi.id.value, pi.currency).value;
    StoringTwice(b1, id, pi.charge, now, later);
    ChargeOutcome(b1, id, pi.charge, now);
  }

  /** A reconciliation pass counts its attempt on an incomplete snapshot, stores what a captured payment tells, and otherwise does nothing. */
  lemma ReconcileOutcome(b: Books, id: BidId, reply: Option<PaymentIntent>, now: Time)
    requires id in b.captures
    ensures var c := b.captures[id];
            var tried := b.(captures := b.captures[id := c.(attempts := c.attempts + 1, attemptedAt := Some(now))]);
            var heard := reply.Some? && reply.value.succeeded;
            ReconcileRow(b, id, reply, now) ==
            if c.available then Commit((b, false))
            else if !heard then Commit((tried, false))
            else if !Storable(tried.captures, id, reply.value.charge) then Abort(ConstraintViolated)
            else Commit((tried.(captures := tried.captures[id := Filled(tried.captures[id], reply.value.charge, now)]),
                         Brings(c, reply.value.charge)))
  {
    var c := b.captures[id];
    var tried := b.(captures := b.captures[id := c.(attempts := c.attempts + 1, attemptedAt := Some(now))]);
    if reply.Some? { ChargeOutcome(tried, id, reply.value.charge, now); }
  }

  /** A reported success goes on record as any other report of its bid does; one about an unknown bid is dropped. */
  lemma PaymentSuccessOutcome(s: Settings, w: World, bid: Option<BidId>, pi: PaymentIntent, now: Time)
    requires WorldInv(s, w) && Enabled(w, PaymentSuccess(bid, pi))
    ensures var w' := Apply(s, w, PaymentSuccess(bid, pi), now);
            if bid.Some? && bid.value in w.game.bids then
              var report := AfterReport(w.books, bid.value, w.game.bids[bid.value], pi, now);
              w' == if report.Commit? then w.(books := report.value.0) else w
            else w' == w
  {
    if bid.Some? && bid.value in w.game.bids { RecordOutcome(w.game.bids, w.books, bid.value, pi, now); }
  }

  /** A charge update fills the snapshot of its payment intent, if there is one and the charge can be stored, and nothing else. */
  lemma ChargeUpdateOutcome(s: Settings, w: World, intent: Option<IntentId>, x: Charge, now: Time)
    requires WorldInv(s, w) && Enabled(w, ChargeUpdate(intent, x))
    ensures var w', b := Apply(s, w, ChargeUpdate(intent, x), now), w.books;
            && w' == w.(books := b.(captures := w'.books.captures)) && w'.books.captures.Keys == b.captures.Keys
            && forall p {:trigger w'.books.captures[p]} | p in b.captures ::
                 w'.books.captures[p] == if Some(b.captures[p].intent) == intent && Storable(b.captures, p, x)
                                         then Filled(b.captures[p], x, now) else b.captures[p]
  {
    var b := w.books;
    forall p | p in b.captures ensures b.captures[p].intent.owner == p { assert CaptureOk(w.game.bids, b, p); }
    if intent.Some? && intent.value.owner in b.captures { ChargeOutcome(b, intent.value.owner, x, now); }
  }

  // ----- which bid a dispute is about -----

  /** In every reachable state a dispute is about one bid at most: that of its payment intent, else that of its charge. */
  lemma DisputeNamesOneBid(s: Settings, ws: seq<World>, ms: seq<Moment>, i: nat, d: Dispute, found: Option<BidId>, p: BidId)
    requires IsRun(s, ws, ms) && i < |ws| && FindsDisputed(ws[i].books, d, found)
    ensures var captures := ws[i].books.captures;
            var byIntent := d.intent.Some? && exists q | q in captures :: captures[q].intent == d.intent.value;
            found == Some(p) <==>
              && p in captures
              && (if byIntent then captures[p].intent == d.intent.value else d.charge.Some? && captures[p].charge == d.charge)
  {
    RunsStayInOrder(s, ws, ms, i);
    IdentifiersStayDistinct(s, ws, ms, i);
    var b := ws[i].books;
    forall q | q in b.captures ensures b.captures[q].intent.owner == q { assert CaptureOk(ws[i].game.bids, b, q); }
    if found.Some? && found.value in b.captures && p in b.captures { assert OwnIds(b.captures, found.value, p); }
  }

  // ----- events about one payment -----

  /** A bid whose payment is still open: no money has been authorized, captured or given up. */
  predicate PaymentOpen(status: BidStatus) {
    status.Created? || status.ModerationApproved? || status.CheckoutCreated?
  }

  /** What an event about the payment of a bid makes of its row. */
  function AfterEvent(row: Bid, step: Step, now: Time): Bid
    requires step.CheckoutCompleted? || step.PaymentFailure? || step.PaymentCancellation?
  {
    var known := if row.intent.Some? then row.intent else step.event.intent;
    match step
    case CheckoutCompleted(e) => if e.intent.Some? then row.(intent := e.intent) else row
    case PaymentFailure(_) =>
      if PaymentOpen(row.status) then row.(failures := row.failures + 1, failedAt := Some(now), intent := known) else row
    case PaymentCancellation(_) =>
      if PaymentOpen(row.status) || row.status.Authorized? || row.status.Processing?
      then row.(status := AuthCanceled, canceledAt := Some(now), intent := known) else row
  }

  /** The tables after such an event: the bid it names, and the board on which a canceled bid was waiting. */
  ghost predicate TellsItsBid(g: Game, g': Game, step: Step, now: Time)
    requires step.CheckoutCompleted? || step.PaymentFailure? || step.PaymentCancellation?
  {
    && g' == g.(bids := g'.bids, boards := g'.boards) && g'.bids.Keys == g.bids.Keys && g'.boards.Keys == g.boards.Keys
    && (forall p {:trigger g'.bids[p]} | p in g.bids ::
          g'.bids[p] == if step.event.bid == Some(p) then AfterEvent(g.bids[p], step, now) else g.bids[p])
    && (forall b {:trigger g'.boards[b]} | b in g.boards ::
          g'.boards[b] == if step.PaymentCancellation? && step.event.bid.Some? && g.boards[b].pending == step.event.bid
                          then g.boards[b].(pending := None) else g.boards[b])
  }

  lemma CancellationOfKnown(inc: nat, g: Game, e: EventObject, now: Time)
    requires GameInv(inc, g) && KnownBid(g, e)
    ensures TellsItsBid(g, CancelPayment(g, e.bid.value, e.intent, now), PaymentCancellation(e), now)
  {
    var p := e.bid.value;
    assert BidLinked(g, p);
    forall b | b in g.boards && g.boards[b].pending == e.bid ensures g.bids[p].status.Authorized? && g.bids[p].board == b {
      assert BoardOk(inc, g, b);
    }
  }

  lemma CompletionOutcome(w: World, e: EventObject, now: Time)
    ensures var w' := CheckoutCompletedEvent(w, e); w' == w.(game := w'.game) && TellsItsBid(w.game, w'.game, CheckoutCompleted(e), now)
  {
  }

  lemma FailureOutcome(w: World, e: EventObject, now: Time)
    ensures var w' := PaymentFailedEvent(w, e, now); w' == w.(game := w'.game) && TellsItsBid(w.game, w'.game, PaymentFailure(e), now)
  {
  }

  lemma CancellationOutcome(inc: nat, w: World, e: EventObject, now: Time)
    requires GameInv(inc, w.game)
    ensures var w' := PaymentCanceledEvent(w, e, now); w' == w.(game := w'.game) && TellsItsBid(w.game, w'.game, PaymentCancellation(e), now)
  {
    if KnownBid(w.game, e) {
      CancellationOfKnown(inc, w.game, e, now);
    } else {
      forall b | b in w.game.boards ensures e.bid.Some? ==> w.game.boards[b].pending != e.bid { assert BoardLinked(w.game, b); }
    }
  }

  /**
   A completed checkout, a failed payment and a canceled one touch the bid they name and no other: they tell its payment
   intent, count a failure while the payment is open, or end it while no money has been captured. A canceled challenger
   stops waiting. Nothing else changes.
   */
  lemma PaymentEventOutcome(s: Settings, w: World, step: Step, now: Time)
    requires WorldInv(s, w) && Enabled(w, step)
    requires step.CheckoutCompleted? || step.PaymentFailure? || step.PaymentCancellation?
    ensures var w' := Apply(s, w, step, now); w' == w.(game := w'.game) && TellsItsBid(w.game, w'.game, step, now)
  {
    match step
    case CheckoutCompleted(e) => CompletionOutcome(w, e, now);
    case PaymentFailure(e) => FailureOutcome(w, e, now);
    case PaymentCancellation(e) => CancellationOutcome(s.rules.increment, w, e, now);
  }

  lemma ToldAgain(g: Game, g': Game, g2: Game, step: Step, now: Time, later: Time)
    requires (step.CheckoutCompleted? || step.PaymentCancellation?) && TellsItsBid(g, g', step, now) && TellsItsBid(g', g2, step, later)
    ensures g2 == g'
  {
    assert g2.bids == g'.bids && g2.boards == g'.boards;
  }

  /** A completed checkout or a canceled payment that is told again changes nothing. */
  lemma PaymentEventTwice(s: Settings, w: World, step: Step, now: Time, later: Time)
    requires WorldInv(s, w) && Enabled(w, step) && (step.CheckoutCompleted? || step.PaymentCancellation?)
    ensures var w' := Apply(s, w, step, now); Enabled(w', step) && Apply(s, w', step, later) == w'
  {
    StepKeepsInv(s, w, step, now);
    var w' := Apply(s, w, step, now);
    PaymentEventOutcome(s, w, step, now);
    PaymentEventOutcome(s, w', step, later);
    ToldAgain(w.game, w'.game, Apply(s, w', step, later).game, step, now, later);
  }

  // ----- moderation -----

  /** A report is taken exactly for a won or free-play takeover whose case nobody has closed, and opens that case. */
  lemma ReportOutcome(s: Settings, w: World, p: BidId, now: Time)
    requires WorldInv(s, w)
    ensures Enabled(w, Report(p))
    ensures var g, r := w.game, Attempt(s, w, Report(p), now);
            if p in g.bids && (g.bids[p].status.Won? || g.bids[p].status.DemoWon?) && (p in g.cases ==> g.cases[p].status.Open?)
            then r == Commit(w.(game := g.(cases := if p in g.cases then g.cases else g.cases[p := Case(Open, None)])))
            else r == Abort(MissingRow)
  {
    TakeoversAreBids(w.game);
    if p in w.game.bids { assert StatusOk(w.game, p); }
    if p in w.game.takeovers { assert TakeoverOk(s.rules.increment, w.game, p); }
  }

  /** A decision is taken exactly on a known case and for a reason of at most 500 characters; a closed case stays as it is. */
  lemma DecisionOutcome(s: Settings, w: World, p: BidId, reason: string, now: Time)
    requires WorldInv(s, w)
    ensures Enabled(w, Approve(p, reason)) && Enabled(w, Remove(p, reason))
    ensures var approved, removed := Attempt(s, w, Approve(p, reason), now), Attempt(s, w, Remove(p, reason), now);
            if reason == "" || |reason| > 500 then approved == Abort(ReasonRequired) && removed == Abort(ReasonRequired)
            else if p !in w.game.cases then approved == Abort(MissingRow) && removed == Abort(MissingRow)
            else if !w.game.cases[p].status.Open? then approved == Commit(w) && removed == Commit(w)
            else
              && approved == Commit(w.(game := w.game.(cases := w.game.cases[p := Case(CaseStatus.Approved, Some(now))])))
              && removed.Commit? && p in removed.value.game.cases && removed.value.game.cases[p] == Case(Removed, Some(now))
  {
    if p in w.game.cases && w.game.cases[p].status.Open? {
      assert TakeoverLinked(w.game, p);
      DeskSteps.QueueWorkCommits(s.rules.increment, w.game, w.books, w.desk, p, now);
    }
  }
}
