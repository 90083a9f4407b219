// The whole system as one state machine: each database transaction is one atomic step.
module Protocol {
  import opened Base
  import opened Pricing
  import opened Rows
  import opened Takeovers
  import opened Books
  import opened Desk
  import opened Intake
  import opened Risk

  datatype World = World(game: Game, books: Books, desk: Desk, intake: Intake)

  /** Configuration, fixed along a run. */
  datatype Settings = Settings(rules: BoardRules, risk: RiskConfig, mail: MailSettings)

  /** The provider's answer to a capture request. */
  datatype CaptureReply = Declined | Captured(pi: PaymentIntent)

  // ----- settlement with a real provider -----

  /** Ask the provider for the money; a success is recorded, and a failed recording is left to later events. */
  function Collect(b: Books, id: BidId, bid: Bid, reply: CaptureReply, now: Time): (bool, Books) {
    if bid.intent.None? then (false, b)
    else
      var asked := b.(requests := b.requests + [CaptureRequest(id, bid.intent.value)]);
      if reply.Declined? then (false, asked)
      else
        var paid := asked.(collected := b.collected + {bid.intent.value});
        var recorded := RecordCapture(paid, id, bid, reply.pi, now);
        (true, if recorded.Commit? then recorded.value.0 else paid)
  }

  function SettlePaid(w: World, id: BoardId, rules: BoardRules, now: Time, reply: CaptureReply)
    : Tx<(World, Option<FinalizationResult>)>
    requires Linked(w.game) && id in w.game.boards
  {
    assert BoardLinked(w.game, id);
    var board := w.game.boards[id];
    if !IsDue(board, now) || !w.game.bids[board.pending.value].status.Authorized? then
      var settled :- FinalizeLocked(w.game, id, rules, now, Paid(false));
      Commit((w.(game := settled.0), settled.1))
    else
      var bid := board.pending.value;
      var (captured, books) := Collect(w.books, bid, w.game.bids[bid], reply, now);
      var settled :- FinalizeLocked(w.game, id, rules, now, Paid(captured));
      Commit((w.(game := settled.0, books := books), settled.1))
  }

  function Settle(w: World, id: BoardId, rules: BoardRules, now: Time, mode: Option<CaptureReply>)
    : Tx<(World, Option<FinalizationResult>)>
    requires Linked(w.game) && id in w.game.boards
  {
    if mode.Some? then SettlePaid(w, id, rules, now, mode.value)
    else
      var settled :- FinalizeLocked(w.game, id, rules, now, FreePlay);
      Commit((w.(game := settled.0), settled.1))
  }

  /** The queue consumer names the bid it expects; anything else is left alone. */
  function FinalizeDueBoard(w: World, id: BoardId, expected: Option<BidId>, rules: BoardRules, now: Time, mode: Option<CaptureReply>)
    : Tx<(World, Option<FinalizationResult>)>
    requires Linked(w.game) && id in w.game.boards
  {
    if expected.Some? && w.game.boards[id].pending != expected then Commit((w, None))
    else Settle(w, id, rules, now, mode)
  }

  // ----- checkout and free play -----

  datatype Offer = Offer(board: BoardId, user: UserId, entity: EntityId, message: string, amount: real)

  /** What checkout is shown besides the offer, and what the payment provider answers to opening a session. */
  datatype Session = Session(approval: nat, confirmation: Option<nat>, facts: RiskFacts, created: bool, intent: Option<IntentId>)

  function NewBid(o: Offer, amount: nat, approval: Option<nat>, confirmation: Option<nat>, status: BidStatus, intent: Option<IntentId>): Bid {
    Bid(o.board, o.user, o.entity, o.message, amount, approval, confirmation, status, intent, None, 0, None, None, None, None)
  }

  /** The entity, period and price checks shared by both ways of bidding; yields the amount in cents. */
  function PriceOffer(w: World, o: Offer, rules: BoardRules): Tx<nat>
    requires Linked(w.game) && o.board in w.game.boards
  {
    var board := w.game.boards[o.board];
    if o.entity !in w.intake.entities || w.intake.entities[o.entity] != Entity(board.competition, true)
    then Abort(UnknownEntity)
    else
      var cents :- DollarsToCents(o.amount);
      var required := RequiredCents(w.game, o.board, rules);
      if cents < required then Abort(BidTooLow(required)) else Commit(cents)
  }

  function CheckPlayer(w: World, user: UserId): Tx<Account> {
    if user !in w.books.accounts || user !in w.game.contacts then Abort(AccountRefused)
    else if w.books.accounts[user].banned || !w.books.accounts[user].named then Abort(AccountRefused)
    else Commit(w.books.accounts[user])
  }

  function StoreTier(w: World, user: UserId, now: Time): World
    requires user in w.books.accounts
  {
    var a := w.books.accounts[user];
    w.(books := w.books.(accounts := w.books.accounts[user := a.(tier := TierOf(a, now))]))
  }

  /** The one-time inputs a paid bid consumes. */
  function CheckInputs(w: World, o: Offer, amount: nat, s: Session, risk: RiskConfig, now: Time): Tx<()> {
    var account :- CheckPlayer(w, o.user);
    if !account.ageConfirmed then Abort(AgeNotConfirmed)
    else if s.confirmation.Some?
            && !UsableConfirmation(w.intake, s.confirmation.value, o.user, o.board, o.entity, o.message, amount, now)
    then Abort(ConfirmationRequired)
    else if Decide(account, risk, amount, s.facts, now).Some? then Abort(RiskRefused)
    else if !UsableApproval(w.intake, s.approval, o.user, o.board, o.entity, o.message, now) then Abort(ApprovalRequired)
    else if !s.created then Abort(CheckoutUnavailable)
    else Commit(())
  }

  /** Price and check an offer on a settled board, and open its checkout. */
  function PlaceCheckout(w: World, id: BidId, o: Offer, s: Session, settings: Settings, now: Time): Tx<World>
    requires Linked(w.game) && o.board in w.game.boards && id !in w.game.bids
  {
    var amount :- PriceOffer(w, o, settings.rules);
    var _ :- CheckInputs(w, o, amount, s, settings.risk, now);
    var bid := NewBid(o, amount, Some(s.approval), s.confirmation, CheckoutCreated, s.intent);
    Commit(ConsumeInputs(w, o, s, now).(game := w.game.(bids := w.game.bids[id := bid])))
  }

  function ConsumeInputs(w: World, o: Offer, s: Session, now: Time): World
    requires o.user in w.books.accounts && s.approval in w.intake.approvals && o.board in w.game.boards
    requires s.confirmation.Some? ==> s.confirmation.value in w.intake.confirmations
  {
    var once := ConsumeApproval(w.intake, s.approval, now);
    var intake := if s.confirmation.Some? then ConsumeConfirmation(once, s.confirmation.value, now) else once;
    StoreTier(w, o.user, now).(
      intake := intake.(periods := EnsureActive(intake.periods, w.game.boards[o.board].competition, now)))
  }

  function CreateCheckout(w: World, id: BidId, o: Offer, s: Session, settings: Settings, now: Time, reply: CaptureReply): Tx<World>
    requires Linked(w.game) && o.board in w.game.boards && id !in w.game.bids
  {
    if !w.game.boards[o.board].biddingEnabled || !settings.rules.biddingEnabled then Abort(BiddingPaused)
    else
      var settled :- SettlePaid(w, o.board, settings.rules, now, reply);
      SettleLinks(w, o.board, settings.rules, now, Some(reply));
      PlaceCheckout(settled.0, id, o, s, settings, now)
  }

  /** An accepted free-play bid challenges a protected board, or takes an open one at once. */
  function PlaceFreePlay(w: World, id: BidId, rules: BoardRules, now: Time): Tx<(World, bool)>
    requires Linked(w.game) && id in w.game.bids
  {
    assert BidLinked(w.game, id);
    var board := w.game.bids[id].board;
    if Protected(w.game.boards[board], now)
    then Commit((w.(game := Challenge(w.game, id, None, now)), false))
    else
      var won :- Win(w.game, board, id, rules, now, false);
      Commit((w.(game := won), true))
  }

  /** Price and check a free-play offer on a settled board, then place it. */
  function PlaceBid(w: World, id: BidId, o: Offer, rules: BoardRules, now: Time): Tx<(World, bool)>
    requires Linked(w.game) && o.board in w.game.boards && id !in w.game.bids
  {
    var amount :- PriceOffer(w, o, rules);
    var _ :- CheckPlayer(w, o.user);
    var bid := NewBid(o, amount, None, None, Created, None);
    NewBidLinks(w.game, id, bid);
    var placed := w.(game := w.game.(bids := w.game.bids[id := bid]),
                     intake := w.intake.(periods := EnsureActive(w.intake.periods, w.game.boards[o.board].competition, now)));
    PlaceFreePlay(placed, id, rules, now)
  }

  /** The free-play version of the protocol, without a payment provider. */
  function CreateBid(w: World, id: BidId, o: Offer, rules: BoardRules, now: Time): Tx<(World, bool)>
    requires Linked(w.game) && o.board in w.game.boards && id !in w.game.bids
  {
    if !w.game.boards[o.board].biddingEnabled || !rules.biddingEnabled then Abort(BiddingPaused)
    else
      var settled :- Settle(w, o.board, rules, now, None);
      SettleLinks(w, o.board, rules, now, None);
      PlaceBid(settled.0, id, o, rules, now)
  }

  // ----- provider events -----

  /** The metadata of an event names its bid; both parts may be missing. */
  datatype EventObject = EventObject(bid: Option<BidId>, intent: Option<IntentId>)

  predicate KnownBid(g: Game, e: EventObject) {
    e.bid.Some? && e.bid.value in g.bids
  }

  function CheckoutCompletedEvent(w: World, e: EventObject): World {
    if !KnownBid(w.game, e) || e.intent.None? then w
    else
      var bid := e.bid.value;
      w.(game := w.game.(bids := w.game.bids[bid := w.game.bids[bid].(intent := e.intent)]))
  }

  predicate AwaitingAuthorization(status: BidStatus) {
    status.Created? || status.CheckoutCreated?
  }

  /** A queue message: the bid it is about, under the group of a board. */
  datatype Trigger = Trigger(bid: BidId, group: BoardId)

  /** What an authorization does outside the tables: authorizations to release, and the message it has sent. */
  datatype Outside = Outside(releases: seq<BidId>, sent: Option<Trigger>)

  /**
   Price the newcomer on a settled board, then publish it, or send its message when it has to wait;
   `queueUp` says whether the queue takes the message.
   */
  function PlaceChallenger(w: World, bid: BidId, intent: IntentId, rules: BoardRules, now: Time,
                           own: CaptureReply, queueUp: bool): Tx<(World, Outside)>
    requires Linked(w.game) && bid in w.game.bids
  {
    assert BidLinked(w.game, bid);
    var g, row := w.game, w.game.bids[bid];
    var id := row.board;
    if row.amount < RequiredCents(g, id, rules) then
      var rejected := row.(intent := Some(intent), status := AuthCanceled, canceledAt := Some(now));
      Commit((w.(game := g.(bids := g.bids[bid := rejected])), Outside([bid], None)))
    else
      var w1 := w.(game := Challenge(g, bid, Some(intent), now));
      ChallengeLinks(g, bid, Some(intent), now);
      if Protected(w1.game.boards[id], now) then
        if queueUp then Commit((w1, Outside(Superseded(g, bid), Some(Trigger(bid, id))))) else Abort(QueueUnavailable)
      else
        var published :- SettlePaid(w1, id, rules, now, own);
        Commit((published.0, Outside(Superseded(g, bid), None)))
  }

  /** Settle a due challenger first, then let the newcomer compete for what is left. */
  function AuthorizeBid(w: World, bid: BidId, intent: IntentId, rules: BoardRules, now: Time,
                        due: CaptureReply, own: CaptureReply, queueUp: bool): Tx<(World, Outside)>
    requires Linked(w.game) && bid in w.game.bids
  {
    assert BidLinked(w.game, bid);
    if !AwaitingAuthorization(w.game.bids[bid].status) then Commit((w, Outside([], None)))
    else
      var settled :- SettlePaid(w, w.game.bids[bid].board, rules, now, due);
      SettleLinks(w, w.game.bids[bid].board, rules, now, Some(due));
      PlaceChallenger(settled.0, bid, intent, rules, now, own, queueUp)
  }

  function AuthorizationEvent(w: World, e: EventObject, rules: BoardRules, now: Time,
                              due: CaptureReply, own: CaptureReply, queueUp: bool): Tx<(World, Outside)>
    requires Linked(w.game)
  {
    if !KnownBid(w.game, e) || e.intent.None? then Commit((w, Outside([], None)))
    else AuthorizeBid(w, e.bid.value, e.intent.value, rules, now, due, own, queueUp)
  }

  function PaymentFailedEvent(w: World, e: EventObject, now: Time): World {
    if !KnownBid(w.game, e) then w else w.(game := FailPayment(w.game, e.bid.value, e.intent, now))
  }

  function PaymentCanceledEvent(w: World, e: EventObject, now: Time): World
    requires Linked(w.game)
  {
    if !KnownBid(w.game, e) then w else w.(game := CancelPayment(w.game, e.bid.value, e.intent, now))
  }

  /** Records a capture that the direct path may have missed. */
  function RecordEvent(w: World, bid: Option<BidId>, pi: PaymentIntent, now: Time): Tx<World> {
    if bid.None? || bid.value !in w.game.bids then Commit(w)
    else
      var recorded :- RecordCapture(w.books, bid.value, w.game.bids[bid.value], pi, now);
      Commit(w.(books := recorded.0))
  }

  datatype Dispute = Dispute(id: Option<nat>, intent: Option<IntentId>, charge: Option<nat>, amount: Option<int>)

  /** The disputed bid: by payment intent, else by charge. */
  predicate FindsDisputed(b: Books, d: Dispute, found: Option<BidId>) {
    if d.intent.Some? && d.intent.value.owner in b.captures && b.captures[d.intent.value.owner].intent == d.intent.value
    then found == Some(d.intent.value.owner)
    else if found.Some? then d.charge.Some? && found.value in b.captures && b.captures[found.value].charge == d.charge
    else d.charge.None? || forall o | o in b.captures :: b.captures[o].charge != d.charge
  }

  function DisputeEvent(w: World, d: Dispute, found: Option<BidId>, now: Time): Tx<World> {
    if found.None? || found.value !in w.game.bids || d.id.None? then Commit(w)
    else
      var bid := found.value;
      var row := w.game.bids[bid];
      if row.dispute == d.id then Commit(w)
      else if exists o | o in w.game.bids :: w.game.bids[o].dispute == d.id then Abort(ConstraintViolated)
      else
        var amount := if d.amount.Some? && d.amount.value != 0 then d.amount.value else row.amount;
        Commit(w.(
               game := w.game.(bids := w.game.bids[bid := row.(status := Disputed, dispute := d.id)]),
               books := RecordDispute(w.books, bid, row, amount, now)))
  }

  // ----- moderation and rollover -----

  predicate ReasonGiven(reason: string) {
    0 < |reason| <= 500
  }

  function RemoveCaseStep(w: World, bid: BidId, reason: string, now: Time): Tx<World>
    requires Linked(w.game)
  {
    if !ReasonGiven(reason) then Abort(ReasonRequired)
    else if bid !in w.game.cases then Abort(MissingRow)
    else
      var removed :- RemoveCase(w.game, w.desk, bid, now);
      Commit(w.(game := removed.0, desk := removed.1))
  }

  function ApproveCaseStep(w: World, bid: BidId, reason: string, now: Time): Tx<World> {
    if !ReasonGiven(reason) then Abort(ReasonRequired)
    else if bid !in w.game.cases then Abort(MissingRow)
    else Commit(w.(game := ApproveCase(w.game, bid, now)))
  }

  /** The boards a reset locks: all boards of the competition, in key order. */
  ghost predicate BoardsOf(g: Game, competition: CompetitionId, ids: seq<BoardId>) {
    && (forall i, j | 0 <= i < j < |ids| :: ids[i] < ids[j])
    && (forall i | 0 <= i < |ids| :: ids[i] in g.boards && g.boards[ids[i]].competition == competition)
    && (forall b {:trigger b in g.boards} | b in g.boards && g.boards[b].competition == competition :: b in ids)
  }

  /** All boards or none; says how many boards it blanked. */
  function ResetStep(w: World, competition: CompetitionId, ids: seq<BoardId>, releases: Releases, now: Time): Tx<(World, nat)>
    requires Linked(w.game) && forall i | 0 <= i < |ids| :: ids[i] in w.game.boards
  {
    if AlreadyReset(w.intake.periods, competition, now) then Commit((w, 0))
    else
      var g :- ResetBoards(w.game, ids, releases, now);
      Commit((w.(game := g, intake := w.intake.(periods := RollOver(w.intake.periods, competition, now))), |ids|))
  }

  // ----- foreign keys after the composed steps -----

  /** Rows may have changed, but no row appeared, disappeared or moved. */
  ghost predicate StillLinked(g: Game, g': Game) {
    && Linked(g')
    && g'.boards.Keys == g.boards.Keys && g'.bids.Keys == g.bids.Keys
    && g'.contacts == g.contacts && g'.cases == g.cases
    && (forall p {:trigger g'.bids[p]} | p in g.bids :: g'.bids[p].board == g.bids[p].board)
  }

  lemma SettleLinks(w: World, id: BoardId, rules: BoardRules, now: Time, mode: Option<CaptureReply>)
    requires Linked(w.game) && id in w.game.boards
    ensures var r := Settle(w, id, rules, now, mode);
            r.Commit? ==>
              && StillLinked(w.game, r.value.0.game)
              && r.value.0.intake == w.intake && r.value.0.desk == w.desk
  {
    FinalizeLinks(w.game, id, rules, now, FreePlay);
    FinalizeLinks(w.game, id, rules, now, Paid(true));
    FinalizeLinks(w.game, id, rules, now, Paid(false));
  }

  lemma FinalizeLinks(g: Game, id: BoardId, rules: BoardRules, now: Time, mode: CaptureMode)
    requires Linked(g) && id in g.boards
    ensures var r := FinalizeLocked(g, id, rules, now, mode); r.Commit? ==> StillLinked(g, r.value.0)
  {
    assert BoardLinked(g, id);
    if IsDue(g.boards[id], now) {
      var bid := g.boards[id].pending.value;
      if !g.bids[bid].status.Authorized? || mode == Paid(false) {
        var g' := FinalizeLocked(g, id, rules, now, mode).value.0;
        Relinked(g, id, g'.boards[id], g'.bids);
        assert g.(boards := g.boards[id := g'.boards[id]], bids := g'.bids) == g';
      } else {
        WinLinks(g, id, bid, rules, now, mode.Paid?);
      }
    }
  }

  lemma WinLinks(g: Game, id: BoardId, bid: BidId, rules: BoardRules, now: Time, paid: bool)
    requires Linked(g) && id in g.boards && bid in g.bids
    ensures var r := Win(g, id, bid, rules, now, paid); r.Commit? ==> StillLinked(g, r.value)
  {
    var r := Win(g, id, bid, rules, now, paid);
    if r.Commit? {
      var g' := r.value;
      assert BoardLinked(g, id);
      forall b | b in g'.boards ensures BoardLinked(g', b) { assert BoardLinked(g, b); }
      forall p | p in g'.bids ensures BidLinked(g', p) { assert BidLinked(g, p); }
      forall t | t in g'.takeovers ensures TakeoverLinked(g', t) {
        if t in g.takeovers { assert TakeoverLinked(g, t); }
      }
    }
  }

  lemma NewBidLinks(g: Game, id: BidId, bid: Bid)
    requires Linked(g) && id !in g.bids && bid.board in g.boards && bid.bidder in g.contacts
    ensures Linked(g.(bids := g.bids[id := bid]))
  {
    var g' := g.(bids := g.bids[id := bid]);
    forall b | b in g'.boards ensures BoardLinked(g', b) { assert BoardLinked(g, b); }
    forall p | p in g'.bids ensures BidLinked(g', p) { if p != id { assert BidLinked(g, p); } }
    forall t | t in g'.takeovers ensures TakeoverLinked(g', t) { assert TakeoverLinked(g, t); }
  }

  lemma ChallengeLinks(g: Game, bid: BidId, intent: Option<IntentId>, now: Time)
    requires Linked(g) && bid in g.bids
    ensures var g' := Challenge(g, bid, intent, now);
            Linked(g') && g'.boards.Keys == g.boards.Keys && g'.bids.Keys == g.bids.Keys && g.bids[bid].board in g.boards
  {
    var g', id := Challenge(g, bid, intent, now), g.bids[bid].board;
    assert BidLinked(g, bid) && BoardLinked(g, id);
    Relinked(g, id, g'.boards[id], g'.bids);
  }
}
