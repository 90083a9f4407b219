// What each transaction does to the game tables: publication, settlement, challenge, removal and reset.
module Takeovers {
  import opened Base
  import opened Pricing
  import opened Rows

  // ----- delivery evidence -----

  function RecordDeliveryEnd(evidence: map<BidId, Evidence>, bid: Option<BidId>, at: Time): map<BidId, Evidence> {
    if bid.Some? && bid.value in evidence && evidence[bid.value].endedAt.None?
    then evidence[bid.value := evidence[bid.value].(endedAt := Some(at))]
    else evidence
  }

  /** Keeps the first record of a bid; a confirmation may back only one record. */
  function RecordPurchaseEvidence(g: Game, bid: BidId, at: Time, guaranteedUntil: Time): Tx<Game>
    requires bid in g.bids && g.bids[bid].bidder in g.contacts
  {
    var row := g.bids[bid];
    if bid in g.evidence then Commit(g)
    else if row.confirmation.Some? && exists e | e in g.evidence :: g.evidence[e].confirmation == row.confirmation
    then Abort(ConstraintViolated)
    else Commit(g.(evidence := g.evidence[bid := Evidence(g.contacts[row.bidder], row.confirmation, at, guaranteedUntil, None)]))
  }

  // ----- publication -----

  /** The only place a board changes hands. */
  function PublishTakeover(g: Game, id: BoardId, bid: BidId, displaySeconds: nat, at: Time): Tx<Game>
    requires id in g.boards && bid in g.bids
  {
    var board, row := g.boards[id], g.bids[bid];
    if bid in g.takeovers then Abort(ConstraintViolated)
    else
      Commit(g.(
             evidence := RecordDeliveryEnd(g.evidence, board.current, at),
             takeovers := g.takeovers[bid := Takeover(id, board.current, row.bidder, row.entity, row.message, row.amount)],
             boards := g.boards[id := board.(
                                current := Some(bid),
                                controller := Some(row.bidder),
                                amount := row.amount,
                                message := row.message,
                                pending := None,
                                guaranteedUntil := Some(at + displaySeconds * SECOND),
                                version := board.version + 1)]))
  }

  // ----- settlement of the pending challenger -----

  datatype FinalizationResult = FinalizationResult(board: BoardId, bid: BidId, published: bool)

  /** Free play captures nothing; paid play reports whether the provider captured the challenger. */
  datatype CaptureMode = FreePlay | Paid(captured: bool)

  predicate IsDue(board: Board, now: Time) {
    board.pending.Some? && (board.guaranteedUntil.None? || board.guaranteedUntil.value <= now)
  }

  predicate Protected(board: Board, now: Time) {
    board.current.Some? && board.guaranteedUntil.Some? && board.guaranteedUntil.value > now
  }

  /** Capture and publish a bid that is about to win its board. */
  function Win(g: Game, id: BoardId, bid: BidId, rules: BoardRules, now: Time, paid: bool): Tx<Game>
    requires Linked(g) && id in g.boards && bid in g.bids
  {
    assert BidLinked(g, bid);
    var won := g.bids[bid].(status := if paid then Won else DemoWon, capturedAt := Some(now));
    var g1 :- PublishTakeover(g.(bids := g.bids[bid := won]), id, bid, rules.displaySeconds, now);
    if paid then RecordPurchaseEvidence(g1, bid, now, g1.boards[id].guaranteedUntil.value)
    else Commit(g1)
  }

  function FinalizeLocked(g: Game, id: BoardId, rules: BoardRules, now: Time, mode: CaptureMode)
    : Tx<(Game, Option<FinalizationResult>)>
    requires Linked(g) && id in g.boards
  {
    assert BoardLinked(g, id);
    var board := g.boards[id];
    if !IsDue(board, now) then Commit((g, None))
    else
      var bid := board.pending.value;
      var row := g.bids[bid];
      var cleared := g.(boards := g.boards[id := board.(pending := None)]);
      if !row.status.Authorized? then Commit((cleared, Some(FinalizationResult(id, bid, false))))
      else if mode == Paid(false) then
        var failed := row.(status := PaymentFailed, failures := row.failures + 1, failedAt := Some(now));
        Commit((cleared.(bids := g.bids[bid := failed]), Some(FinalizationResult(id, bid, false))))
      else
        var g1 :- Win(g, id, bid, rules, now, mode.Paid?);
        Commit((g1, Some(FinalizationResult(id, bid, true))))
  }

  // ----- challenges -----

  function PendingAmount(g: Game, id: BoardId): nat
    requires Linked(g) && id in g.boards
  {
    assert BoardLinked(g, id);
    if g.boards[id].pending.Some? then g.bids[g.boards[id].pending.value].amount else 0
  }

  function RequiredCents(g: Game, id: BoardId, rules: BoardRules): nat
    requires Linked(g) && id in g.boards
  {
    MinimumTakeover(g.boards[id].amount, rules, PendingAmount(g, id))
  }

  function Cancel(bids: map<BidId, Bid>, bid: BidId, now: Time): map<BidId, Bid>
    requires bid in bids
  {
    bids[bid := bids[bid].(status := AuthCanceled, canceledAt := Some(now))]
  }

  /** Cancel the challenger that is being replaced, if it still holds an authorization. */
  function Supersede(g: Game, id: BoardId, challenger: BidId, now: Time): map<BidId, Bid>
    requires Linked(g) && id in g.boards
  {
    assert BoardLinked(g, id);
    var pending := g.boards[id].pending;
    if pending.Some? && pending.value != challenger && g.bids[pending.value].status.Authorized?
    then Cancel(g.bids, pending.value, now)
    else g.bids
  }

  /** Make an accepted bid the one challenger of its board. */
  function Challenge(g: Game, bid: BidId, intent: Option<IntentId>, now: Time): Game
    requires Linked(g) && bid in g.bids
  {
    assert BidLinked(g, bid);
    var id := g.bids[bid].board;
    var bids := Supersede(g, id, bid, now);
    g.(bids := bids[bid := bids[bid].(status := Authorized, authorizedAt := Some(now), intent := intent)],
       boards := g.boards[id := g.boards[id].(pending := Some(bid))])
  }

  /** The bids whose provider authorization has to be released after `Challenge`. */
  function Superseded(g: Game, bid: BidId): seq<BidId>
    requires Linked(g) && bid in g.bids
  {
    assert BidLinked(g, bid) && BoardLinked(g, g.bids[bid].board);
    var pending := g.boards[g.bids[bid].board].pending;
    if pending.Some? && pending.value != bid && g.bids[pending.value].status.Authorized? then [pending.value] else []
  }

  predicate CancellationImmutable(status: BidStatus) {
    Published(status) || status.PaymentFailed? || status.AuthCanceled? || status.Outbid?
  }

  /** The provider canceled the payment: drop the bid and any challenge it was making. */
  function CancelPayment(g: Game, bid: BidId, intent: Option<IntentId>, now: Time): Game
    requires Linked(g) && bid in g.bids
  {
    assert BidLinked(g, bid);
    var row := g.bids[bid];
    if CancellationImmutable(row.status) then g
    else
      var board := g.boards[row.board];
      var canceled := row.(status := AuthCanceled, canceledAt := Some(now),
                           intent := if row.intent.None? then intent else row.intent);
      g.(bids := g.bids[bid := canceled],
         boards := if board.pending == Some(bid) then g.boards[row.board := board.(pending := None)] else g.boards)
  }

  /** A failed card attempt leaves the checkout open and only counts the failure. */
  function FailPayment(g: Game, bid: BidId, intent: Option<IntentId>, now: Time): Game
    requires bid in g.bids
  {
    var row := g.bids[bid];
    if !(row.status.Created? || row.status.ModerationApproved? || row.status.CheckoutCreated?) then g
    else g.(bids := g.bids[bid := row.(failures := row.failures + 1, failedAt := Some(now),
                           intent := if row.intent.None? then intent else row.intent)])
  }

  // ----- moderation -----

  /** A report opens the one case of a published takeover; a closed case takes no more reports. */
  function SubmitReport(g: Game, bid: BidId): Tx<Game>
    requires Linked(g)
  {
    TakeoversAreBids(g);
    if bid !in g.takeovers || g.takeovers[bid].board != g.bids[bid].board
       || !(g.bids[bid].status.Won? || g.bids[bid].status.DemoWon?)
    then Abort(MissingRow)
    else if bid in g.cases then
      if g.cases[bid].status.Open? then Commit(g) else Abort(MissingRow)
    else Commit(g.(cases := g.cases[bid := Case(Open, None)]))
  }

  function ApproveCase(g: Game, bid: BidId, now: Time): Game
    requires bid in g.cases
  {
    if g.cases[bid].status.Open? then g.(cases := g.cases[bid := Case(Approved, Some(now))]) else g
  }

  /** The loop of the chain walk: the first ancestor that has not been removed. */
  function PriorFrom(g: Game, next: Option<BidId>, visited: set<BidId>): (prior: Option<BidId>)
    ensures prior.Some? ==> prior.value in g.takeovers && !IsRemoved(g, prior.value)
    decreases g.takeovers.Keys - visited
  {
    if next.None? || next.value in visited then None
    else if next.value !in g.takeovers then None
    else if !IsRemoved(g, next.value) then next
    else PriorFrom(g, g.takeovers[next.value].previous, visited + {next.value})
  }

  function PriorNonRemoved(g: Game, bid: BidId): Option<BidId>
    requires bid in g.takeovers
  {
    PriorFrom(g, g.takeovers[bid].previous, {bid})
  }

  function RestoredBoard(g: Game, board: Board, prior: Option<BidId>): Board
    requires prior.Some? ==> prior.value in g.takeovers
  {
    var base := board.(pending := None, guaranteedUntil := None, version := board.version + 1);
    if prior.Some? then
      var t := g.takeovers[prior.value];
      base.(current := prior, controller := Some(t.controller), amount := t.amount, message := t.message)
    else base.(current := None, controller := None, amount := 0, message := DEFAULT_MESSAGE)
  }

  /** Redact a takeover; when it is live, fall back to the prior board state and drop the challenger. */
  function RemoveTakeover(g: Game, bid: BidId, now: Time): Game
    requires Linked(g) && bid in g.cases
  {
    assert TakeoverLinked(g, bid) && BoardLinked(g, g.takeovers[bid].board);
    var id := g.takeovers[bid].board;
    var board := g.boards[id];
    var closed := g.(cases := g.cases[bid := Case(Removed, Some(now))]);
    if board.current != Some(bid) then closed
    else
      closed.(
        boards := g.boards[id := RestoredBoard(g, board, PriorNonRemoved(g, bid))],
        bids := if board.pending.Some? && g.bids[board.pending.value].status.Authorized?
        then Cancel(g.bids, board.pending.value, now) else g.bids)
  }

  // ----- weekly rollover -----

  /** Which releases the provider confirms; `None` when no provider is configured. */
  type Releases = Option<set<BidId>>

  function BlankBoard(board: Board): Board {
    board.(current := None, controller := None, amount := 0, message := DEFAULT_MESSAGE,
           pending := None, guaranteedUntil := None, version := board.version + 1)
  }

  function ReleasePending(g: Game, board: Board, now: Time): map<BidId, Bid>
    requires board.pending.Some? ==> board.pending.value in g.bids
  {
    if board.pending.None? then g.bids
    else
      var status := g.bids[board.pending.value].status;
      if status.Created? || status.CheckoutCreated? || status.Authorized?
      then Cancel(g.bids, board.pending.value, now)
      else g.bids
  }

  function ResetBoard(g: Game, id: BoardId, releases: Releases, now: Time): (r: Tx<Game>)
    requires Linked(g) && id in g.boards
    ensures r.Commit? ==> Linked(r.value) && r.value.boards.Keys == g.boards.Keys
  {
    assert BoardLinked(g, id);
    var board := g.boards[id];
    if board.pending.Some? && g.bids[board.pending.value].status.Authorized?
       && releases.Some? && board.pending.value !in releases.value
    then Abort(ReleaseFailed(board.pending.value))
    else
      var bids := ReleasePending(g, board, now);
      Relinked(g, id, BlankBoard(board), bids);
      Commit(g.(boards := g.boards[id := BlankBoard(board)], bids := bids))
  }

  function ResetBoards(g: Game, ids: seq<BoardId>, releases: Releases, now: Time): (r: Tx<Game>)
    requires Linked(g) && forall i | 0 <= i < |ids| :: ids[i] in g.boards
    ensures r.Commit? ==> Linked(r.value) && r.value.boards.Keys == g.boards.Keys
    decreases |ids|
  {
    if ids == [] then Commit(g)
    else
      var last := |ids| - 1;
      var g1 :- ResetBoards(g, ids[..last], releases, now);
      ResetBoard(g1, ids[last], releases, now)
  }
}
