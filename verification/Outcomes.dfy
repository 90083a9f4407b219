// What a bidding step leaves behind, row by row: settlements, checkouts, free-play bids and authorizations.
module Outcomes {
  import opened Base
  import opened Pricing
  import opened Rows
  import opened Takeovers
  import opened GameInvariant
  import opened GameSteps
  import opened Books
  import opened Desk
  import opened Intake
  import opened Risk
  import opened Protocol
  import opened Safety
  import opened SafetySteps
  import opened EventSteps
  import opened Machine
  import opened History
  import opened Guarantees
  import opened Events
  import Week

  // ----- publication and settlement -----

  /** Bid `t` takes board `id` over at `now`: everything that publication writes, and nothing else. */
  ghost predicate TakesOver(g: Game, g': Game, id: BoardId, t: BidId, now: Time, display: nat, paid: bool)
    requires id in g.boards && t in g.bids
  {
    var board, row := g.boards[id], g.bids[t];
    var until := now + display * SECOND;
    && row.bidder in g.contacts && g'.contacts == g.contacts && g'.cases == g.cases
    && g'.bids == g.bids[t := row.(status := if paid then Won else DemoWon, capturedAt := Some(now))]
    && g'.takeovers == g.takeovers[t := Takeover(id, board.current, row.bidder, row.entity, row.message, row.amount)]
    && g'.boards == g.boards[id := Board(board.competition, Some(t), Some(row.bidder), row.amount, row.message, None, Some(until),
                                         board.version + 1, board.biddingEnabled)]
    && g'.evidence.Keys == g.evidence.Keys + (if paid then {t} else {})
    && (paid ==> g'.evidence[t] == Evidence(g.contacts[row.bidder], row.confirmation, now, until, None))
    && forall e {:trigger g'.evidence[e]} | e in g.evidence ::
         g'.evidence[e] == if board.current == Some(e) && g.evidence[e].endedAt.None?
                           then g.evidence[e].(endedAt := Some(now)) else g.evidence[e]
  }

  lemma WinTakesOver(inc: nat, g: Game, id: BoardId, bid: BidId, rules: BoardRules, now: Time, paid: bool)
    requires GameInv(inc, g) && MayWin(inc, g, id, bid, now)
    ensures var r := Win(g, id, bid, rules, now, paid); r.Commit? && TakesOver(g, r.value, id, bid, now, rules.displaySeconds, paid)
  {
    WinCommits(inc, g, id, bid, rules, now, paid);
    assert BidLinked(g, bid);
  }

  /** The payment of bid `p` fails: the attempt is counted and its challenge, if any, is over. */
  function Failed(g: Game, id: BoardId, p: BidId, now: Time): Game
    requires id in g.boards && p in g.bids
  {
    var row := g.bids[p];
    g.(bids := g.bids[p := row.(status := PaymentFailed, failures := row.failures + 1, failedAt := Some(now))],
       boards := g.boards[id := g.boards[id].(pending := None)])
  }

  /** A challenger waits and nobody is protected any more. */
  predicate Overdue(board: Board, now: Time) {
    board.pending.Some? && (board.guaranteedUntil.Some? ==> board.guaranteedUntil.value <= now)
  }

  /** The money of a challenger comes in, unless it plays for free. */
  predicate Pays(row: Bid, mode: Option<CaptureReply>) {
    mode.Some? ==> row.intent.Some? && mode.value.Captured?
  }

  lemma FinalizeOutcome(inc: nat, g: Game, id: BoardId, rules: BoardRules, now: Time, mode: CaptureMode)
    requires GameInv(inc, g) && id in g.boards && Overdue(g.boards[id], now)
    ensures var p := g.boards[id].pending.value;
            var r := FinalizeLocked(g, id, rules, now, mode);
            && p in g.bids && g.bids[p].status.Authorized? && r.Commit?
            && r.value.1 == Some(FinalizationResult(id, p, mode != Paid(false)))
            && (if mode == Paid(false) then r.value.0 == Failed(g, id, p, now)
                else TakesOver(g, r.value.0, id, p, now, rules.displaySeconds, mode.Paid?))
  {
    assert BoardOk(inc, g, id);
    if mode != Paid(false) { WinTakesOver(inc, g, id, g.boards[id].pending.value, rules, now, mode.Paid?); }
  }

  /** A settlement publishes an overdue challenger that pays, drops one that does not, and otherwise does nothing. */
  lemma SettlementOutcome(s: Settings, w: World, id: BoardId, now: Time, mode: Option<CaptureReply>)
    requires CoreInv(s, w) && id in w.game.boards
    ensures var g := w.game;
            var r := Settle(w, id, s.rules, now, mode);
            && r.Commit? && r.value.0.desk == w.desk && r.value.0.intake == w.intake
            && (mode.None? ==> r.value.0.books == w.books)
            && (if !Overdue(g.boards[id], now) then r.value == (w, None)
                else
                  var p := g.boards[id].pending.value;
                  && p in g.bids
                  && r.value.1 == Some(FinalizationResult(id, p, Pays(g.bids[p], mode)))
                  && (if Pays(g.bids[p], mode) then TakesOver(g, r.value.0.game, id, p, now, s.rules.displaySeconds, mode.Some?)
                      else r.value.0.game == Failed(g, id, p, now)))
  {
    if Overdue(w.game.boards[id], now) {
      FinalizeOutcome(s.rules.increment, w.game, id, s.rules, now, CaptureMode.FreePlay);
      FinalizeOutcome(s.rules.increment, w.game, id, s.rules, now, Paid(true));
      FinalizeOutcome(s.rules.increment, w.game, id, s.rules, now, Paid(false));
    }
  }

  // ----- the two ways a newcomer can start -----

  /** Bid `p` becomes the challenger of its board, and the challenger before it is released. */
  ghost predicate Queues(g: Game, g': Game, id: BoardId, p: BidId, row: Bid, now: Time)
    requires id in g.boards
  {
    && g'.contacts == g.contacts && g'.cases == g.cases && g'.takeovers == g.takeovers && g'.evidence == g.evidence
    && g'.boards == g.boards[id := g.boards[id].(pending := Some(p))]
    && g'.bids.Keys == g.bids.Keys + {p}
    && g'.bids[p] == row.(status := Authorized, authorizedAt := Some(now))
    && forall q {:trigger g'.bids[q]} | q in g.bids && q != p ::
         g'.bids[q] == if g.boards[id].pending == Some(q) then g.bids[q].(status := AuthCanceled, canceledAt := Some(now)) else g.bids[q]
  }

  lemma ChallengeQueues(inc: nat, g: Game, bid: BidId, intent: Option<IntentId>, now: Time)
    requires GameInv(inc, g) && bid in g.bids && Undecided(g.bids[bid].status)
    ensures g.bids[bid].board in g.boards
    ensures Queues(g, Challenge(g, bid, intent, now), g.bids[bid].board, bid, g.bids[bid].(intent := intent), now)
    ensures Superseded(g, bid) == if g.boards[g.bids[bid].board].pending.Some? then [g.boards[g.bids[bid].board].pending.value] else []
  {
    assert BidLinked(g, bid) && BoardOk(inc, g, g.bids[bid].board);
  }

  /** Somebody is shown on the board who may not be replaced yet. */
  predicate Guarded(board: Board, now: Time) {
    board.current.Some? && board.guaranteedUntil.Some? && now < board.guaranteedUntil.value
  }

  /** A takeover or failure leaves the same tables whoever was waiting. */
  lemma OldPendingIsIrrelevant(g: Game, g': Game, id: BoardId, t: BidId, now: Time, display: nat)
    requires id in g.boards && t in g.bids
    ensures var before := g.(boards := g.boards[id := g.boards[id].(pending := None)]);
            && (TakesOver(g, g', id, t, now, display, true) <==> TakesOver(before, g', id, t, now, display, true))
            && Failed(g, id, t, now) == Failed(before, id, t, now)
  {
    var before := g.(boards := g.boards[id := g.boards[id].(pending := None)]);
    assert before.boards[id := Failed(before, id, t, now).boards[id]] == g.boards[id := Failed(g, id, t, now).boards[id]];
    if id in g'.boards { assert before.boards[id := g'.boards[id]] == g.boards[id := g'.boards[id]]; }
  }

  // ----- authorizations -----

  /** A newcomer with nobody protected ahead of it is due at once, and nobody else is waiting. */
  lemma AcceptedIsOverdue(s: Settings, w: World, bid: BidId, intent: IntentId, now: Time)
    requires WorldInv(s, w) && MayCompete(s, w.game, bid) && intent.owner == bid && Undecided(w.game.bids[bid].status)
    requires !Guarded(w.game.boards[w.game.bids[bid].board], now) && !Overdue(w.game.boards[w.game.bids[bid].board], now)
    ensures var id := w.game.bids[bid].board;
            var g1 := Challenge(w.game, bid, Some(intent), now);
            && w.game.boards[id].pending.None?
            && g1 == w.game.(boards := w.game.boards[id := w.game.boards[id].(pending := Some(bid))],
                             bids := w.game.bids[bid := w.game.bids[bid].(intent := Some(intent), status := Authorized, authorizedAt := Some(now))])
            && CoreInv(s, w.(game := g1)) && Overdue(g1.boards[id], now)
  {
    var id := w.game.bids[bid].board;
    var g, g1 := w.game, Challenge(w.game, bid, Some(intent), now);
    assert WaitsBehind(g, id) && BoardOk(s.rules.increment, g, id) && BidLinked(g, bid);
    ChallengeKeepsWorld(s, w, bid, Some(intent), now);
    assert Supersede(g, id, bid, now) == g.bids;
    assert g1.bids == g.bids[bid := g.bids[bid].(intent := Some(intent), status := Authorized, authorizedAt := Some(now))];
  }

  lemma OverdueOutcome(s: Settings, w: World, id: BoardId, bid: BidId, now: Time, own: CaptureReply)
    requires CoreInv(s, w) && id in w.game.boards && w.game.boards[id].pending == Some(bid) && Overdue(w.game.boards[id], now)
    requires bid in w.game.bids && w.game.bids[bid].intent.Some?
    ensures var r := SettlePaid(w, id, s.rules, now, own);
            && r.Commit?
            && (if own.Captured? then TakesOver(w.game, r.value.0.game, id, bid, now, s.rules.displaySeconds, true)
                else r.value.0.game == Failed(w.game, id, bid, now))
  {
    SettlementOutcome(s, w, id, now, Some(own));
  }

  lemma AcceptedOutcome(s: Settings, w: World, bid: BidId, intent: IntentId, now: Time, own: CaptureReply)
    requires WorldInv(s, w) && MayCompete(s, w.game, bid) && intent.owner == bid && Undecided(w.game.bids[bid].status)
    requires !Guarded(w.game.boards[w.game.bids[bid].board], now) && !Overdue(w.game.boards[w.game.bids[bid].board], now)
    ensures var id := w.game.bids[bid].board;
            var w1 := w.(game := Challenge(w.game, bid, Some(intent), now));
            var g := w.game.(bids := w.game.bids[bid := w.game.bids[bid].(intent := Some(intent), status := Authorized, authorizedAt := Some(now))]);
            && w.game.boards[id].pending.None? && Linked(w1.game) && id in w1.game.boards
            && var r := SettlePaid(w1, id, s.rules, now, own);
            && r.Commit?
            && (if own.Captured? then TakesOver(g, r.value.0.game, id, bid, now, s.rules.displaySeconds, true)
                else r.value.0.game == Failed(g, id, bid, now))
  {
    var id := w.game.bids[bid].board;
    AcceptedIsOverdue(s, w, bid, intent, now);
    var w1 := w.(game := Challenge(w.game, bid, Some(intent), now));
    OverdueOutcome(s, w1, id, bid, now, own);
    OldPendingIsIrrelevant(w1.game, SettlePaid(w1, id, s.rules, now, own).value.0.game, id, bid, now, s.rules.displaySeconds);
    assert w1.game.boards[id := w1.game.boards[id].(pending := None)] == w.game.boards;
  }

  /** Bid `bid` is turned away: its authorization is not needed. */
  function TurnedAway(g: Game, bid: BidId, intent: IntentId, now: Time): Game
    requires bid in g.bids
  {
    g.(bids := g.bids[bid := g.bids[bid].(intent := Some(intent), status := AuthCanceled, canceledAt := Some(now))])
  }

  /** What becomes of an authorized bid on a settled board, and what the service then does outside the tables. */
  ghost predicate Answers(s: Settings, w: World, bid: BidId, intent: IntentId, now: Time, own: CaptureReply, queueUp: bool, r: Tx<(World, Outside)>)
    requires Linked(w.game) && bid in w.game.bids && w.game.bids[bid].board in w.game.boards
  {
    var g, id, row := w.game, w.game.bids[bid].board, w.game.bids[bid];
    var board := g.boards[id];
    if row.amount < board.amount + s.rules.increment || row.amount < PendingAmount(g, id) + s.rules.increment then
      r == Commit((w.(game := TurnedAway(g, bid, intent, now)), Outside([bid], None)))
    else if Guarded(board, now) then
      if !queueUp then r == Abort(QueueUnavailable)
      else
        && r.Commit? && r.value.0 == w.(game := r.value.0.game)
        && Queues(g, r.value.0.game, id, bid, row.(intent := Some(intent)), now)
        && r.value.1 == Outside(if board.pending.Some? then [board.pending.value] else [], Some(Trigger(bid, id)))
    else
      var ready := g.(bids := g.bids[bid := row.(intent := Some(intent), status := Authorized, authorizedAt := Some(now))]);
      && r.Commit? && r.value.1 == Outside([], None) && r.value.0.desk == w.desk && r.value.0.intake == w.intake
      && r.value.0.books == AfterRequest(w.books, bid, ready.bids[bid], own, now)
      && (if own.Captured? then TakesOver(ready, r.value.0.game, id, bid, now, s.rules.displaySeconds, true)
          else r.value.0.game == Failed(ready, id, bid, now))
  }

  lemma ChallengerOutcome(s: Settings, w: World, bid: BidId, intent: IntentId, now: Time, own: CaptureReply, queueUp: bool)
    requires WorldInv(s, w) && bid in w.game.bids && intent.owner == bid && AwaitingAuthorization(w.game.bids[bid].status)
    requires w.game.bids[bid].board in w.game.boards && !Overdue(w.game.boards[w.game.bids[bid].board], now)
    ensures Answers(s, w, bid, intent, now, own, queueUp, PlaceChallenger(w, bid, intent, s.rules, now, own, queueUp))
  {
    var row := w.game.bids[bid];
    ClearsPriceIffBeatsBoth(row.amount, w.game.boards[row.board].amount, s.rules, PendingAmount(w.game, row.board));
    if row.amount >= RequiredCents(w.game, row.board, s.rules) {
      if Guarded(w.game.boards[row.board], now) {
        ChallengeQueues(s.rules.increment, w.game, bid, Some(intent), now);
      } else {
        OpenBoardOutcome(s, w, bid, intent, now, own);
      }
    }
  }

  lemma OpenBoardOutcome(s: Settings, w: World, bid: BidId, intent: IntentId, now: Time, own: CaptureReply)
    requires WorldInv(s, w) && MayCompete(s, w.game, bid) && intent.owner == bid && Undecided(w.game.bids[bid].status)
    requires !Guarded(w.game.boards[w.game.bids[bid].board], now) && !Overdue(w.game.boards[w.game.bids[bid].board], now)
    ensures var id := w.game.bids[bid].board;
            var w1 := w.(game := Challenge(w.game, bid, Some(intent), now));
            var ready := w.game.(bids := w.game.bids[bid := w.game.bids[bid].(intent := Some(intent), status := Authorized, authorizedAt := Some(now))]);
            && Linked(w1.game) && id in w1.game.boards && Superseded(w.game, bid) == []
            && var r := SettlePaid(w1, id, s.rules, now, own);
            && r.Commit? && r.value.0.desk == w.desk && r.value.0.intake == w.intake
            && r.value.0.books == AfterRequest(w.books, bid, ready.bids[bid], own, now)
            && (if own.Captured? then TakesOver(ready, r.value.0.game, id, bid, now, s.rules.displaySeconds, true)
                else r.value.0.game == Failed(ready, id, bid, now))
  {
    ChallengeQueues(s.rules.increment, w.game, bid, Some(intent), now);
    AcceptedOutcome(s, w, bid, intent, now, own);
    AcceptedKeepsRest(s, w, bid, intent, now, own);
    AcceptedMoney(s, w, bid, intent, now, own);
  }

  lemma AcceptedMoney(s: Settings, w: World, bid: BidId, intent: IntentId, now: Time, own: CaptureReply)
    requires WorldInv(s, w) && MayCompete(s, w.game, bid) && intent.owner == bid && Undecided(w.game.bids[bid].status)
    requires !Guarded(w.game.boards[w.game.bids[bid].board], now) && !Overdue(w.game.boards[w.game.bids[bid].board], now)
    ensures var id := w.game.bids[bid].board;
            var w1 := w.(game := Challenge(w.game, bid, Some(intent), now));
            var row := w.game.bids[bid].(intent := Some(intent), status := Authorized, authorizedAt := Some(now));
            && Linked(w1.game) && id in w1.game.boards
            && var r := SettlePaid(w1, id, s.rules, now, own);
               r.Commit? ==> r.value.0.books == AfterRequest(w.books, bid, row, own, now)
  {
    AcceptedIsOverdue(s, w, bid, intent, now);
    SettlementMoney(s, w.(game := Challenge(w.game, bid, Some(intent), now)), w.game.bids[bid].board, now, own);
  }

  lemma SettledIsNotOverdue(s: Settings, w: World, id: BoardId, now: Time, due: CaptureReply)
    requires WorldInv(s, w) && id in w.game.boards
    ensures var r := SettlePaid(w, id, s.rules, now, due);
            r.Commit? ==> id in r.value.0.game.boards && !Overdue(r.value.0.game.boards[id], now)
  {
    assert WaitsBehind(w.game, id);
    SettlePaidBoards(s, w, id, now, due);
  }

  lemma AcceptedKeepsRest(s: Settings, w: World, bid: BidId, intent: IntentId, now: Time, own: CaptureReply)
    requires Linked(w.game) && bid in w.game.bids
    ensures w.game.bids[bid].board in w.game.boards
    ensures var w1 := w.(game := Challenge(w.game, bid, Some(intent), now));
            && Linked(w1.game) && w.game.bids[bid].board in w1.game.boards
            && var r := SettlePaid(w1, w.game.bids[bid].board, s.rules, now, own);
               r.Commit? ==> r.value.0.desk == w.desk && r.value.0.intake == w.intake
  {
    ChallengeLinks(w.game, bid, Some(intent), now);
    SettleLinks(w.(game := Challenge(w.game, bid, Some(intent), now)), w.game.bids[bid].board, s.rules, now, Some(own));
  }

  /**
   What becomes of a bid that is authorized. An overdue challenger of its board is settled first; then the bid is turned
   away if it does not beat both the board and its challenger by an increment, waits behind a guarantee with its message
   sent, or is captured and takes the board over, or fails. Exactly the authorizations that are no longer needed are
   released. A bid that awaits no authorization is left alone.
   */
  lemma AuthorizationOutcome(s: Settings, w: World, bid: BidId, intent: IntentId, now: Time, due: CaptureReply, own: CaptureReply, queueUp: bool)
    requires WorldInv(s, w) && bid in w.game.bids && intent.owner == bid
    requires w.game.bids[bid].board in w.game.boards && HonestFor(w.game, w.game.bids[bid].board, due)
    ensures var r := AuthorizeBid(w, bid, intent, s.rules, now, due, own, queueUp);
            if !(w.game.bids[bid].status.Created? || w.game.bids[bid].status.CheckoutCreated?)
            then r == Commit((w, Outside([], None)))
            else
              var settled := SettlePaid(w, w.game.bids[bid].board, s.rules, now, due);
              && settled.Commit? && Linked(settled.value.0.game) && bid in settled.value.0.game.bids
              && settled.value.0.game.bids[bid] == w.game.bids[bid]
              && w.game.bids[bid].board in settled.value.0.game.boards
              && Answers(s, settled.value.0, bid, intent, now, own, queueUp, r)
  {
    if AwaitingAuthorization(w.game.bids[bid].status) {
      var id := w.game.bids[bid].board;
      SettleSparesNewcomer(s, w, bid, now, due);
      SettledIsNotOverdue(s, w, id, now, due);
      ChallengerOutcome(s, SettlePaid(w, id, s.rules, now, due).value.0, bid, intent, now, own, queueUp);
    }
  }

  // ----- which authorizations are released -----

  predicate Canceled(g: Game, p: BidId) {
    p in g.bids && g.bids[p].status.AuthCanceled?
  }

  lemma SettlementCancelsNobody(s: Settings, w: World, id: BoardId, now: Time, due: CaptureReply, p: BidId)
    requires CoreInv(s, w) && id in w.game.boards
    ensures var r := SettlePaid(w, id, s.rules, now, due); r.Commit? ==> (Canceled(r.value.0.game, p) <==> Canceled(w.game, p))
  {
    SettlementOutcome(s, w, id, now, Some(due));
    if Overdue(w.game.boards[id], now) { assert BoardOk(s.rules.increment, w.game, id); }
  }

  lemma AnswerReleases(s: Settings, w: World, bid: BidId, intent: IntentId, now: Time, own: CaptureReply, queueUp: bool, r: Tx<(World, Outside)>, p: BidId)
    requires GameInv(s.rules.increment, w.game) && bid in w.game.bids && w.game.bids[bid].board in w.game.boards && Undecided(w.game.bids[bid].status)
    requires Answers(s, w, bid, intent, now, own, queueUp, r) && r.Commit?
    ensures p in r.value.1.releases <==> Canceled(r.value.0.game, p) && !Canceled(w.game, p)
  {
    assert BoardOk(s.rules.increment, w.game, w.game.bids[bid].board);
  }

  /**
   The authorizations that a committed authorization event asks the provider to release are, without repetition, exactly
   those of the bids that it canceled.
   */
  lemma ReleasesAreTheCanceled(s: Settings, w: World, e: EventObject, now: Time, due: CaptureReply, own: CaptureReply, queueUp: bool, p: BidId)
    requires WorldInv(s, w) && Enabled(w, Authorization(e, due, own, queueUp))
    ensures var r := AuthorizationEvent(w, e, s.rules, now, due, own, queueUp);
            r.Commit? ==>
              var released := r.value.1.releases;
              && (forall i, j | 0 <= i < j < |released| :: released[i] != released[j])
              && (p in released <==> Canceled(r.value.0.game, p) && !Canceled(w.game, p))
  {
    if KnownBid(w.game, e) && e.intent.Some? {
      var bid := e.bid.value;
      AuthorizationOutcome(s, w, bid, e.intent.value, now, due, own, queueUp);
      if AwaitingAuthorization(w.game.bids[bid].status) {
        var w1 := SettlePaid(w, w.game.bids[bid].board, s.rules, now, due).value.0;
        SettleSparesNewcomer(s, w, bid, now, due);
        SettlementCancelsNobody(s, w, w.game.bids[bid].board, now, due, p);
        var r := AuthorizeBid(w, bid, e.intent.value, s.rules, now, due, own, queueUp);
        if r.Commit? { AnswerReleases(s, w1, bid, e.intent.value, now, own, queueUp, r, p); }
      }
    }
  }

  // ----- free play -----

  /** An account that is known, has a name and is not banned. */
  predicate MayPlay(w: World, user: UserId) {
    user in w.books.accounts && user in w.game.contacts && w.books.accounts[user].named && !w.books.accounts[user].banned
  }

  /** A whole-dollar offer of an active entity of the board's competition that beats the board and its challenger. */
  predicate Beats(w: World, o: Offer, rules: BoardRules)
    requires Linked(w.game) && o.board in w.game.boards
  {
    && o.amount == o.amount.Floor as real
    && o.entity in w.intake.entities && w.intake.entities[o.entity] == Entity(w.game.boards[o.board].competition, true)
    && o.amount.Floor * 100 >= w.game.boards[o.board].amount + rules.increment
    && o.amount.Floor * 100 >= PendingAmount(w.game, o.board) + rules.increment
  }

  /** The row of a new bid, as it was offered. */
  function OfferedBid(o: Offer, cents: nat, approval: Option<nat>, confirmation: Option<nat>, status: BidStatus, intent: Option<IntentId>): Bid {
    Bid(board := o.board, bidder := o.user, entity := o.entity, message := o.message, amount := cents,
        approval := approval, confirmation := confirmation, status := status, intent := intent, dispute := None,
        failures := 0, authorizedAt := None, capturedAt := None, canceledAt := None, failedAt := None)
  }

  /** Somebody can bid in a period: an active one stays as it is, and otherwise that of the current window becomes active. */
  ghost predicate Activates(periods: Periods, periods': Periods, competition: CompetitionId, now: Time) {
    var window := Week.CurrentWindow(now);
    var key := PeriodKey(competition, window.name);
    if exists k :: k in periods && k.competition == competition && periods[k].active then periods' == periods
    else periods' == periods[key := if key in periods then periods[key].(active := true)
                                    else Period(startsAt := window.startsAt, endsAt := window.endsAt, active := true, resetCompletedAt := None)]
  }

  lemma BiddingActivates(periods: Periods, competition: CompetitionId, now: Time)
    ensures Activates(periods, EnsureActive(periods, competition, now), competition, now)
  {
  }

  /** What a free-play bid leaves on a settled board. */
  ghost predicate Plays(s: Settings, w: World, id: BidId, o: Offer, now: Time, w': World, won: bool)
    requires o.board in w.game.boards && id !in w.game.bids && o.amount.Floor >= 0
  {
    var g, row := w.game, OfferedBid(o, o.amount.Floor * 100, None, None, Created, None);
    && w'.books == w.books && w'.desk == w.desk && w'.intake == w.intake.(periods := w'.intake.periods)
    && Activates(w.intake.periods, w'.intake.periods, g.boards[o.board].competition, now)
    && won == !Guarded(g.boards[o.board], now)
    && (if won then TakesOver(g.(bids := g.bids[id := row]), w'.game, o.board, id, now, s.rules.displaySeconds, false)
        else Queues(g, w'.game, o.board, id, row, now))
  }

  lemma PricedExactlyWhen(w: World, o: Offer, rules: BoardRules)
    requires Linked(w.game) && o.board in w.game.boards && rules.increment > 0
    ensures PriceOffer(w, o, rules).Commit? <==> Beats(w, o, rules)
    ensures PriceOffer(w, o, rules).Commit? ==> o.amount.Floor > 0 && PriceOffer(w, o, rules).value == o.amount.Floor * 100
  {
    ClearsPriceIffBeatsBoth(o.amount.Floor * 100, w.game.boards[o.board].amount, rules, PendingAmount(w.game, o.board));
  }

  lemma PlacedBidOutcome(s: Settings, w: World, id: BidId, o: Offer, now: Time)
    requires WorldInv(s, w) && o.board in w.game.boards && id !in w.game.bids && !IsDue(w.game.boards[o.board], now)
    requires Beats(w, o, s.rules) && MayPlay(w, o.user)
    ensures o.amount.Floor > 0
    ensures var r := PlaceBid(w, id, o, s.rules, now); r.Commit? && Plays(s, w, id, o, now, r.value.0, r.value.1)
  {
    PricedExactlyWhen(w, o, s.rules);
    var row := NewBid(o, o.amount.Floor * 100, None, None, Created, None);
    var competition := w.game.boards[o.board].competition;
    AddFreePlayKeepsInv(s, w, id, row, competition, now);
    BiddingActivates(w.intake.periods, competition, now);
    var w2 := w.(game := w.game.(bids := w.game.bids[id := row]), intake := w.intake.(periods := EnsureActive(w.intake.periods, competition, now)));
    NewRowOutcome(s, w, w2, id, o, row, now);
  }

  lemma NewRowOutcome(s: Settings, w: World, w2: World, id: BidId, o: Offer, row: Bid, now: Time)
    requires WorldInv(s, w2) && Linked(w.game) && id !in w.game.bids && row.board == o.board && o.board in w.game.boards
    requires w2 == w.(game := w.game.(bids := w.game.bids[id := row]), intake := w2.intake)
    requires row.status.Created? && row.intent.None? && MayCompete(s, w2.game, id) && !IsDue(w.game.boards[o.board], now)
    ensures var r := PlaceFreePlay(w2, id, s.rules, now);
            && r.Commit? && r.value.0 == w2.(game := r.value.0.game) && r.value.1 == !Guarded(w.game.boards[o.board], now)
            && (if r.value.1 then TakesOver(w2.game, r.value.0.game, o.board, id, now, s.rules.displaySeconds, false)
                else Queues(w.game, r.value.0.game, o.board, id, row, now))
  {
    if Guarded(w.game.boards[o.board], now) {
      ChallengeQueues(s.rules.increment, w2.game, id, None, now);
      assert BoardOk(s.rules.increment, w2.game, o.board);
    } else {
      assert WaitsBehind(w2.game, o.board);
      WinTakesOver(s.rules.increment, w2.game, o.board, id, s.rules, now, false);
    }
  }

  /**
   A free-play bid is accepted exactly when bidding is not paused, on the board or globally, a named account that is not
   banned makes it, and it beats what the board shows and what waits there once an overdue challenger has been settled.
   It then challenges a protected takeover or takes the board at once, and nothing else changes.
   */
  lemma FreePlayOutcome(s: Settings, w: World, id: BidId, o: Offer, now: Time)
    requires WorldInv(s, w) && o.board in w.game.boards && id !in w.game.bids
    ensures var settled := Settle(w, o.board, s.rules, now, None);
            var r := CreateBid(w, id, o, s.rules, now);
            && settled.Commit? && Linked(settled.value.0.game) && o.board in settled.value.0.game.boards && id !in settled.value.0.game.bids
            && (r.Commit? <==> w.game.boards[o.board].biddingEnabled && s.rules.biddingEnabled
                               && Beats(settled.value.0, o, s.rules) && MayPlay(w, o.user))
            && (r.Commit? ==> o.amount.Floor > 0 && Plays(s, settled.value.0, id, o, now, r.value.0, r.value.1))
  {
    SettleLinks(w, o.board, s.rules, now, None);
    FreeSettleKeepsInv(s, w, o.board, now);
    SettlementOutcome(s, w, o.board, now, None);
    var w1 := Settle(w, o.board, s.rules, now, None).value.0;
    PricedExactlyWhen(w1, o, s.rules);
    if Beats(w1, o, s.rules) && MayPlay(w, o.user) { PlacedBidOutcome(s, w1, id, o, now); }
  }

  // ----- checkouts -----

  /** What an opened checkout leaves on a settled board: its bid, the used inputs and the account's tier. */
  ghost predicate Opens(w: World, id: BidId, o: Offer, x: Session, now: Time, w': World)
    requires o.board in w.game.boards && o.amount.Floor >= 0
  {
    && w'.game == w.game.(bids := w.game.bids[id := OfferedBid(o, o.amount.Floor * 100, Some(x.approval), x.confirmation, CheckoutCreated, x.intent)])
    && w'.desk == w.desk && o.user in w.books.accounts && x.approval in w.intake.approvals
    && var a := w.books.accounts[o.user];
    && w'.books == w.books.(accounts := w.books.accounts[o.user := a.(tier := TierOf(a, now))])
    && w'.intake.entities == w.intake.entities && Activates(w.intake.periods, w'.intake.periods, w.game.boards[o.board].competition, now)
    && w'.intake.approvals == w.intake.approvals[x.approval := w.intake.approvals[x.approval].(consumedAt := Some(now))]
    && (x.confirmation.None? ==> w'.intake.confirmations == w.intake.confirmations)
    && (x.confirmation.Some? ==>
          && x.confirmation.value in w.intake.confirmations
          && var c := w.intake.confirmations[x.confirmation.value].(confirmedAt := Some(now), consumedAt := Some(now));
             w'.intake.confirmations == w.intake.confirmations[x.confirmation.value := c])
  }

  lemma PlacedCheckoutOutcome(s: Settings, w: World, id: BidId, o: Offer, x: Session, now: Time)
    requires CoreInv(s, w) && o.board in w.game.boards && id !in w.game.bids
    ensures var r := PlaceCheckout(w, id, o, x, s, now); r.Commit? ==> o.amount.Floor > 0 && Opens(w, id, o, x, now, r.value)
  {
    PricedExactlyWhen(w, o, s.rules);
    BiddingActivates(w.intake.periods, w.game.boards[o.board].competition, now);
  }

  /** A checkout that opens writes its bid, uses its inputs up and stores the account's tier; it does nothing else to a settled board. */
  lemma CheckoutOutcome(s: Settings, w: World, id: BidId, o: Offer, x: Session, now: Time, due: CaptureReply)
    requires WorldInv(s, w) && o.board in w.game.boards && id !in w.game.bids && HonestFor(w.game, o.board, due)
    ensures var r := CreateCheckout(w, id, o, x, s, now, due);
            var settled := SettlePaid(w, o.board, s.rules, now, due);
            r.Commit? ==> settled.Commit? && o.board in settled.value.0.game.boards && o.amount.Floor > 0 && Opens(settled.value.0, id, o, x, now, r.value)
  {
    SettlePaidKeepsCore(s, w, o.board, now, due);
    SettleLinks(w, o.board, s.rules, now, Some(due));
    PlacedCheckoutOutcome(s, SettlePaid(w, o.board, s.rules, now, due).value.0, id, o, x, now);
  }

  /** The requirements of a checkout, in the order in which the service checks them on a settled board. */
  datatype Requirement = Represented | WholeDollars | Price | Player | Age | Confirmed | RiskChecked | Approved | Session

  function Position(q: Requirement): nat {
    match q
    case Represented => 0
    case WholeDollars => 1
    case Price => 2
    case Player => 3
    case Age => 4
    case Confirmed => 5
    case RiskChecked => 6
    case Approved => 7
    case Session => 8
  }

  ghost predicate Fulfils(w: World, o: Offer, x: Session, s: Settings, now: Time, q: Requirement)
    requires Linked(w.game) && o.board in w.game.boards
  {
    var cents := o.amount.Floor * 100;
    match q
    case Represented => o.entity in w.intake.entities && w.intake.entities[o.entity] == Entity(w.game.boards[o.board].competition, true)
    case WholeDollars => o.amount == o.amount.Floor as real
    case Price => cents >= w.game.boards[o.board].amount + s.rules.increment && cents >= PendingAmount(w.game, o.board) + s.rules.increment
    case Player => MayPlay(w, o.user)
    case Age => o.user in w.books.accounts && w.books.accounts[o.user].ageConfirmed
    case Confirmed => x.confirmation.Some? ==> cents >= 0 && Confirms(w.intake, x.confirmation.value, o, cents, now)
    case RiskChecked =>
      && cents >= 0 && o.user in w.books.accounts
      && forall reason: Reason {:trigger Meets(reason, w.books.accounts[o.user], s.risk, cents, x.facts, now)} ::
           Meets(reason, w.books.accounts[o.user], s.risk, cents, x.facts, now)
    case Approved => Approves(w.intake, x.approval, o, now)
    case Session => x.created
  }

  /** The refusal that stands for a requirement; a low bid is told what it would have had to offer. */
  function RefusalFor(w: World, o: Offer, s: Settings, q: Requirement): Refusal
    requires Linked(w.game) && o.board in w.game.boards
  {
    match q
    case Represented => UnknownEntity
    case WholeDollars => NotWholeDollars
    case Price =>
      var shown, waiting := w.game.boards[o.board].amount, PendingAmount(w.game, o.board);
      BidTooLow((if shown < waiting then waiting else shown) + s.rules.increment)
    case Player => AccountRefused
    case Age => AgeNotConfirmed
    case Confirmed => ConfirmationRequired
    case RiskChecked => RiskRefused
    case Approved => ApprovalRequired
    case Session => CheckoutUnavailable
  }

  /** A checkout on a settled board is refused for the first requirement that it does not fulfil, and for nothing else. */
  lemma RefusedForTheFirstRequirement(s: Settings, w: World, id: BidId, o: Offer, x: Session, now: Time, q: Requirement)
    requires s.rules.increment > 0 && Linked(w.game) && o.board in w.game.boards && id !in w.game.bids
    requires forall earlier | Position(earlier) < Position(q) :: Fulfils(w, o, x, s, now, earlier)
    ensures !Fulfils(w, o, x, s, now, q) <==> PlaceCheckout(w, id, o, x, s, now) == Abort(RefusalFor(w, o, s, q))
  {
    var cents := o.amount.Floor * 100;
    ClearsPriceIffBeatsBoth(cents, w.game.boards[o.board].amount, s.rules, PendingAmount(w.game, o.board));
    if Position(q) > 0 { assert Fulfils(w, o, x, s, now, Represented); }
    if Position(q) > 1 { assert Fulfils(w, o, x, s, now, WholeDollars); }
    if Position(q) > 2 { assert Fulfils(w, o, x, s, now, Price); }
    if Position(q) > 3 {
      assert Fulfils(w, o, x, s, now, Player);
      AllowedMeetsEveryRule(w.books.accounts[o.user], s.risk, cents, x.facts, now);
    }
    if Position(q) > 4 { assert Fulfils(w, o, x, s, now, Age); }
    if Position(q) > 5 { assert Fulfils(w, o, x, s, now, Confirmed); }
    if Position(q) > 6 { assert Fulfils(w, o, x, s, now, RiskChecked); }
    if Position(q) > 7 { assert Fulfils(w, o, x, s, now, Requirement.Approved); }
  }
}
