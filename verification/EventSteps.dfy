// Provider events, moderation, rollover and workers keep the invariant of the whole system.
module EventSteps {
  import opened Base
  import opened Pricing
  import opened Rows
  import opened Takeovers
  import opened GameInvariant
  import opened GameSteps
  import opened Books
  import opened BooksInvariant
  import opened BooksSteps
  import opened Desk
  import opened DeskInvariant
  import opened DeskSteps
  import opened Intake
  import opened Risk
  import opened Protocol
  import opened Safety
  import opened SafetySteps
  import Week

  // ----- changes of one bid -----

  lemma TweakKeepsWorld(s: Settings, w: World, p: BidId, row: Bid)
    requires WorldInv(s, w) && p in w.game.bids && SameBid(row, w.game.bids[p])
    requires row.status == w.game.bids[p].status ||
             (Published(row.status) && Published(w.game.bids[p].status) && !row.status.DemoWon?)
    requires row.intent == w.game.bids[p].intent || (row.intent.Some? && row.intent.value.owner == p)
    ensures WorldInv(s, w.(game := w.game.(bids := w.game.bids[p := row])))
  {
    var g' := w.game.(bids := w.game.bids[p := row]);
    TweakKeepsInv(s.rules.increment, w.game, p, row);
    QuietKeepsOthers(s, w, g');
    forall b | b in g'.boards ensures WaitsBehind(g', b) { assert WaitsBehind(w.game, b); }
  }

  /** An honest event names the bid its payment intent was created for. */
  predicate HonestEvent(e: EventObject) {
    e.bid.Some? && e.intent.Some? ==> e.intent.value.owner == e.bid.value
  }

  lemma CompletedKeepsInv(s: Settings, w: World, e: EventObject)
    requires WorldInv(s, w) && HonestEvent(e)
    ensures WorldInv(s, CheckoutCompletedEvent(w, e))
  {
    if KnownBid(w.game, e) && e.intent.Some? {
      TweakKeepsWorld(s, w, e.bid.value, w.game.bids[e.bid.value].(intent := e.intent));
    }
  }

  lemma FailedKeepsInv(s: Settings, w: World, e: EventObject, now: Time)
    requires WorldInv(s, w) && HonestEvent(e)
    ensures WorldInv(s, PaymentFailedEvent(w, e, now))
  {
    if KnownBid(w.game, e) {
      var row := w.game.bids[e.bid.value];
      TweakKeepsWorld(s, w, e.bid.value, row.(failures := row.failures + 1, failedAt := Some(now),
                                              intent := if row.intent.None? then e.intent else row.intent));
    }
  }

  lemma CanceledKeepsInv(s: Settings, w: World, e: EventObject, now: Time)
    requires WorldInv(s, w) && HonestEvent(e)
    ensures WorldInv(s, PaymentCanceledEvent(w, e, now))
  {
    if KnownBid(w.game, e) {
      var bid := e.bid.value;
      var g' := CancelPayment(w.game, bid, e.intent, now);
      assert BidLinked(w.game, bid);
      CancelPaymentKeepsInv(s.rules.increment, w.game, bid, e.intent, now);
      QuietKeepsOthers(s, w, g');
      forall b | b in g'.boards ensures WaitsBehind(g', b) { assert WaitsBehind(w.game, b); }
    }
  }

  // ----- authorization -----

  lemma RejectKeepsWorld(s: Settings, w: World, bid: BidId, intent: IntentId, now: Time)
    requires WorldInv(s, w) && bid in w.game.bids && AwaitingAuthorization(w.game.bids[bid].status) && intent.owner == bid
    ensures WorldInv(s, w.(game := w.game.(bids := w.game.bids[bid :=
              w.game.bids[bid].(intent := Some(intent), status := AuthCanceled, canceledAt := Some(now))])))
  {
    var inc, g := s.rules.increment, w.game;
    var row := g.bids[bid].(intent := Some(intent), status := AuthCanceled, canceledAt := Some(now));
    var g' := g.(bids := g.bids[bid := row]);
    assert BidLinked(g, bid) && BoardOk(inc, g, row.board);
    DropKeepsInv(inc, g, bid, row);
    QuietKeepsOthers(s, w, g');
    forall b | b in g'.boards ensures WaitsBehind(g', b) { assert WaitsBehind(g, b); }
  }

  /** A challenger on a board that protects nobody is settled at once. */
  lemma ChallengeIsDue(s: Settings, w: World, bid: BidId, intent: IntentId, now: Time)
    requires WorldInv(s, w) && MayCompete(s, w.game, bid)
    requires !Protected(w.game.boards[w.game.bids[bid].board], now)
    ensures var g' := Challenge(w.game, bid, Some(intent), now);
            && w.game.bids[bid].board in g'.boards && IsDue(g'.boards[w.game.bids[bid].board], now)
            && g'.boards[w.game.bids[bid].board].pending == Some(bid)
            && bid in g'.bids && g'.bids[bid].intent == Some(intent)
  {
    assert BoardOk(s.rules.increment, w.game, w.game.bids[bid].board);
  }

  lemma AcceptKeepsInv(s: Settings, w: World, bid: BidId, intent: IntentId, now: Time, own: CaptureReply)
    requires WorldInv(s, w) && MayCompete(s, w.game, bid) && intent.owner == bid
    requires own.Captured? ==> own.pi.succeeded && own.pi.id == Some(intent)
    ensures var w2 := w.(game := Challenge(w.game, bid, Some(intent), now));
            var id := w.game.bids[bid].board;
            && Linked(w2.game) && id in w2.game.boards
            && (if Protected(w.game.boards[id], now) then WorldInv(s, w2)
                else SettlePaid(w2, id, s.rules, now, own).Commit? && WorldInv(s, SettlePaid(w2, id, s.rules, now, own).value.0))
  {
    var id := w.game.bids[bid].board;
    var w2 := w.(game := Challenge(w.game, bid, Some(intent), now));
    ChallengeKeepsWorld(s, w, bid, Some(intent), now);
    assert BidLinked(w.game, bid);
    if Protected(w.game.boards[id], now) {
      forall b | b in w2.game.boards ensures WaitsBehind(w2.game, b) { if b == id { assert WaitsBehind(w2.game, id); } }
    } else {
      ChallengeIsDue(s, w, bid, intent, now);
      SettlePaidKeepsCore(s, w2, id, now, own);
      SettlePaidBoards(s, w2, id, now, own);
    }
  }

  /** Settling a board touches no bid but its challenger. */
  lemma SettleSparesOthers(s: Settings, w: World, id: BoardId, now: Time, reply: CaptureReply, p: BidId)
    requires WorldInv(s, w) && id in w.game.boards && p in w.game.bids && w.game.boards[id].pending != Some(p)
    ensures var r := SettlePaid(w, id, s.rules, now, reply);
            r.Commit? ==> p in r.value.0.game.bids && r.value.0.game.bids[p] == w.game.bids[p]
  {
  }

  /** Settling a board for a newcomer leaves the newcomer as it was. */
  lemma SettleSparesNewcomer(s: Settings, w: World, bid: BidId, now: Time, due: CaptureReply)
    requires WorldInv(s, w) && bid in w.game.bids && AwaitingAuthorization(w.game.bids[bid].status)
    requires w.game.bids[bid].board in w.game.boards && HonestFor(w.game, w.game.bids[bid].board, due)
    ensures var r := SettlePaid(w, w.game.bids[bid].board, s.rules, now, due);
            && r.Commit? && WorldInv(s, r.value.0)
            && bid in r.value.0.game.bids && r.value.0.game.bids[bid] == w.game.bids[bid]
            && w.game.bids[bid].board in r.value.0.game.boards
  {
    var id := w.game.bids[bid].board;
    assert WaitsBehind(w.game, id);
    assert w.game.boards[id].pending != Some(bid) by { assert BoardOk(s.rules.increment, w.game, id); }
    SettlePaidKeepsCore(s, w, id, now, due);
    SettlePaidBoards(s, w, id, now, due);
    SettleSparesOthers(s, w, id, now, due, bid);
  }

  lemma PlaceChallengerKeepsInv(s: Settings, w: World, bid: BidId, intent: IntentId, now: Time, own: CaptureReply, queueUp: bool)
    requires WorldInv(s, w) && bid in w.game.bids && intent.owner == bid && AwaitingAuthorization(w.game.bids[bid].status)
    requires w.game.bids[bid].board in w.game.boards
    requires own.Captured? ==> own.pi.succeeded && own.pi.id == Some(intent)
    ensures var r := PlaceChallenger(w, bid, intent, s.rules, now, own, queueUp);
            if r.Commit? then WorldInv(s, r.value.0) else r.error == QueueUnavailable && !queueUp
  {
    var id := w.game.bids[bid].board;
    ClearsPriceIffBeatsBoth(w.game.bids[bid].amount, w.game.boards[id].amount, s.rules, PendingAmount(w.game, id));
    if w.game.bids[bid].amount < RequiredCents(w.game, id, s.rules) {
      RejectKeepsWorld(s, w, bid, intent, now);
    } else {
      AcceptKeepsInv(s, w, bid, intent, now, own);
    }
  }

  /** Authorization always commits, unless the queue itself is down. */
  lemma AuthorizeKeepsInv(s: Settings, w: World, bid: BidId, intent: IntentId, now: Time,
                          due: CaptureReply, own: CaptureReply, queueUp: bool)
    requires WorldInv(s, w) && bid in w.game.bids && intent.owner == bid
    requires w.game.bids[bid].board in w.game.boards && HonestFor(w.game, w.game.bids[bid].board, due)
    requires own.Captured? ==> own.pi.succeeded && own.pi.id == Some(intent)
    ensures var r := AuthorizeBid(w, bid, intent, s.rules, now, due, own, queueUp);
            if r.Commit? then WorldInv(s, r.value.0) else r.error == QueueUnavailable && !queueUp
  {
    if AwaitingAuthorization(w.game.bids[bid].status) {
      var id := w.game.bids[bid].board;
      SettleSparesNewcomer(s, w, bid, now, due);
      var w1 := SettlePaid(w, id, s.rules, now, due).value.0;
      PlaceChallengerKeepsInv(s, w1, bid, intent, now, own, queueUp);
    }
  }

  // ----- accounting events -----

  lemma RecordEventKeepsInv(s: Settings, w: World, bid: Option<BidId>, pi: PaymentIntent, now: Time)
    requires WorldInv(s, w)
    requires bid.Some? && pi.succeeded && pi.id.Some? ==> pi.id.value.owner == bid.value && pi.id.value in w.books.collected
    ensures var r := RecordEvent(w, bid, pi, now); r.Commit? ==> WorldInv(s, r.value)
  {
    if bid.Some? && bid.value in w.game.bids {
      RecordKeepsInv(w.game.bids, w.books, bid.value, pi, now);
      var r := RecordCapture(w.books, bid.value, w.game.bids[bid.value], pi, now);
      if r.Commit? { BooksStepKeepsOthers(s, w, r.value.0); }
    }
  }

  lemma ChargeKeepsInv(s: Settings, w: World, intent: Option<IntentId>, charge: Charge, now: Time)
    requires WorldInv(s, w)
    ensures var r := UpdateFromCharge(w.books, intent, charge, now); r.Commit? ==> WorldInv(s, w.(books := r.value.0))
  {
    UpdateKeepsInv(w.game.bids, w.books, intent, charge, now);
    var r := UpdateFromCharge(w.books, intent, charge, now);
    if r.Commit? { BooksStepKeepsOthers(s, w, r.value.0); }
  }

  lemma ReconcileKeepsWorld(s: Settings, w: World, bid: BidId, reply: Option<PaymentIntent>, now: Time)
    requires WorldInv(s, w) && bid in w.books.captures
    ensures var r := ReconcileRow(w.books, bid, reply, now); r.Commit? ==> WorldInv(s, w.(books := r.value.0))
  {
    ReconcileKeepsInv(w.game.bids, w.books, bid, reply, now);
    var r := ReconcileRow(w.books, bid, reply, now);
    if r.Commit? { BooksStepKeepsOthers(s, w, r.value.0); }
  }

  /** Only a captured bid can be disputed, and it stays published. */
  lemma DisputeKeepsInv(s: Settings, w: World, d: Dispute, found: Option<BidId>, now: Time)
    requires WorldInv(s, w) && FindsDisputed(w.books, d, found)
    ensures var r := DisputeEvent(w, d, found, now);
            && (r.Commit? ==> WorldInv(s, r.value))
            && (r.Commit? && r.value != w ==>
                  && found.Some? && found.value in w.books.captures && found.value in w.game.takeovers && found.value in w.game.bids
                  && Published(w.game.bids[found.value].status)
                  && r.value.game.bids == w.game.bids[found.value := w.game.bids[found.value].(status := Disputed, dispute := d.id)])
  {
    var r := DisputeEvent(w, d, found, now);
    if r.Commit? && r.value != w {
      var bid := found.value;
      var row := w.game.bids[bid];
      assert CaptureOk(w.game.bids, w.books, bid) && CollectedOk(w.game, w.books.captures[bid].intent) && StatusOk(w.game, bid);
      RecordDisputeKeepsInv(w.game.bids, w.books, bid, if d.amount.Some? && d.amount.value != 0 then d.amount.value else row.amount, now);
      var w1 := w.(books := r.value.books);
      BooksStepKeepsOthers(s, w, r.value.books);
      TweakKeepsWorld(s, w1, bid, row.(status := Disputed, dispute := d.id));
    }
  }

  // ----- moderation -----

  lemma ReportKeepsInv(s: Settings, w: World, bid: BidId)
    requires WorldInv(s, w)
    ensures var r := SubmitReport(w.game, bid); r.Commit? ==> WorldInv(s, w.(game := r.value))
  {
    var r := SubmitReport(w.game, bid);
    if r.Commit? && r.value != w.game {
      CaseOnlyKeepsInv(s, w, bid, Case(Open, None));
    }
  }

  lemma CaseOnlyKeepsInv(s: Settings, w: World, bid: BidId, row: Case)
    requires WorldInv(s, w) && bid in w.game.takeovers && !row.status.Removed? && !IsRemoved(w.game, bid)
    ensures WorldInv(s, w.(game := w.game.(cases := w.game.cases[bid := row])))
  {
    var g' := w.game.(cases := w.game.cases[bid := row]);
    assert TakeoverLinked(w.game, bid);
    CaseKeepsInv(s.rules.increment, w.game, bid, row);
    QuietKeepsOthers(s, w, g');
    forall b | b in g'.boards ensures WaitsBehind(g', b) { assert WaitsBehind(w.game, b); }
  }

  lemma ApproveKeepsInv(s: Settings, w: World, bid: BidId, reason: string, now: Time)
    requires WorldInv(s, w)
    ensures var r := ApproveCaseStep(w, bid, reason, now); r.Commit? ==> WorldInv(s, r.value)
  {
    if bid in w.game.cases && w.game.cases[bid].status.Open? {
      CaseOnlyKeepsInv(s, w, bid, Case(Approved, Some(now)));
    }
  }

  lemma RemovalKeepsBids(g: Game, bid: BidId, now: Time)
    requires Linked(g) && bid in g.cases
    ensures var g' := RemoveTakeover(g, bid, now);
            && g'.bids.Keys == g.bids.Keys && g'.takeovers == g.takeovers && g'.contacts == g.contacts
            && (forall p {:trigger g'.bids[p]} | p in g.bids ::
                  && SameBid(g'.bids[p], g.bids[p]) && g'.bids[p].intent == g.bids[p].intent
                  && (g'.bids[p].status.DemoWon? ==> g.bids[p].status.DemoWon?))
  {
    assert TakeoverLinked(g, bid) && BoardLinked(g, g.takeovers[bid].board);
  }

  lemma RemovalKeepsWaiting(g: Game, bid: BidId, now: Time)
    requires Linked(g) && bid in g.cases && NobodyWaitsForNothing(g)
    ensures NobodyWaitsForNothing(RemoveTakeover(g, bid, now))
  {
    assert TakeoverLinked(g, bid);
    var g' := RemoveTakeover(g, bid, now);
    forall id | id in g'.boards ensures WaitsBehind(g', id) { assert WaitsBehind(g, id); }
  }

  lemma RemovalKeepsPaid(s: Settings, w: World, bid: BidId, now: Time)
    requires WorldInv(s, w) && bid in w.game.cases
    ensures var g' := RemoveTakeover(w.game, bid, now);
            && PaidInv(g', w.books) && IntakeInv(s.risk.globalMax, g', w.intake)
            && SameForBooks(w.game.bids, g'.bids) && NobodyWaitsForNothing(g')
  {
    var g, g', b := w.game, RemoveTakeover(w.game, bid, now), w.books;
    RemovalKeepsBids(g, bid, now);
    RemovalKeepsWaiting(g, bid, now);
    forall i | i in b.collected ensures CollectedOk(g', i) { assert CollectedOk(g, i); }
    forall p | p in g'.bids ensures OwnIntent(g', p) && InputsOk(s.risk.globalMax, g', w.intake, p) {
      assert OwnIntent(g, p) && InputsOk(s.risk.globalMax, g, w.intake, p);
    }
    forall p, q | p in g'.bids && q in g'.bids ensures OwnApproval(g', p, q) { assert OwnApproval(g, p, q); }
  }

  /** Removing a case never violates a constraint: its actions, notice and restoration always commit together. */
  lemma RemoveKeepsWorld(s: Settings, w: World, bid: BidId, reason: string, now: Time)
    requires WorldInv(s, w)
    ensures var r := RemoveCaseStep(w, bid, reason, now);
            if r.Commit? then WorldInv(s, r.value) else r.error == ReasonRequired || (r.error == MissingRow && bid !in w.game.cases)
  {
    var inc := s.rules.increment;
    if ReasonGiven(reason) && bid in w.game.cases && w.game.cases[bid].status.Open? {
      assert TakeoverLinked(w.game, bid);
      RemoveCaseKeepsDesk(inc, w.game, w.books, w.desk, bid, now);
      RemoveCaseQueues(inc, w.game, w.books, w.desk, bid, now);
      RemoveKeepsInv(inc, w.game, bid, now);
      RemovalKeepsPaid(s, w, bid, now);
      BooksIgnoreGame(w.game.bids, RemoveTakeover(w.game, bid, now).bids, w.books);
    }
  }

  // ----- rollover -----

  lemma ResetBoardIsQuiet(inc: nat, g: Game, id: BoardId, releases: Releases, now: Time)
    requires GameInv(inc, g) && id in g.boards && ResetBoard(g, id, releases, now).Commit?
    ensures Quiet(g, ResetBoard(g, id, releases, now).value)
  {
    assert BoardLinked(g, id);
  }

  lemma {:induction false} ResetBoardsKeepWorld(s: Settings, w: World, ids: seq<BoardId>, releases: Releases, now: Time)
    requires WorldInv(s, w) && forall i | 0 <= i < |ids| :: ids[i] in w.game.boards
    requires ResetBoards(w.game, ids, releases, now).Commit?
    ensures WorldInv(s, w.(game := ResetBoards(w.game, ids, releases, now).value))
    decreases |ids|
  {
    if ids != [] {
      var last := |ids| - 1;
      ResetBoardsKeepWorld(s, w, ids[..last], releases, now);
      var w1 := w.(game := ResetBoards(w.game, ids[..last], releases, now).value);
      ResetBoardKeepsInv(s.rules.increment, w1.game, ids[last], releases, now);
      ResetBoardIsQuiet(s.rules.increment, w1.game, ids[last], releases, now);
      var g' := ResetBoard(w1.game, ids[last], releases, now).value;
      QuietKeepsOthers(s, w1, g');
      forall b | b in g'.boards ensures WaitsBehind(g', b) { assert WaitsBehind(w1.game, b); }
    }
  }

  lemma RollOverKeepsOne(periods: Periods, competition: CompetitionId, now: Time)
    requires forall k, l {:trigger SameActive(periods, k, l)} | k in periods && l in periods :: SameActive(periods, k, l)
    ensures var after := RollOver(periods, competition, now);
            && forall k, l {:trigger SameActive(after, k, l)} | k in after && l in after :: SameActive(after, k, l)
  {
    var after := RollOver(periods, competition, now);
    forall k, l | k in after && l in after ensures SameActive(after, k, l) {
      if k in periods && l in periods { assert SameActive(periods, k, l); }
    }
  }

  lemma ResetKeepsWorld(s: Settings, w: World, competition: CompetitionId, ids: seq<BoardId>, releases: Releases, now: Time)
    requires WorldInv(s, w) && forall i | 0 <= i < |ids| :: ids[i] in w.game.boards
    ensures var r := ResetStep(w, competition, ids, releases, now); r.Commit? ==> WorldInv(s, r.value.0)
  {
    var r := ResetStep(w, competition, ids, releases, now);
    if r.Commit? && !AlreadyReset(w.intake.periods, competition, now) {
      ResetBoardsKeepWorld(s, w, ids, releases, now);
      var w1 := w.(game := r.value.0.game);
      RollOverKeepsOne(w.intake.periods, competition, now);
      assert ConsumesInputs(s, w1, r.value.0);
      ConsumingKeepsCore(s, w1, r.value.0);
    }
  }

  // ----- workers -----

  lemma BeginKeepsWorld(s: Settings, w: World, bid: BidId, now: Time)
    requires WorldInv(s, w) && bid in w.desk.actions
    ensures ActionOk(w.game, w.books, w.desk, bid)
    ensures WorldInv(s, w.(desk := BeginAction(w.game, w.books, w.desk, bid, now)))
  {
    BeginKeepsDesk(s.rules.increment, w.game, w.books, w.desk, bid, now);
  }

  /** The second half of the worker always commits: what it needs is there by then. */
  lemma EndKeepsWorld(s: Settings, w: World, bid: BidId, reply: Option<string>, now: Time)
    requires WorldInv(s, w) && bid in w.desk.actions
    ensures ActionOk(w.game, w.books, w.desk, bid)
    ensures var r := EndAction(w.game, w.books, w.desk, bid, reply, now);
            r.Commit? && WorldInv(s, w.(game := r.value.0, books := r.value.1, desk := r.value.2))
  {
    EndKeepsDesk(s.rules.increment, w.game, w.books, w.desk, bid, reply, now);
    var g', b' := EndAction(w.game, w.books, w.desk, bid, reply, now).value.0, EndAction(w.game, w.books, w.desk, bid, reply, now).value.1;
    EndIsQuiet(s, w, bid, reply, now);
    QuietKeepsPaid(s, w, g');
    forall i | i in b'.collected ensures CollectedOk(g', i) { assert CollectedOk(w.game, i); }
    forall b | b in g'.boards ensures WaitsBehind(g', b) { assert WaitsBehind(w.game, b); }
  }

  lemma EndIsQuiet(s: Settings, w: World, bid: BidId, reply: Option<string>, now: Time)
    requires WorldInv(s, w) && bid in w.desk.actions
    ensures ActionOk(w.game, w.books, w.desk, bid)
    ensures var r := EndAction(w.game, w.books, w.desk, bid, reply, now);
            r.Commit? ==>
              && Quiet(w.game, r.value.0) && r.value.0.boards == w.game.boards
              && r.value.1.collected == w.books.collected && r.value.1.accounts.Keys == w.books.accounts.Keys
              && (forall i {:trigger CollectedOk(w.game, i)} | CollectedOk(w.game, i) :: CollectedOk(r.value.0, i))
  {
    assert ActionOk(w.game, w.books, w.desk, bid);
    if bid in w.game.cases { assert TakeoverLinked(w.game, bid); }
    assert StatusOk(w.game, bid);
  }
}
