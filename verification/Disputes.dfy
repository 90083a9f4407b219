// Refund against dispute: exactly when one hides the other, in a step and in a run.
module Disputes {
  import opened Base
  import opened Pricing
  import opened Rows
  import opened Takeovers
  import opened GameInvariant
  import opened GameSteps
  import opened Books
  import opened BooksInvariant
  import opened BooksSteps
  import opened Desk
  import opened DeskInvariant
  import opened Intake
  import opened Risk
  import opened Protocol
  import opened Safety
  import opened SafetySteps
  import opened EventSteps
  import opened Machine
  import opened Display
  import opened History
  import opened Leases
  import opened Reports
  import opened Guarantees

  // ----- who touches refunded and disputed bids -----

  predicate Late(status: BidStatus) {
    status.Refunded? || status.Disputed?
  }

  /** Bid `p` neither gains nor loses a refund or a dispute. */
  predicate SameLate(g: Game, g': Game, p: BidId) {
    (p in g.bids && Late(g.bids[p].status)) || (p in g'.bids && Late(g'.bids[p].status)) ==>
      p in g.bids && p in g'.bids && g'.bids[p].status == g.bids[p].status
  }

  lemma SettleSameLate(s: Settings, w: World, at: BoardId, now: Time, mode: Option<CaptureReply>, p: BidId)
    requires CoreInv(s, w) && at in w.game.boards
    ensures var r := Settle(w, at, s.rules, now, mode); r.Commit? && SameLate(w.game, r.value.0.game, p)
  {
    FinalizeSameLate(s.rules.increment, w.game, at, s.rules, now, CaptureMode.FreePlay, p);
    FinalizeSameLate(s.rules.increment, w.game, at, s.rules, now, Paid(true), p);
    FinalizeSameLate(s.rules.increment, w.game, at, s.rules, now, Paid(false), p);
  }

  lemma FinalizeSameLate(inc: nat, g: Game, at: BoardId, rules: BoardRules, now: Time, mode: CaptureMode, p: BidId)
    requires GameInv(inc, g) && at in g.boards
    ensures var r := FinalizeLocked(g, at, rules, now, mode); r.Commit? && SameLate(g, r.value.0, p)
  {
    FinalizeKeepsInv(inc, g, at, rules, now, mode);
    assert BoardOk(inc, g, at);
  }

  lemma ChallengeSameLate(inc: nat, g: Game, bid: BidId, intent: Option<IntentId>, now: Time, p: BidId)
    requires GameInv(inc, g) && bid in g.bids && Undecided(g.bids[bid].status)
    ensures SameLate(g, Challenge(g, bid, intent, now), p)
  {
    assert BidLinked(g, bid) && BoardOk(inc, g, g.bids[bid].board);
  }

  lemma CheckoutSameLate(s: Settings, w: World, bid: BidId, o: Offer, x: Session, now: Time, due: CaptureReply, p: BidId)
    requires WorldInv(s, w) && o.board in w.game.boards && bid !in w.game.bids
    ensures var r := CreateCheckout(w, bid, o, x, s, now, due); r.Commit? ==> SameLate(w.game, r.value.game, p)
  {
    SettleSameLate(s, w, o.board, now, Some(due), p);
    SettleLinks(w, o.board, s.rules, now, Some(due));
  }

  lemma PlaySameLate(s: Settings, w: World, bid: BidId, now: Time, p: BidId)
    requires WorldInv(s, w) && MayCompete(s, w.game, bid) && Undecided(w.game.bids[bid].status)
    ensures var r := PlaceFreePlay(w, bid, s.rules, now); r.Commit? ==> SameLate(w.game, r.value.0.game, p)
  {
    ChallengeSameLate(s.rules.increment, w.game, bid, None, now, p);
  }

  lemma PlaceSameLate(s: Settings, w: World, bid: BidId, o: Offer, now: Time, p: BidId)
    requires WorldInv(s, w) && o.board in w.game.boards && bid !in w.game.bids
    ensures var r := PlaceBid(w, bid, o, s.rules, now); r.Commit? ==> SameLate(w.game, r.value.0.game, p)
  {
    var priced := PriceOffer(w, o, s.rules);
    if priced.Commit? && CheckPlayer(w, o.user).Commit? {
      var row := NewBid(o, priced.value, None, None, Created, None);
      var competition := w.game.boards[o.board].competition;
      ClearsPriceIffBeatsBoth(priced.value, w.game.boards[o.board].amount, s.rules, PendingAmount(w.game, o.board));
      AddFreePlayKeepsInv(s, w, bid, row, competition, now);
      PlaySameLate(s, w.(game := w.game.(bids := w.game.bids[bid := row]),
                         intake := w.intake.(periods := EnsureActive(w.intake.periods, competition, now))), bid, now, p);
    }
  }

  lemma FreePlaySameLate(s: Settings, w: World, bid: BidId, o: Offer, now: Time, p: BidId)
    requires WorldInv(s, w) && o.board in w.game.boards && bid !in w.game.bids
    ensures var r := CreateBid(w, bid, o, s.rules, now); r.Commit? ==> SameLate(w.game, r.value.0.game, p)
  {
    SettleSameLate(s, w, o.board, now, None, p);
    FreeSettleKeepsInv(s, w, o.board, now);
    PlaceSameLate(s, Settle(w, o.board, s.rules, now, None).value.0, bid, o, now, p);
  }

  lemma AcceptSameLate(s: Settings, w: World, bid: BidId, intent: IntentId, now: Time, own: CaptureReply, p: BidId)
    requires WorldInv(s, w) && MayCompete(s, w.game, bid) && intent.owner == bid && Undecided(w.game.bids[bid].status)
    ensures var w1 := w.(game := Challenge(w.game, bid, Some(intent), now));
            var id := w.game.bids[bid].board;
            && Linked(w1.game) && id in w1.game.boards && SameLate(w.game, w1.game, p)
            && var r := SettlePaid(w1, id, s.rules, now, own); r.Commit? && SameLate(w.game, r.value.0.game, p)
  {
    var w1, id := w.(game := Challenge(w.game, bid, Some(intent), now)), w.game.bids[bid].board;
    ChallengeSameLate(s.rules.increment, w.game, bid, Some(intent), now, p);
    ChallengeKeepsWorld(s, w, bid, Some(intent), now);
    ChallengeLinks(w.game, bid, Some(intent), now);
    SettleSameLate(s, w1, id, now, Some(own), p);
  }

  lemma PlaceChallengerSameLate(s: Settings, w: World, bid: BidId, intent: IntentId, now: Time, own: CaptureReply, queueUp: bool, p: BidId)
    requires WorldInv(s, w) && bid in w.game.bids && intent.owner == bid && AwaitingAuthorization(w.game.bids[bid].status)
    requires w.game.bids[bid].board in w.game.boards
    ensures var r := PlaceChallenger(w, bid, intent, s.rules, now, own, queueUp); r.Commit? ==> SameLate(w.game, r.value.0.game, p)
  {
    var row := w.game.bids[bid];
    if row.amount >= RequiredCents(w.game, row.board, s.rules) {
      ClearsPriceIffBeatsBoth(row.amount, w.game.boards[row.board].amount, s.rules, PendingAmount(w.game, row.board));
      AcceptSameLate(s, w, bid, intent, now, own, p);
    }
  }

  lemma AuthorizationSameLate(s: Settings, w: World, step: Step, now: Time, p: BidId)
    requires WorldInv(s, w) && Enabled(w, step) && step.Authorization?
    ensures SameLate(w.game, Apply(s, w, step, now).game, p)
  {
    var e := step.event;
    if KnownBid(w.game, e) && e.intent.Some? && AwaitingAuthorization(w.game.bids[e.bid.value].status) {
      var id := w.game.bids[e.bid.value].board;
      SettleSparesNewcomer(s, w, e.bid.value, now, step.due);
      SettleSameLate(s, w, id, now, Some(step.due), p);
      PlaceChallengerSameLate(s, SettlePaid(w, id, s.rules, now, step.due).value.0, e.bid.value, e.intent.value, now, step.own, step.queueUp, p);
    }
  }

  lemma {:induction false} ResetSameLate(g: Game, ids: seq<BoardId>, releases: Releases, now: Time, p: BidId)
    requires Linked(g) && forall i | 0 <= i < |ids| :: ids[i] in g.boards
    ensures var r := ResetBoards(g, ids, releases, now); r.Commit? ==> SameLate(g, r.value, p)
    decreases |ids|
  {
    if ids != [] { ResetSameLate(g, ids[..|ids| - 1], releases, now, p); }
  }

  lemma BiddingSameLate(s: Settings, w: World, step: Step, now: Time, p: BidId)
    requires WorldInv(s, w) && Enabled(w, step)
    requires step.Checkout? || step.FreePlay? || step.FinalizeDue?
    ensures SameLate(w.game, Apply(s, w, step, now).game, p)
  {
    match step
    case Checkout(bid, o, x, due) => CheckoutSameLate(s, w, bid, o, x, now, due, p);
    case FreePlay(bid, o) => FreePlaySameLate(s, w, bid, o, now, p);
    case FinalizeDue(b, expected, mode) => SettleSameLate(s, w, b, now, mode, p);
  }

  lemma RewritesSameLate(s: Settings, w: World, step: Step, now: Time, p: BidId)
    requires Enabled(w, step) && RewritesRows(step) && !step.DisputeOpened?
    ensures SameLate(w.game, Apply(s, w, step, now).game, p)
  {
  }

  lemma RemovalSameLate(s: Settings, w: World, bid: BidId, reason: string, now: Time, p: BidId)
    requires Linked(w.game)
    ensures var r := RemoveCaseStep(w, bid, reason, now); r.Commit? ==> SameLate(w.game, r.value.game, p)
  {
  }

  /** Only two steps concern themselves with refunds and disputes. */
  lemma OthersSameLate(s: Settings, w: World, step: Step, now: Time, p: BidId)
    requires WorldInv(s, w) && Enabled(w, step) && !step.EndPayment? && !step.DisputeOpened?
    ensures SameLate(w.game, Apply(s, w, step, now).game, p)
  {
    if SparesGame(step) {
      GameIsSpared(s, w, step, now);
    } else if step.Checkout? || step.FreePlay? || step.FinalizeDue? {
      BiddingSameLate(s, w, step, now, p);
    } else if step.Authorization? {
      AuthorizationSameLate(s, w, step, now, p);
    } else if step.Reset? {
      ResetSameLate(w.game, step.ids, step.releases, now, p);
    } else if step.Remove? {
      RemovalSameLate(s, w, step.about, step.reason, now, p);
    } else {
      RewritesSameLate(s, w, step, now, p);
    }
  }

  // ----- one step -----

  /** The answer that completes a refund: the provider confirms the request of `p`'s own refund action. */
  predicate Refunds(d: Desk, step: Step, p: BidId) {
    && step.EndPayment? && step.about == p && step.answer.Some?
    && p in d.actions && d.actions[p].op.IssueRefund? && d.actions[p].status.ActionProcessing?
  }

  /** A dispute that the provider has not reported before, and that names a capture of `p`. */
  predicate Contests(g: Game, step: Step, p: BidId) {
    && step.DisputeOpened? && step.found == Some(p) && step.dispute.id.Some?
    && forall o | o in g.bids :: g.bids[o].dispute != step.dispute.id
  }

  lemma EndingSetsLate(s: Settings, w: World, step: Step, now: Time, p: BidId)
    requires WorldInv(s, w) && Enabled(w, step) && step.EndPayment? && p in w.game.bids
    ensures var g' := Apply(s, w, step, now).game;
            p in g'.bids && if Refunds(w.desk, step, p) then g'.bids[p].status.Refunded? else g'.bids[p] == w.game.bids[p]
  {
    assert ActionOk(w.game, w.books, w.desk, step.about);
    EndKeepsWorld(s, w, step.about, step.answer, now);
  }

  lemma DisputingSetsLate(s: Settings, w: World, step: Step, now: Time, p: BidId)
    requires Enabled(w, step) && step.DisputeOpened? && p in w.game.bids
    ensures var g' := Apply(s, w, step, now).game;
            p in g'.bids && if Contests(w.game, step, p) then g'.bids[p].status.Disputed? else g'.bids[p] == w.game.bids[p]
  {
  }

  /**
   Exactly when a step changes whether a bid is refunded or disputed: it becomes refunded when the provider confirms
   its own refund, and disputed when a dispute arrives that is new and names it, whatever its status was before.
   */
  lemma LateExactlyWhen(s: Settings, w: World, step: Step, now: Time, p: BidId)
    requires WorldInv(s, w) && Enabled(w, step) && p in w.game.bids
    ensures var g, g' := w.game, Apply(s, w, step, now).game;
            && p in g'.bids
            && (g'.bids[p].status.Refunded? <==>
                  Refunds(w.desk, step, p) || (g.bids[p].status.Refunded? && !Contests(g, step, p)))
            && (g'.bids[p].status.Disputed? <==>
                  Contests(g, step, p) || (g.bids[p].status.Disputed? && !Refunds(w.desk, step, p)))
  {
    if step.EndPayment? {
      EndingSetsLate(s, w, step, now, p);
    } else if step.DisputeOpened? {
      DisputingSetsLate(s, w, step, now, p);
    } else {
      OthersSameLate(s, w, step, now, p);
      StepAges(s, w, step, now);
      assert BidAges(w.game, Apply(s, w, step, now).game, p);
    }
  }

  // ----- runs: which disputes can be hidden -----

  /** A refund of `p` is promised and not settled, and its net amount is positive or not yet known. */
  predicate Hideable(w: World, p: BidId) {
    && p in w.desk.actions && Unsettled(w.desk.actions[p])
    && p in w.game.bids && p in w.books.captures
    && (w.books.captures[p].available ==> NetRefund(w.game, w.books, p).Some? && NetRefund(w.game, w.books, p).value > 0)
  }

  ghost predicate Contested(w: World, p: BidId) {
    p in w.game.bids && w.game.bids[p].status.Disputed? && p in w.books.captures
  }

  lemma RefundingIsHideable(s: Settings, w: World, step: Step, p: BidId)
    requires WorldInv(s, w) && Contested(w, p) && Refunds(w.desk, step, p)
    ensures Hideable(w, p)
  {
    assert ActionOk(w.game, w.books, w.desk, p);
  }

  /** A fee that is known does not change, and neither does what a refund would be. */
  lemma KnownNetStays(w: World, w': World, p: BidId)
    requires Ages(w, w') && p in w.game.bids && p in w.books.captures && w.books.captures[p].available
    ensures p in w'.game.bids && p in w'.books.captures && w'.books.captures[p].available
    ensures NetRefund(w'.game, w'.books, p) == NetRefund(w.game, w.books, p)
  {
    assert BidAges(w.game, w'.game, p) && Extends(w.books.captures[p], w'.books.captures[p]);
  }

  /** No refund of `p` is newly promised. */
  predicate PromisesNothing(d: Desk, d': Desk, p: BidId) {
    p in d'.actions && Unsettled(d'.actions[p]) ==> p in d.actions && Unsettled(d.actions[p])
  }

  lemma QueueingPromisesNothing(d: Desk, caseOf: BidId, id: BidId, row: Bid, now: Time, p: BidId)
    requires id == p ==> row.status.Disputed?
    ensures var r := PaymentActionFor(d, caseOf, id, row, now); r.Commit? ==> PromisesNothing(d, r.value, p)
  {
  }

  lemma RemovalPromisesNothing(inc: nat, g: Game, d: Desk, c: BidId, now: Time, p: BidId)
    requires GameInv(inc, g) && c in g.cases && p in g.bids && g.bids[p].status.Disputed?
    ensures var r := RemoveCase(g, d, c, now); r.Commit? ==> PromisesNothing(d, r.value.1, p)
  {
    var r := RemoveCase(g, d, c, now);
    if r.Commit? && g.cases[c].status.Open? {
      assert TakeoverLinked(g, c) && BidLinked(g, c) && BoardLinked(g, g.takeovers[c].board);
      var board := g.boards[g.takeovers[c].board];
      assert BoardOk(inc, g, g.takeovers[c].board);
      QueueingPromisesNothing(d, c, c, g.bids[c], now, p);
      if board.current == Some(c) && board.pending.Some? {
        var q := board.pending.value;
        QueueingPromisesNothing(d, c, q, g.bids[q], now, p);
        QueueingPromisesNothing(PaymentActionFor(d, c, q, g.bids[q], now).value, c, c, g.bids[c], now, p);
      }
      assert r.value.1.actions == QueueWork(g, d, c, now).value.actions;
    }
  }

  lemma BeginPromisesNothing(g: Game, b: Books, d: Desk, id: BidId, now: Time, p: BidId)
    requires Linked(g) && id in d.actions && id in g.bids && d.actions[id].caseOf in g.cases
    ensures PromisesNothing(d, BeginAction(g, b, d, id, now), p)
  {
  }

  lemma EndPromisesNothing(g: Game, b: Books, d: Desk, id: BidId, reply: Option<string>, now: Time, p: BidId)
    requires Linked(g) && id in d.actions && id in g.bids && d.actions[id].caseOf in g.cases
    ensures var r := EndAction(g, b, d, id, reply, now); r.Commit? ==> PromisesNothing(d, r.value.2, p)
  {
  }

  /** No step promises a refund for a bid that is already disputed. */
  lemma StepPromisesNothing(s: Settings, w: World, step: Step, now: Time, p: BidId)
    requires WorldInv(s, w) && Enabled(w, step) && p in w.game.bids && w.game.bids[p].status.Disputed?
    ensures PromisesNothing(w.desk, Apply(s, w, step, now).desk, p)
  {
    if step.Remove? {
      if step.about in w.game.cases { RemovalPromisesNothing(s.rules.increment, w.game, w.desk, step.about, now, p); }
    } else if step.BeginPayment? {
      BeginPromisesNothing(w.game, w.books, w.desk, step.about, now, p);
    } else if step.EndPayment? {
      EndPromisesNothing(w.game, w.books, w.desk, step.about, step.answer, now, p);
    } else if !MovesMail(step) {
      DeskIsSpared(s, w, step, now);
    }
  }

  /** A dispute that cannot be hidden stands, and cannot be hidden later either. */
  lemma DisputeStands(s: Settings, w: World, step: Step, now: Time, p: BidId)
    requires WorldInv(s, w) && Enabled(w, step) && Contested(w, p) && !Hideable(w, p)
    ensures var w' := Apply(s, w, step, now); Contested(w', p) && !Hideable(w', p)
  {
    var w' := Apply(s, w, step, now);
    StepAges(s, w, step, now);
    LateExactlyWhen(s, w, step, now, p);
    if Refunds(w.desk, step, p) { RefundingIsHideable(s, w, step, p); }
    assert Extends(w.books.captures[p], w'.books.captures[p]);
    StepPromisesNothing(s, w, step, now, p);
    if w.books.captures[p].available { KnownNetStays(w, w', p); }
  }

  lemma {:induction false} DisputeStandsAlong(s: Settings, ws: seq<World>, ms: seq<Moment>, p: BidId, j: nat)
    requires Follows(s, ws, ms) && WorldInv(s, ws[0]) && Contested(ws[0], p) && !Hideable(ws[0], p) && j < |ws|
    ensures WorldInv(s, ws[j]) && Contested(ws[j], p) && !Hideable(ws[j], p)
    decreases j
  {
    if j > 0 {
      DisputeStandsAlong(s, ws, ms, p, j - 1);
      assert Connects(s, ws, ms, j - 1);
      StepKeepsInv(s, ws[j - 1], ms[j - 1].step, ms[j - 1].at);
      DisputeStands(s, ws[j - 1], ms[j - 1].step, ms[j - 1].at, p);
    }
  }

  // ----- what a run establishes about refunded and disputed bids -----

  /** Only captured bids are refunded or disputed. */
  predicate LateIsCaptured(w: World, p: BidId) {
    p in w.game.bids && Late(w.game.bids[p].status) ==> p in w.books.captures
  }

  /** No bid is refunded or disputed as soon as it appears. */
  lemma NeverLateAtOnce(s: Settings, w: World, step: Step, now: Time, p: BidId)
    requires WorldInv(s, w) && Enabled(w, step) && p !in w.game.bids
    ensures var g' := Apply(s, w, step, now).game; p in g'.bids ==> !Late(g'.bids[p].status)
  {
    if step.EndPayment? {
      EndIsQuiet(s, w, step.about, step.answer, now);
    } else if !step.DisputeOpened? {
      OthersSameLate(s, w, step, now, p);
    }
  }

  lemma StepKeepsLateCaptured(s: Settings, w: World, step: Step, now: Time, p: BidId)
    requires WorldInv(s, w) && Enabled(w, step) && LateIsCaptured(w, p)
    ensures LateIsCaptured(Apply(s, w, step, now), p)
  {
    StepAges(s, w, step, now);
    if p in w.game.bids {
      LateExactlyWhen(s, w, step, now, p);
      if Refunds(w.desk, step, p) { assert ActionOk(w.game, w.books, w.desk, p); }
    } else {
      NeverLateAtOnce(s, w, step, now, p);
    }
  }

  lemma {:induction false} RunsKeepLateCaptured(s: Settings, ws: seq<World>, ms: seq<Moment>, i: nat, p: BidId)
    requires IsRun(s, ws, ms) && i < |ws|
    ensures LateIsCaptured(ws[i], p)
    decreases i
  {
    if i > 0 {
      RunsKeepLateCaptured(s, ws, ms, i - 1, p);
      RunsStayInOrder(s, ws, ms, i - 1);
      assert Connects(s, ws, ms, i - 1);
      StepKeepsLateCaptured(s, ws[i - 1], ms[i - 1].step, ms[i - 1].at, p);
    }
  }

  // ----- how a dispute is hidden -----

  lemma Extended(s: Settings, ws: seq<World>, ms: seq<Moment>, m: Moment)
    requires Follows(s, ws, ms) && Enabled(ws[|ms|], m.step)
    ensures Follows(s, ws + [Apply(s, ws[|ms|], m.step, m.at)], ms + [m])
  {
    var ws', ms' := ws + [Apply(s, ws[|ms|], m.step, m.at)], ms + [m];
    forall i | 0 <= i < |ms'| ensures Connects(s, ws', ms', i) {
      if i < |ms| { assert Connects(s, ws, ms, i); }
    }
  }

  /** A charge whose fee has just become known. */
  function FeeKnown(gross: nat): PaymentIntent {
    PaymentIntent(None, true, None, "", Charge(None, Some(BalanceTransaction(None, Some(0), Some(gross), Some(gross), ""))))
  }

  lemma AmountIsPositive(s: Settings, w: World, p: BidId)
    requires WorldInv(s, w) && Contested(w, p)
    ensures w.books.captures[p].gross == w.game.bids[p].amount > 0
  {
    assert CaptureOk(w.game.bids, w.books, p) && StatusOk(w.game, p);
    assert TakeoverOk(s.rules.increment, w.game, p);
  }

  lemma FeeBecomesKnown(s: Settings, w: World, p: BidId, now: Time)
    requires WorldInv(s, w) && Distinct(w.books.captures) && Contested(w, p) && Hideable(w, p) && !w.books.captures[p].available
    ensures var step := Reconcile(p, Some(FeeKnown(w.books.captures[p].gross)));
            && Enabled(w, step)
            && var w' := Apply(s, w, step, now);
               w'.game == w.game && w'.desk == w.desk && Hideable(w', p) && Contested(w', p) && w'.books.captures[p].available
  {
    AmountIsPositive(s, w, p);
    var c := w.books.captures[p];
    forall o | o in w.books.captures && o != p ensures OwnIds(w.books.captures, p, o) {}
  }

  lemma RefundBegins(s: Settings, w: World, p: BidId, now: Time)
    requires WorldInv(s, w) && Contested(w, p) && Hideable(w, p) && w.books.captures[p].available && !w.desk.actions[p].status.ActionProcessing?
    ensures Enabled(w, BeginPayment(p))
    ensures var w' := Apply(s, w, BeginPayment(p), now);
            w'.game == w.game && p in w'.desk.actions && w'.desk.actions[p].op.IssueRefund? && w'.desk.actions[p].status.ActionProcessing?
  {
    assert ActionOk(w.game, w.books, w.desk, p);
  }

  lemma RefundEnds(s: Settings, w: World, p: BidId, reference: string, now: Time)
    requires WorldInv(s, w) && p in w.game.bids && p in w.desk.actions
    requires w.desk.actions[p].op.IssueRefund? && w.desk.actions[p].status.ActionProcessing?
    ensures Enabled(w, EndPayment(p, Some(reference)))
    ensures var w' := Apply(s, w, EndPayment(p, Some(reference)), now);
            && p in w'.game.bids && w'.game.bids[p].status.Refunded?
            && p in w'.desk.actions && w'.desk.actions[p].op.IssueRefund? && w'.desk.actions[p].status.ActionSucceeded?
  {
    assert ActionOk(w.game, w.books, w.desk, p);
    EndingSetsLate(s, w, EndPayment(p, Some(reference)), now, p);
  }

  lemma FeeRun(s: Settings, w: World, p: BidId, now: Time) returns (ws: seq<World>, ms: seq<Moment>)
    requires WorldInv(s, w) && Distinct(w.books.captures) && Contested(w, p) && Hideable(w, p)
    ensures Follows(s, ws, ms) && ws[0] == w && |ms| <= 1
    ensures WorldInv(s, ws[|ms|]) && Contested(ws[|ms|], p) && Hideable(ws[|ms|], p) && ws[|ms|].books.captures[p].available
  {
    ws, ms := [w], [];
    if !w.books.captures[p].available {
      FeeBecomesKnown(s, w, p, now);
      var step := Reconcile(p, Some(FeeKnown(w.books.captures[p].gross)));
      StepKeepsInv(s, w, step, now);
      Extended(s, ws, ms, Moment(step, now));
      ws, ms := ws + [Apply(s, w, step, now)], ms + [Moment(step, now)];
    }
  }

  lemma BeginRun(s: Settings, w: World, p: BidId, now: Time) returns (ws: seq<World>, ms: seq<Moment>)
    requires WorldInv(s, w) && Distinct(w.books.captures) && Contested(w, p) && Hideable(w, p)
    ensures Follows(s, ws, ms) && ws[0] == w && |ms| <= 2
    ensures WorldInv(s, ws[|ms|]) && p in ws[|ms|].game.bids && p in ws[|ms|].desk.actions
    ensures ws[|ms|].desk.actions[p].op.IssueRefund? && ws[|ms|].desk.actions[p].status.ActionProcessing?
  {
    ws, ms := FeeRun(s, w, p, now);
    var w1 := ws[|ms|];
    if !w1.desk.actions[p].status.ActionProcessing? {
      RefundBegins(s, w1, p, now);
      StepKeepsInv(s, w1, BeginPayment(p), now);
      Extended(s, ws, ms, Moment(BeginPayment(p), now));
      ws, ms := ws + [Apply(s, w1, BeginPayment(p), now)], ms + [Moment(BeginPayment(p), now)];
    }
  }

  /** From a hideable dispute, at most three steps of the workers hide it. */
  lemma DisputeIsHidden(s: Settings, w: World, p: BidId, reference: string, now: Time) returns (ws: seq<World>, ms: seq<Moment>)
    requires WorldInv(s, w) && Distinct(w.books.captures) && Contested(w, p) && Hideable(w, p)
    ensures Follows(s, ws, ms) && ws[0] == w && |ms| <= 3
    ensures p in ws[|ms|].game.bids && ws[|ms|].game.bids[p].status.Refunded?
  {
    ws, ms := BeginRun(s, w, p, now);
    var last := EndPayment(p, Some(reference));
    RefundEnds(s, ws[|ms|], p, reference, now);
    Extended(s, ws, ms, Moment(last, now));
    ws, ms := ws + [Apply(s, ws[|ms|], last, now)], ms + [Moment(last, now)];
  }

  /** Some continuation of `w` ends with bid `p` refunded. */
  ghost predicate MayEndRefunded(s: Settings, w: World, p: BidId) {
    exists ws: seq<World>, ms: seq<Moment> {:trigger Follows(s, ws, ms)} ::
      Follows(s, ws, ms) && ws[0] == w && p in ws[|ms|].game.bids && ws[|ms|].game.bids[p].status.Refunded?
  }

  /**
   Which disputes can be hidden: in every reachable state, a disputed bid turns into a refunded one in some
   continuation exactly if a refund of it is promised, not settled, and not known to come to nothing.
   */
  lemma DisputeHiddenExactlyWhen(s: Settings, ws: seq<World>, ms: seq<Moment>, i: nat, p: BidId, now: Time)
    requires IsRun(s, ws, ms) && i < |ws| && p in ws[i].game.bids && ws[i].game.bids[p].status.Disputed?
    ensures MayEndRefunded(s, ws[i], p) <==> Hideable(ws[i], p)
  {
    var w := ws[i];
    RunsStayInOrder(s, ws, ms, i);
    RunsKeepLateCaptured(s, ws, ms, i, p);
    IdentifiersStayDistinct(s, ws, ms, i);
    if Hideable(w, p) {
      var cs, cms := DisputeIsHidden(s, w, p, "refund", now);
    } else if MayEndRefunded(s, w, p) {
      var cs: seq<World>, cms: seq<Moment> :| Follows(s, cs, cms) && cs[0] == w && p in cs[|cms|].game.bids && cs[|cms|].game.bids[p].status.Refunded?;
      DisputeStandsAlong(s, cs, cms, p, |cms|);
    }
  }

  // ----- how a refund is contested -----

  /** A dispute identifier that no bid carries. */
  lemma {:induction false} UnusedDispute(bids: map<BidId, Bid>) returns (n: nat)
    ensures forall p | p in bids :: bids[p].dispute.Some? ==> bids[p].dispute.value < n
    decreases |bids|
  {
    if bids == map[] {
      n := 0;
    } else {
      var p :| p in bids;
      n := UnusedDispute(bids - {p});
      forall q | q in bids && q != p ensures q in bids - {p} && (bids - {p})[q] == bids[q] {}
      if bids[p].dispute.Some? && n <= bids[p].dispute.value { n := bids[p].dispute.value + 1; }
    }
  }

  /** A refunded bid can always be disputed after all: the provider only has to report a new dispute of its payment. */
  lemma RefundCanBeContested(s: Settings, ws: seq<World>, ms: seq<Moment>, i: nat, p: BidId, now: Time) returns (step: Step)
    requires IsRun(s, ws, ms) && i < |ws| && p in ws[i].game.bids && ws[i].game.bids[p].status.Refunded?
    ensures Enabled(ws[i], step) && Contests(ws[i].game, step, p)
    ensures var g' := Apply(s, ws[i], step, now).game; p in g'.bids && g'.bids[p].status.Disputed?
  {
    var w := ws[i];
    RunsStayInOrder(s, ws, ms, i);
    RunsKeepLateCaptured(s, ws, ms, i, p);
    var n := UnusedDispute(w.game.bids);
    step := DisputeOpened(Dispute(Some(n), Some(w.books.captures[p].intent), None, None), Some(p));
    assert CaptureOk(w.game.bids, w.books, p);
    DisputingSetsLate(s, w, step, now, p);
  }

  // ----- what a dispute does to the account -----

  /** What the provider says is disputed, or the whole bid if it does not say. */
  function DisputedAmount(d: Dispute, row: Bid): int {
    if d.amount.None? || d.amount.value == 0 then row.amount else d.amount.value
  }

  /**
   A dispute that changes anything makes its bid disputed and suspends the bidder at once: one more dispute, an open case,
   and no paid bidding. It writes one chargeback of what is disputed, unless the bid already has one, and touches no other
   bid or account. It is refused exactly if another bid carries it, and a repeated one changes nothing.
   */
  lemma DisputeSuspends(s: Settings, w: World, d: Dispute, found: Option<BidId>, now: Time)
    requires WorldInv(s, w) && FindsDisputed(w.books, d, found)
    ensures var r := DisputeEvent(w, d, found, now);
            if found.None? || found.value !in w.game.bids || d.id.None? || w.game.bids[found.value].dispute == d.id
            then r == Commit(w)
            else if exists o {:trigger w.game.bids[o]} | o in w.game.bids :: w.game.bids[o].dispute == d.id
            then r == Abort(ConstraintViolated)
            else
              var row, b := w.game.bids[found.value], w.books;
              && r.Commit? && r.value == w.(game := r.value.game, books := r.value.books)
              && r.value.game == w.game.(bids := w.game.bids[found.value := row.(status := Disputed, dispute := d.id)])
              && row.bidder in b.accounts
              && var a, b' := b.accounts[row.bidder], r.value.books;
              && b'.accounts == b.accounts[row.bidder := a.(disputes := a.disputes + 1, openDispute := true, suspended := true,
                                                            lastDisputeAt := Some(now), tier := Suspended)]
              && b'.captures == b.captures && b'.collected == b.collected && b'.requests == b.requests
              && b'.ledger == b.ledger + if HasEntry(b.ledger, Chargeback, found.value) then []
                                         else [Entry(kind := Chargeback, amount := -DisputedAmount(d, row), user := row.bidder,
                                                     entity := row.entity, bid := found.value)]
  {
    if found.Some? && found.value in w.game.bids { assert BidLinked(w.game, found.value); }
  }

  /** No checkout of an account under dispute opens, whatever it offers. */
  lemma SuspendedCannotCheckOut(s: Settings, w: World, id: BidId, o: Offer, x: Session, now: Time, due: CaptureReply)
    requires WorldInv(s, w) && o.board in w.game.boards && id !in w.game.bids
    requires o.user in w.books.accounts && UnderDispute(w.books, o.user)
    ensures CreateCheckout(w, id, o, x, s, now, due).Abort?
  {
    SettlingAccounts(w, o.board, s.rules, now, Some(due));
    var settled := SettlePaid(w, o.board, s.rules, now, due);
    CheckoutOpensExactlyWhen(s, w, id, o, x, now, due);
    if settled.Commit? && o.amount.Floor >= 0 {
      assert UnderDispute(settled.value.0.books, o.user);
      assert !Meets(AccountSuspended, settled.value.0.books.accounts[o.user], s.risk, o.amount.Floor * 100, x.facts, now);
    }
  }

  /** After a dispute that changed anything, no checkout of its bidder ever opens again in the run. */
  lemma DisputeEndsPaidBidding(s: Settings, ws: seq<World>, ms: seq<Moment>, i: nat, j: nat, id: BidId, o: Offer, x: Session, now: Time, due: CaptureReply)
    requires IsRun(s, ws, ms) && i < j < |ws| && ms[i].step.DisputeOpened? && ws[i + 1] != ws[i]
    requires ms[i].step.found.Some? && ms[i].step.found.value in ws[i].game.bids && o.user == ws[i].game.bids[ms[i].step.found.value].bidder
    requires o.board in ws[j].game.boards && id !in ws[j].game.bids
    ensures Linked(ws[j].game) && CreateCheckout(ws[j], id, o, x, s, now, due).Abort?
  {
    RunsStayInOrder(s, ws, ms, i);
    assert Connects(s, ws, ms, i);
    DisputeSuspends(s, ws[i], ms[i].step.dispute, ms[i].step.found, ms[i].at);
    DisputesStayOpen(s, ws, ms, i + 1, j, o.user);
    RunsStayInOrder(s, ws, ms, j);
    SuspendedCannotCheckOut(s, ws[j], id, o, x, now, due);
  }
}
