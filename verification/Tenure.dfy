// From publication on: every takeover is shown for the whole time it was promised.
module Tenure {
  import opened Base
  import opened Pricing
  import opened Rows
  import opened Takeovers
  import opened GameInvariant
  import opened GameSteps
  import opened Books
  import opened Desk
  import opened DeskInvariant
  import opened Intake
  import opened Protocol
  import opened Safety
  import opened SafetySteps
  import opened EventSteps
  import opened Machine
  import opened Display
  import opened Provenance
  import opened Rollover

  /** A takeover that appears is live, with its full guarantee ahead. */
  ghost predicate Debuts(g: Game, g': Game, rules: BoardRules, now: Time, t: BidId) {
    t in g'.takeovers && t !in g.takeovers ==>
      && var id := g'.takeovers[t].board;
      && id in g'.boards && g'.boards[id].current == Some(t)
      && g'.boards[id].guaranteedUntil == Some(now + rules.displaySeconds * SECOND)
  }

  ghost predicate KeepsBoard(inc: nat, g: Game, g': Game, now: Time, id: BoardId)
    requires id in g.boards
  {
    id in g'.boards && KeptOrTaken(inc, g.boards[id], g'.boards[id], now)
  }

  ghost predicate KeepsBoards(inc: nat, g: Game, g': Game, now: Time) {
    forall id {:trigger KeepsBoard(inc, g, g', now, id)} | id in g.boards :: KeepsBoard(inc, g, g', now, id)
  }

  /** A debut in the first half of a step survives the second half. */
  lemma DebutSurvives(inc: nat, g: Game, g1: Game, g': Game, rules: BoardRules, now: Time, t: BidId)
    requires rules.displaySeconds > 0 && Debuts(g, g1, rules, now, t) && Debuts(g1, g', rules, now, t)
    requires g1.takeovers.Keys <= g'.takeovers.Keys && (t in g1.takeovers ==> g'.takeovers[t] == g1.takeovers[t])
    requires KeepsBoards(inc, g1, g', now)
    ensures Debuts(g, g', rules, now, t)
  {
    if t in g1.takeovers && t !in g.takeovers {
      var id := g1.takeovers[t].board;
      assert KeepsBoard(inc, g1, g', now, id);
      assert Protected(g1.boards[id], now);
    }
  }

  lemma FinalizeDebuts(inc: nat, g: Game, at: BoardId, rules: BoardRules, now: Time, mode: CaptureMode, t: BidId)
    requires GameInv(inc, g) && at in g.boards
    ensures var r := FinalizeLocked(g, at, rules, now, mode); r.Commit? && Debuts(g, r.value.0, rules, now, t)
  {
    FinalizeKeepsInv(inc, g, at, rules, now, mode);
  }

  lemma SettleDebuts(s: Settings, w: World, at: BoardId, now: Time, mode: Option<CaptureReply>, t: BidId)
    requires CoreInv(s, w) && at in w.game.boards
    ensures var r := Settle(w, at, s.rules, now, mode); r.Commit? && Debuts(w.game, r.value.0.game, s.rules, now, t)
  {
    FinalizeDebuts(s.rules.increment, w.game, at, s.rules, now, CaptureMode.FreePlay, t);
    FinalizeDebuts(s.rules.increment, w.game, at, s.rules, now, Paid(true), t);
    FinalizeDebuts(s.rules.increment, w.game, at, s.rules, now, Paid(false), t);
  }

  lemma SettleKeepsTakeovers(s: Settings, w: World, at: BoardId, now: Time, mode: Option<CaptureReply>)
    requires Linked(w.game) && at in w.game.boards
    ensures var r := Settle(w, at, s.rules, now, mode);
            r.Commit? ==>
              && w.game.takeovers.Keys <= r.value.0.game.takeovers.Keys
              && forall t | t in w.game.takeovers :: r.value.0.game.takeovers[t] == w.game.takeovers[t]
  {
    FinalizeKeepsTakeovers(w.game, at, s.rules, now, CaptureMode.FreePlay);
    FinalizeKeepsTakeovers(w.game, at, s.rules, now, Paid(true));
    FinalizeKeepsTakeovers(w.game, at, s.rules, now, Paid(false));
  }

  lemma FinalizeKeepsTakeovers(g: Game, at: BoardId, rules: BoardRules, now: Time, mode: CaptureMode)
    requires Linked(g) && at in g.boards
    ensures var r := FinalizeLocked(g, at, rules, now, mode);
            r.Commit? ==>
              && g.takeovers.Keys <= r.value.0.takeovers.Keys
              && forall t | t in g.takeovers :: r.value.0.takeovers[t] == g.takeovers[t]
  {
  }

  // ----- free play -----

  lemma PlaceBidDebuts(s: Settings, w: World, bid: BidId, o: Offer, now: Time, t: BidId)
    requires Linked(w.game) && o.board in w.game.boards && bid !in w.game.bids
    ensures var r := PlaceBid(w, bid, o, s.rules, now);
            r.Commit? ==>
              && Debuts(w.game, r.value.0.game, s.rules, now, t)
              && w.game.takeovers.Keys <= r.value.0.game.takeovers.Keys
              && (t in w.game.takeovers ==> r.value.0.game.takeovers[t] == w.game.takeovers[t])
  {
    var priced := PriceOffer(w, o, s.rules);
    if priced.Commit? && CheckPlayer(w, o.user).Commit? {
      var row := NewBid(o, priced.value, None, None, Created, None);
      NewBidLinks(w.game, bid, row);
      var placed := w.(game := w.game.(bids := w.game.bids[bid := row]),
                       intake := w.intake.(periods := EnsureActive(w.intake.periods, w.game.boards[o.board].competition, now)));
      PlayDebuts(placed, bid, s.rules, now, t);
    }
  }

  lemma PlayDebuts(w: World, bid: BidId, rules: BoardRules, now: Time, t: BidId)
    requires Linked(w.game) && bid in w.game.bids
    ensures var r := PlaceFreePlay(w, bid, rules, now);
            r.Commit? ==>
              && Debuts(w.game, r.value.0.game, rules, now, t)
              && w.game.takeovers.Keys <= r.value.0.game.takeovers.Keys
              && (t in w.game.takeovers ==> r.value.0.game.takeovers[t] == w.game.takeovers[t])
  {
    assert BidLinked(w.game, bid);
  }

  lemma FreePlayDebuts(s: Settings, w: World, bid: BidId, o: Offer, now: Time, t: BidId)
    requires WorldInv(s, w) && o.board in w.game.boards && bid !in w.game.bids && s.rules.displaySeconds > 0
    ensures var r := CreateBid(w, bid, o, s.rules, now); r.Commit? ==> Debuts(w.game, r.value.0.game, s.rules, now, t)
  {
    SettleDebuts(s, w, o.board, now, None, t);
    FreeSettleKeepsInv(s, w, o.board, now);
    var w1 := Settle(w, o.board, s.rules, now, None).value.0;
    PlaceBidDebuts(s, w1, bid, o, now, t);
    var r := PlaceBid(w1, bid, o, s.rules, now);
    if r.Commit? {
      forall id | id in w1.game.boards ensures KeepsBoard(s.rules.increment, w1.game, r.value.0.game, now, id) {
        PlaceBidOnBoard(s, w1, bid, o, now, id);
      }
      DebutSurvives(s.rules.increment, w.game, w1.game, r.value.0.game, s.rules, now, t);
    }
  }

  // ----- authorizations -----

  lemma AcceptDebuts(s: Settings, w: World, bid: BidId, intent: IntentId, now: Time, own: CaptureReply, t: BidId)
    requires WorldInv(s, w) && MayCompete(s, w.game, bid) && intent.owner == bid
    ensures var w1 := w.(game := Challenge(w.game, bid, Some(intent), now));
            var at := w.game.bids[bid].board;
            && Linked(w1.game) && at in w1.game.boards
            && var r := SettlePaid(w1, at, s.rules, now, own);
            && r.Commit? && Debuts(w.game, r.value.0.game, s.rules, now, t)
            && w.game.takeovers.Keys <= r.value.0.game.takeovers.Keys
            && (t in w.game.takeovers ==> r.value.0.game.takeovers[t] == w.game.takeovers[t])
  {
    ChallengeKeepsWorld(s, w, bid, Some(intent), now);
    ChallengeLinks(w.game, bid, Some(intent), now);
    var w1 := w.(game := Challenge(w.game, bid, Some(intent), now));
    SettleDebuts(s, w1, w.game.bids[bid].board, now, Some(own), t);
    SettleKeepsTakeovers(s, w1, w.game.bids[bid].board, now, Some(own));
  }

  lemma RejectDebuts(s: Settings, w: World, bid: BidId, intent: IntentId, now: Time, own: CaptureReply, queueUp: bool)
    requires Linked(w.game) && bid in w.game.bids && w.game.bids[bid].board in w.game.boards
    requires w.game.bids[bid].amount < RequiredCents(w.game, w.game.bids[bid].board, s.rules)
    ensures var r := PlaceChallenger(w, bid, intent, s.rules, now, own, queueUp);
            r.Commit? && r.value.0.game.takeovers == w.game.takeovers
  {
  }

  lemma PlaceChallengerDebuts(s: Settings, w: World, bid: BidId, intent: IntentId, now: Time, own: CaptureReply, queueUp: bool, t: BidId)
    requires WorldInv(s, w) && bid in w.game.bids && intent.owner == bid && AwaitingAuthorization(w.game.bids[bid].status)
    requires w.game.bids[bid].board in w.game.boards
    ensures var r := PlaceChallenger(w, bid, intent, s.rules, now, own, queueUp);
            r.Commit? ==>
              && Debuts(w.game, r.value.0.game, s.rules, now, t)
              && w.game.takeovers.Keys <= r.value.0.game.takeovers.Keys
              && (t in w.game.takeovers ==> r.value.0.game.takeovers[t] == w.game.takeovers[t])
  {
    var row := w.game.bids[bid];
    ClearsPriceIffBeatsBoth(row.amount, w.game.boards[row.board].amount, s.rules, PendingAmount(w.game, row.board));
    if row.amount >= RequiredCents(w.game, row.board, s.rules) {
      AcceptDebuts(s, w, bid, intent, now, own, t);
    } else {
      RejectDebuts(s, w, bid, intent, now, own, queueUp);
    }
  }

  lemma AuthorizationDebuts(s: Settings, w: World, bid: BidId, intent: IntentId, now: Time,
                            due: CaptureReply, own: CaptureReply, queueUp: bool, t: BidId)
    requires WorldInv(s, w) && bid in w.game.bids && intent.owner == bid && s.rules.displaySeconds > 0
    requires w.game.bids[bid].board in w.game.boards && HonestFor(w.game, w.game.bids[bid].board, due)
    ensures var r := AuthorizeBid(w, bid, intent, s.rules, now, due, own, queueUp);
            r.Commit? ==> Debuts(w.game, r.value.0.game, s.rules, now, t)
  {
    if AwaitingAuthorization(w.game.bids[bid].status) {
      SettleSparesNewcomer(s, w, bid, now, due);
      SettleDebuts(s, w, w.game.bids[bid].board, now, Some(due), t);
      PlaceAfterDebut(s, w, SettlePaid(w, w.game.bids[bid].board, s.rules, now, due).value.0, bid, intent, now, own, queueUp, t);
    }
  }

  lemma PlaceAfterDebut(s: Settings, w: World, w1: World, bid: BidId, intent: IntentId, now: Time, own: CaptureReply, queueUp: bool, t: BidId)
    requires WorldInv(s, w1) && bid in w1.game.bids && intent.owner == bid && AwaitingAuthorization(w1.game.bids[bid].status)
    requires w1.game.bids[bid].board in w1.game.boards && s.rules.displaySeconds > 0 && Debuts(w.game, w1.game, s.rules, now, t)
    ensures var r := PlaceChallenger(w1, bid, intent, s.rules, now, own, queueUp);
            r.Commit? ==> Debuts(w.game, r.value.0.game, s.rules, now, t)
  {
    PlaceChallengerDebuts(s, w1, bid, intent, now, own, queueUp, t);
    var r := PlaceChallenger(w1, bid, intent, s.rules, now, own, queueUp);
    if r.Commit? {
      forall id | id in w1.game.boards ensures KeepsBoard(s.rules.increment, w1.game, r.value.0.game, now, id) {
        PlaceChallengerOnBoard(s, w1, bid, intent, now, own, queueUp, id);
      }
      DebutSurvives(s.rules.increment, w.game, w1.game, r.value.0.game, s.rules, now, t);
    }
  }

  // ----- steps and runs -----

  lemma BiddingDebuts(s: Settings, w: World, step: Step, now: Time, t: BidId)
    requires WorldInv(s, w) && Enabled(w, step) && s.rules.displaySeconds > 0
    requires step.Checkout? || step.FreePlay? || step.Authorization? || step.FinalizeDue?
    ensures Debuts(w.game, Apply(s, w, step, now).game, s.rules, now, t)
  {
    match step
    case Checkout(p, o, x, due) => SettleDebuts(s, w, o.board, now, Some(due), t);
    case FreePlay(p, o) => FreePlayDebuts(s, w, p, o, now, t);
    case FinalizeDue(b, expected, mode) => SettleDebuts(s, w, b, now, mode, t);
    case Authorization(e, due, own, queueUp) =>
      if KnownBid(w.game, e) && e.intent.Some? {
        AuthorizationDebuts(s, w, e.bid.value, e.intent.value, now, due, own, queueUp, t);
      }
  }

  /** Whatever step publishes a takeover leaves it live, with its full guarantee ahead. */
  lemma StepDebuts(s: Settings, w: World, step: Step, now: Time, t: BidId)
    requires WorldInv(s, w) && Enabled(w, step) && s.rules.displaySeconds > 0
    ensures Debuts(w.game, Apply(s, w, step, now).game, s.rules, now, t)
  {
    if step.Checkout? || step.FreePlay? || step.Authorization? || step.FinalizeDue? {
      BiddingDebuts(s, w, step, now, t);
    } else if step.Remove? {
      if step.about in w.game.cases { RemovalHeads(w.game, step.about, now, 0); }
    } else {
      OthersPublishNothing(s, w, step, now, 0);
    }
  }

  lemma RunStep(s: Settings, ws: seq<World>, ms: seq<Moment>, k: nat)
    requires IsRun(s, ws, ms) && k < |ms|
    ensures WorldInv(s, ws[k]) && Enabled(ws[k], ms[k].step) && ws[k + 1] == Apply(s, ws[k], ms[k].step, ms[k].at)
    ensures WorldInv(s, ws[k + 1])
  {
    RunsStayInOrder(s, ws, ms, k);
    RunsStayInOrder(s, ws, ms, k + 1);
    assert Connects(s, ws, ms, k);
  }

  lemma DebutInRun(s: Settings, ws: seq<World>, ms: seq<Moment>, k: nat, t: BidId)
    requires IsRun(s, ws, ms) && k < |ms| && s.rules.displaySeconds > 0
    ensures Debuts(ws[k].game, ws[k + 1].game, s.rules, ms[k].at, t)
  {
    RunStep(s, ws, ms, k);
    StepDebuts(s, ws[k], ms[k].step, ms[k].at, t);
  }

  /** A moment before `until` that neither removes `t` nor resets its competition. */
  predicate LeavesAlone(m: Moment, t: BidId, competition: CompetitionId, until: Time) {
    && m.at < until
    && !(m.step.Remove? && m.step.about == t)
    && !(m.step.Reset? && m.step.competition == competition)
  }

  ghost predicate AllLeaveAlone(ms: seq<Moment>, lo: nat, hi: nat, t: BidId, competition: CompetitionId, until: Time) {
    forall j {:trigger ms[j]} | lo <= j < hi && j < |ms| :: LeavesAlone(ms[j], t, competition, until)
  }

  lemma ServesFrom(s: Settings, ws: seq<World>, ms: seq<Moment>, id: BoardId, t: BidId, until: Time, i: nat)
    requires Follows(s, ws, ms) && WorldInv(s, ws[0]) && i < |ws| && id in ws[0].game.boards
    requires ws[0].game.boards[id].current == Some(t) && ws[0].game.boards[id].guaranteedUntil == Some(until)
    requires forall j {:trigger ms[j]} | 0 <= j < i :: LeavesAlone(ms[j], t, ws[0].game.boards[id].competition, until)
    ensures id in ws[i].game.boards && ws[i].game.boards[id].current == Some(t) && ws[i].game.boards[id].guaranteedUntil == Some(until)
  {
    forall j | 0 <= j < i
      ensures ms[j].at < until && !(ms[j].step.Remove? && ms[j].step.about == t)
      ensures !(ms[j].step.Reset? && ms[j].step.competition == ws[0].game.boards[id].competition)
    {
      assert LeavesAlone(ms[j], t, ws[0].game.boards[id].competition, until);
    }
    GuaranteeIsHonoured(s, ws, ms, id, t, until, i);
  }

  lemma ServesAfter(s: Settings, ws: seq<World>, ms: seq<Moment>, k: nat, i: nat, id: BoardId, t: BidId, until: Time)
    requires IsRun(s, ws, ms) && k <= i < |ws| && id in ws[k].game.boards
    requires ws[k].game.boards[id].current == Some(t) && ws[k].game.boards[id].guaranteedUntil == Some(until)
    requires AllLeaveAlone(ms, k, i, t, ws[k].game.boards[id].competition, until)
    ensures id in ws[i].game.boards && ws[i].game.boards[id].current == Some(t) && ws[i].game.boards[id].guaranteedUntil == Some(until)
  {
    RunsStayInOrder(s, ws, ms, k);
    SuffixFollows(s, ws, ms, k);
    forall j | 0 <= j < i - k ensures LeavesAlone(ms[k..][j], t, ws[k].game.boards[id].competition, until) {
      assert ms[k..][j] == ms[k + j];
    }
    assert ws[k..][0] == ws[k] && ws[k..][i - k] == ws[i];
    ServesFrom(s, ws[k..], ms[k..], id, t, until, i - k);
  }

  /**
   In every run a takeover published at time `at` stays live on its board until `at` plus the guaranteed
   display time, whatever authorizations, cancellations, settlements, disputes or checkouts happen in
   between, unless it is removed or its competition is reset.
   */
  lemma TakeoverServesItsTime(s: Settings, ws: seq<World>, ms: seq<Moment>, k: nat, i: nat, t: BidId, id: BoardId, until: Time)
    requires IsRun(s, ws, ms) && k < i < |ws| && s.rules.displaySeconds > 0
    requires t !in ws[k].game.takeovers && t in ws[k + 1].game.takeovers && ws[k + 1].game.takeovers[t].board == id
    requires until == ms[k].at + s.rules.displaySeconds * SECOND
    requires id in ws[k + 1].game.boards ==> AllLeaveAlone(ms, k + 1, i, t, ws[k + 1].game.boards[id].competition, until)
    ensures id in ws[i].game.boards && ws[i].game.boards[id].current == Some(t) && ws[i].game.boards[id].guaranteedUntil == Some(until)
  {
    IsLiveAtDebut(s, ws, ms, k, t, id);
    ServesAfter(s, ws, ms, k + 1, i, id, t, until);
  }

  lemma IsLiveAtDebut(s: Settings, ws: seq<World>, ms: seq<Moment>, k: nat, t: BidId, id: BoardId)
    requires IsRun(s, ws, ms) && k < |ms| && s.rules.displaySeconds > 0
    requires t !in ws[k].game.takeovers && t in ws[k + 1].game.takeovers && ws[k + 1].game.takeovers[t].board == id
    ensures id in ws[k + 1].game.boards
    ensures ws[k + 1].game.boards[id].current == Some(t)
    ensures ws[k + 1].game.boards[id].guaranteedUntil == Some(ms[k].at + s.rules.displaySeconds * SECOND)
  {
    DebutInRun(s, ws, ms, k, t);
  }
}
