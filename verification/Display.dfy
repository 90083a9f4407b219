// What steps and runs can do to one board: it keeps its display while protected, and is only ever taken for more.
module Display {
  import opened Base
  import opened Pricing
  import opened Rows
  import opened Takeovers
  import opened GameInvariant
  import opened GameSteps
  import opened Books
  import opened Desk
  import opened DeskSteps
  import opened Intake
  import opened Protocol
  import opened Safety
  import opened SafetySteps
  import opened EventSteps
  import opened Machine

  /** The public face of a board: everything except who is waiting. */
  predicate SameDisplay(b: Board, b': Board) {
    && b'.competition == b.competition
    && b'.current == b.current && b'.controller == b.controller && b'.amount == b.amount && b'.message == b.message
    && b'.guaranteedUntil == b.guaranteedUntil && b'.version == b.version
  }

  /** Each version step of a board raises its price by at least one increment. */
  predicate Climbs(inc: nat, b: Board, b': Board) {
    && b'.competition == b.competition
    && b'.version >= b.version && b'.amount >= b.amount + (b'.version - b.version) * inc
  }

  /** A board keeps its display, or, if it protects nobody, is taken at a higher price. */
  ghost predicate KeptOrTaken(inc: nat, b: Board, b': Board, now: Time) {
    SameDisplay(b, b') || (!Protected(b, now) && Climbs(inc, b, b') && b'.version > b.version)
  }

  lemma WinOnBoard(inc: nat, g: Game, id: BoardId, bid: BidId, rules: BoardRules, now: Time, paid: bool)
    requires GameInv(inc, g) && MayWin(inc, g, id, bid, now)
    ensures var r := Win(g, id, bid, rules, now, paid);
            r.Commit? && id in r.value.boards && KeptOrTaken(inc, g.boards[id], r.value.boards[id], now)
  {
    WinCommits(inc, g, id, bid, rules, now, paid);
    var b' := Win(g, id, bid, rules, now, paid).value.boards[id];
    assert b'.version - g.boards[id].version == 1;
  }

  lemma FinalizeHere(inc: nat, g: Game, id: BoardId, rules: BoardRules, now: Time, mode: CaptureMode)
    requires GameInv(inc, g) && id in g.boards
    ensures var r := FinalizeLocked(g, id, rules, now, mode);
            r.Commit? && id in r.value.0.boards && KeptOrTaken(inc, g.boards[id], r.value.0.boards[id], now)
  {
    assert BoardOk(inc, g, id);
    if IsDue(g.boards[id], now) && mode != Paid(false) {
      WinOnBoard(inc, g, id, g.boards[id].pending.value, rules, now, mode.Paid?);
    }
  }

  lemma FinalizeOnBoard(inc: nat, g: Game, at: BoardId, rules: BoardRules, now: Time, mode: CaptureMode, id: BoardId)
    requires GameInv(inc, g) && at in g.boards && id in g.boards
    ensures var r := FinalizeLocked(g, at, rules, now, mode);
            && r.Commit? && id in r.value.0.boards
            && (if id == at then KeptOrTaken(inc, g.boards[id], r.value.0.boards[id], now) else r.value.0.boards[id] == g.boards[id])
  {
    if id == at {
      FinalizeHere(inc, g, id, rules, now, mode);
    } else {
      FinalizeIsQuiet(inc, g, at, rules, now, mode);
    }
  }

  lemma SettleOnBoard(s: Settings, w: World, at: BoardId, now: Time, mode: Option<CaptureReply>, id: BoardId)
    requires CoreInv(s, w) && at in w.game.boards && id in w.game.boards
    ensures var r := Settle(w, at, s.rules, now, mode);
            && r.Commit? && id in r.value.0.game.boards
            && (if id == at then KeptOrTaken(s.rules.increment, w.game.boards[id], r.value.0.game.boards[id], now)
                else r.value.0.game.boards[id] == w.game.boards[id])
  {
    FinalizeOnBoard(s.rules.increment, w.game, at, s.rules, now, CaptureMode.FreePlay, id);
    FinalizeOnBoard(s.rules.increment, w.game, at, s.rules, now, Paid(true), id);
    FinalizeOnBoard(s.rules.increment, w.game, at, s.rules, now, Paid(false), id);
  }

  lemma ClimbsTwice(inc: nat, a: Board, b: Board, c: Board)
    requires Climbs(inc, a, b) && Climbs(inc, b, c)
    ensures Climbs(inc, a, c)
  {
    assert (c.version - a.version) * inc == (c.version - b.version) * inc + (b.version - a.version) * inc;
  }

  lemma KeepingClimbs(inc: nat, b: Board, b': Board, now: Time)
    requires KeptOrTaken(inc, b, b', now)
    ensures Climbs(inc, b, b')
  {
  }

  lemma ClimbingComposes(inc: nat, a: Board, b: Board, c: Board, now: Time)
    requires KeptOrTaken(inc, a, b, now) && KeptOrTaken(inc, b, c, now)
    ensures KeptOrTaken(inc, a, c, now)
  {
    KeepingClimbs(inc, a, b, now);
    KeepingClimbs(inc, b, c, now);
    ClimbsTwice(inc, a, b, c);
  }

  lemma ChallengeOnBoard(g: Game, bid: BidId, intent: Option<IntentId>, now: Time, id: BoardId)
    requires Linked(g) && bid in g.bids && id in g.boards
    ensures var g' := Challenge(g, bid, intent, now); id in g'.boards && SameDisplay(g.boards[id], g'.boards[id])
  {
  }

  lemma CheckoutOnBoard(s: Settings, w: World, bid: BidId, o: Offer, x: Session, now: Time, due: CaptureReply, id: BoardId)
    requires WorldInv(s, w) && o.board in w.game.boards && bid !in w.game.bids && id in w.game.boards
    ensures var r := CreateCheckout(w, bid, o, x, s, now, due);
            r.Commit? ==> id in r.value.game.boards && KeptOrTaken(s.rules.increment, w.game.boards[id], r.value.game.boards[id], now)
  {
    SettleOnBoard(s, w, o.board, now, Some(due), id);
  }

  lemma PlaceFreePlayOnBoard(s: Settings, w: World, bid: BidId, now: Time, id: BoardId)
    requires WorldInv(s, w) && MayCompete(s, w.game, bid) && w.game.bids[bid].intent.None? && id in w.game.boards
    requires !IsDue(w.game.boards[w.game.bids[bid].board], now)
    ensures var r := PlaceFreePlay(w, bid, s.rules, now);
            r.Commit? ==> id in r.value.0.game.boards && KeptOrTaken(s.rules.increment, w.game.boards[id], r.value.0.game.boards[id], now)
  {
    var b := w.game.bids[bid].board;
    if Protected(w.game.boards[b], now) {
      ChallengeOnBoard(w.game, bid, None, now, id);
    } else {
      assert BoardOk(s.rules.increment, w.game, b) && WaitsBehind(w.game, b);
      WinOnBoard(s.rules.increment, w.game, b, bid, s.rules, now, false);
      WinIsQuiet(s.rules.increment, w.game, b, bid, s.rules, now, false);
    }
  }

  lemma PlaceBidOnBoard(s: Settings, w: World, bid: BidId, o: Offer, now: Time, id: BoardId)
    requires WorldInv(s, w) && o.board in w.game.boards && bid !in w.game.bids && id in w.game.boards
    requires !IsDue(w.game.boards[o.board], now)
    ensures var r := PlaceBid(w, bid, o, s.rules, now);
            r.Commit? ==> id in r.value.0.game.boards && KeptOrTaken(s.rules.increment, w.game.boards[id], r.value.0.game.boards[id], now)
  {
    var priced := PriceOffer(w, o, s.rules);
    if priced.Commit? && CheckPlayer(w, o.user).Commit? {
      var row := NewBid(o, priced.value, None, None, Created, None);
      var competition := w.game.boards[o.board].competition;
      AddFreePlayKeepsInv(s, w, bid, row, competition, now);
      ClearsPriceIffBeatsBoth(priced.value, w.game.boards[o.board].amount, s.rules, PendingAmount(w.game, o.board));
      var placed := w.(game := w.game.(bids := w.game.bids[bid := row]),
                       intake := w.intake.(periods := EnsureActive(w.intake.periods, competition, now)));
      PlaceFreePlayOnBoard(s, placed, bid, now, id);
    }
  }

  lemma FreePlayOnBoard(s: Settings, w: World, bid: BidId, o: Offer, now: Time, id: BoardId)
    requires WorldInv(s, w) && o.board in w.game.boards && bid !in w.game.bids && id in w.game.boards
    ensures var r := CreateBid(w, bid, o, s.rules, now);
            r.Commit? ==> id in r.value.0.game.boards && KeptOrTaken(s.rules.increment, w.game.boards[id], r.value.0.game.boards[id], now)
  {
    SettleOnBoard(s, w, o.board, now, None, id);
    FreeSettleKeepsInv(s, w, o.board, now);
    var w1 := Settle(w, o.board, s.rules, now, None).value.0;
    PlaceBidOnBoard(s, w1, bid, o, now, id);
    var r := PlaceBid(w1, bid, o, s.rules, now);
    if r.Commit? { ClimbingComposes(s.rules.increment, w.game.boards[id], w1.game.boards[id], r.value.0.game.boards[id], now); }
  }

  lemma SameThenTaken(inc: nat, a: Board, b: Board, c: Board, now: Time)
    requires SameDisplay(a, b) && KeptOrTaken(inc, b, c, now)
    ensures KeptOrTaken(inc, a, c, now)
  {
  }

  lemma AcceptedOnBoard(s: Settings, w: World, bid: BidId, intent: IntentId, now: Time, own: CaptureReply, id: BoardId)
    requires WorldInv(s, w) && MayCompete(s, w.game, bid) && intent.owner == bid && id in w.game.boards
    ensures var w1 := w.(game := Challenge(w.game, bid, Some(intent), now));
            var b := w.game.bids[bid].board;
            && Linked(w1.game) && b in w1.game.boards && id in w1.game.boards
            && SameDisplay(w.game.boards[id], w1.game.boards[id])
            && var r := SettlePaid(w1, b, s.rules, now, own);
               r.Commit? ==> id in r.value.0.game.boards && KeptOrTaken(s.rules.increment, w.game.boards[id], r.value.0.game.boards[id], now)
  {
    var w1 := w.(game := Challenge(w.game, bid, Some(intent), now));
    ChallengeKeepsWorld(s, w, bid, Some(intent), now);
    ChallengeOnBoard(w.game, bid, Some(intent), now, id);
    assert BidLinked(w.game, bid);
    SettleOnBoard(s, w1, w.game.bids[bid].board, now, Some(own), id);
    var r := SettlePaid(w1, w.game.bids[bid].board, s.rules, now, own);
    if r.Commit? { SameThenTaken(s.rules.increment, w.game.boards[id], w1.game.boards[id], r.value.0.game.boards[id], now); }
  }

  lemma PlaceChallengerOnBoard(s: Settings, w: World, bid: BidId, intent: IntentId, now: Time, own: CaptureReply, queueUp: bool, id: BoardId)
    requires WorldInv(s, w) && bid in w.game.bids && intent.owner == bid && AwaitingAuthorization(w.game.bids[bid].status)
    requires w.game.bids[bid].board in w.game.boards && id in w.game.boards
    ensures var r := PlaceChallenger(w, bid, intent, s.rules, now, own, queueUp);
            r.Commit? ==> id in r.value.0.game.boards && KeptOrTaken(s.rules.increment, w.game.boards[id], r.value.0.game.boards[id], now)
  {
    var b := w.game.bids[bid].board;
    ClearsPriceIffBeatsBoth(w.game.bids[bid].amount, w.game.boards[b].amount, s.rules, PendingAmount(w.game, b));
    if w.game.bids[bid].amount >= RequiredCents(w.game, b, s.rules) {
      AcceptedOnBoard(s, w, bid, intent, now, own, id);
    }
  }

  lemma AuthorizationOnBoard(s: Settings, w: World, bid: BidId, intent: IntentId, now: Time,
                             due: CaptureReply, own: CaptureReply, queueUp: bool, id: BoardId)
    requires WorldInv(s, w) && bid in w.game.bids && intent.owner == bid && id in w.game.boards
    requires w.game.bids[bid].board in w.game.boards && HonestFor(w.game, w.game.bids[bid].board, due)
    requires own.Captured? ==> own.pi.succeeded && own.pi.id == Some(intent)
    ensures var r := AuthorizeBid(w, bid, intent, s.rules, now, due, own, queueUp);
            r.Commit? ==> id in r.value.0.game.boards && KeptOrTaken(s.rules.increment, w.game.boards[id], r.value.0.game.boards[id], now)
  {
    if AwaitingAuthorization(w.game.bids[bid].status) {
      var b := w.game.bids[bid].board;
      SettleSparesNewcomer(s, w, bid, now, due);
      SettleOnBoard(s, w, b, now, Some(due), id);
      var w1 := SettlePaid(w, b, s.rules, now, due).value.0;
      PlaceChallengerOnBoard(s, w1, bid, intent, now, own, queueUp, id);
      var r := AuthorizeBid(w, bid, intent, s.rules, now, due, own, queueUp);
      if r.Commit? {
        ClimbingComposes(s.rules.increment, w.game.boards[id], w1.game.boards[id], r.value.0.game.boards[id], now);
      }
    }
  }

  lemma {:induction false} ResetSparesOthers(g: Game, ids: seq<BoardId>, releases: Releases, now: Time, id: BoardId)
    requires Linked(g) && (forall i | 0 <= i < |ids| :: ids[i] in g.boards) && id in g.boards && id !in ids
    ensures var r := ResetBoards(g, ids, releases, now); r.Commit? ==> id in r.value.boards && r.value.boards[id] == g.boards[id]
    decreases |ids|
  {
    if ids != [] {
      ResetSparesOthers(g, ids[..|ids| - 1], releases, now, id);
    }
  }

  /** The two ways a board loses its display other than being outbid: its takeover is removed, or its week ends. */
  predicate Clears(step: Step, board: Board) {
    || (step.Remove? && board.current == Some(step.about))
    || (step.Reset? && step.competition == board.competition)
  }

  lemma RemovalOnBoard(s: Settings, w: World, p: BidId, reason: string, now: Time, id: BoardId)
    requires WorldInv(s, w) && id in w.game.boards && w.game.boards[id].current != Some(p)
    ensures var r := RemoveCaseStep(w, p, reason, now);
            r.Commit? ==> id in r.value.game.boards && r.value.game.boards[id] == w.game.boards[id]
  {
    if p in w.game.cases {
      assert TakeoverLinked(w.game, p);
    }
  }

  /** Steps of the provider-facing workers, and grants of one-time inputs. */
  predicate SparesGame(step: Step) {
    || step.GrantApproval? || step.ShowConfirmation? || step.PaymentSuccess? || step.ChargeUpdate?
    || step.BeginPayment? || step.ClaimMail? || step.FinishMail? || step.Reconcile?
  }

  lemma GameIsSpared(s: Settings, w: World, step: Step, now: Time)
    requires Enabled(w, step) && SparesGame(step)
    ensures Apply(s, w, step, now).game == w.game
  {
  }

  /** Events and decisions that rewrite bids or cases, and at most withdraw a challenger. */
  predicate RewritesRows(step: Step) {
    step.CheckoutCompleted? || step.PaymentFailure? || step.PaymentCancellation? || step.DisputeOpened? || step.Report? || step.Approve?
  }

  lemma RewritesOnBoard(s: Settings, w: World, step: Step, now: Time, id: BoardId)
    requires Enabled(w, step) && RewritesRows(step) && id in w.game.boards
    ensures var g' := Apply(s, w, step, now).game; id in g'.boards && SameDisplay(w.game.boards[id], g'.boards[id])
  {
  }

  lemma EndKeepsBoards(s: Settings, w: World, step: Step, now: Time)
    requires WorldInv(s, w) && Enabled(w, step) && step.EndPayment?
    ensures Apply(s, w, step, now).game.boards == w.game.boards
  {
    EndIsQuiet(s, w, step.about, step.answer, now);
  }

  lemma OtherStepsOnBoard(s: Settings, w: World, step: Step, now: Time, id: BoardId)
    requires WorldInv(s, w) && Enabled(w, step) && id in w.game.boards && !Clears(step, w.game.boards[id])
    requires !step.Checkout? && !step.FreePlay? && !step.Authorization? && !step.FinalizeDue?
    ensures var g' := Apply(s, w, step, now).game; id in g'.boards && SameDisplay(w.game.boards[id], g'.boards[id])
  {
    if SparesGame(step) {
      GameIsSpared(s, w, step, now);
    } else if RewritesRows(step) {
      RewritesOnBoard(s, w, step, now, id);
    } else if step.EndPayment? {
      EndKeepsBoards(s, w, step, now);
    } else if step.Reset? {
      ResetSparesOthers(w.game, step.ids, step.releases, now, id);
    } else {
      RemovalOnBoard(s, w, step.about, step.reason, now, id);
    }
  }

  lemma BiddingOnBoard(s: Settings, w: World, step: Step, now: Time, id: BoardId)
    requires WorldInv(s, w) && Enabled(w, step) && id in w.game.boards
    requires step.Checkout? || step.FreePlay? || step.FinalizeDue?
    ensures var g' := Apply(s, w, step, now).game;
            id in g'.boards && KeptOrTaken(s.rules.increment, w.game.boards[id], g'.boards[id], now)
  {
    match step
    case Checkout(p, o, x, due) => CheckoutOnBoard(s, w, p, o, x, now, due, id);
    case FreePlay(p, o) => FreePlayOnBoard(s, w, p, o, now, id);
    case FinalizeDue(b, expected, mode) => SettleOnBoard(s, w, b, now, mode, id);
  }

  /** Every step that does not clear a board keeps its display, unless nobody is protected and it is taken for more. */
  lemma StepOnBoard(s: Settings, w: World, step: Step, now: Time, id: BoardId)
    requires WorldInv(s, w) && Enabled(w, step) && id in w.game.boards && !Clears(step, w.game.boards[id])
    ensures var g' := Apply(s, w, step, now).game;
            id in g'.boards && KeptOrTaken(s.rules.increment, w.game.boards[id], g'.boards[id], now)
  {
    if step.Checkout? || step.FreePlay? || step.FinalizeDue? {
      BiddingOnBoard(s, w, step, now, id);
    } else if step.Authorization? {
      var e := step.event;
      if KnownBid(w.game, e) && e.intent.Some? {
        AuthorizationOnBoard(s, w, e.bid.value, e.intent.value, now, step.due, step.own, step.queueUp, id);
      }
    } else {
      OtherStepsOnBoard(s, w, step, now, id);
    }
  }

  // ----- runs -----

  /**
   The protected display window. From any reachable moment at which `bid` is live with a guarantee
   until `until`, it stays live, with the same message, controller, price and guarantee, through every
   run of steps earlier than `until`, as long as its case is not removed and its week does not end.
   */
  lemma {:induction false} GuaranteeIsHonoured(s: Settings, ws: seq<World>, ms: seq<Moment>, id: BoardId, bid: BidId, until: Time, i: nat)
    requires Follows(s, ws, ms) && WorldInv(s, ws[0]) && i < |ws|
    requires id in ws[0].game.boards
    requires ws[0].game.boards[id].current == Some(bid) && ws[0].game.boards[id].guaranteedUntil == Some(until)
    requires forall k {:trigger ms[k]} | 0 <= k < i ::
               && ms[k].at < until
               && !(ms[k].step.Remove? && ms[k].step.about == bid)
               && !(ms[k].step.Reset? && ms[k].step.competition == ws[0].game.boards[id].competition)
    ensures WorldInv(s, ws[i]) && id in ws[i].game.boards && SameDisplay(ws[0].game.boards[id], ws[i].game.boards[id])
    decreases i
  {
    if i > 0 {
      GuaranteeIsHonoured(s, ws, ms, id, bid, until, i - 1);
      var m := ms[i - 1];
      assert Connects(s, ws, ms, i - 1);
      StepKeepsInv(s, ws[i - 1], m.step, m.at);
      StepOnBoard(s, ws[i - 1], m.step, m.at, id);
    }
  }

  lemma QuotientBound(n: int, inc: int, cap: int)
    requires n >= 0 && inc > 0 && n * inc <= cap
    ensures n <= cap / inc
  {
    var q := cap / inc;
    if q + 1 <= n { MultiplyBoth(q + 1, n, inc); }
  }

  lemma MultiplyBoth(a: int, b: int, c: int)
    requires a <= b && 0 <= c
    ensures a * c <= b * c
  {
  }
}
