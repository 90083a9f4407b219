// Where live takeovers come from: who paid for them, and that no reset lets an old one back in.
module Provenance {
  import opened Base
  import opened Pricing
  import opened Rows
  import opened Takeovers
  import opened GameInvariant
  import opened GameSteps
  import opened Lineage
  import opened Books
  import opened BooksSteps
  import opened Desk
  import opened DeskInvariant
  import opened Intake
  import opened Risk
  import opened Protocol
  import opened Safety
  import opened SafetySteps
  import opened EventSteps
  import opened Machine
  import opened Display
  import opened History

  ghost predicate Collected(b: Books, bid: BidId) {
    exists i {:trigger i in b.collected} | i in b.collected :: i.owner == bid
  }

  /** A takeover was either free play, or it was paid for and its delivery is on record. */
  ghost predicate PaidFor(g: Game, b: Books, t: BidId) {
    t in g.bids && (g.bids[t].status.DemoWon? || (Collected(b, t) && t in g.evidence))
  }

  /** Not one of the `older` takeovers of board `id`, and not the successor of one. */
  ghost predicate IsNewer(older: set<BidId>, g: Game, id: BoardId, t: BidId)
    requires t in g.takeovers
  {
    t !in older && g.takeovers[t].board == id && g.takeovers[t].previous.Some? ==> g.takeovers[t].previous.value !in older
  }

  /** Every takeover is paid for; board `id` shows none of the `older` takeovers, and none can be restored to it. */
  ghost predicate Traced(older: set<BidId>, id: BoardId, g: Game, b: Books) {
    && (forall t {:trigger PaidFor(g, b, t)} | t in g.takeovers :: PaidFor(g, b, t))
    && older <= g.takeovers.Keys
    && (id in g.boards && g.boards[id].current.Some? ==> g.boards[id].current.value !in older)
    && (forall t {:trigger IsNewer(older, g, id, t)} | t in g.takeovers :: IsNewer(older, g, id, t))
  }

  // ----- transactions that publish nothing -----

  ghost predicate PublishesNothingNew(g: Game, g': Game, id: BoardId) {
    && g'.takeovers == g.takeovers
    && (id in g'.boards ==> id in g.boards && (g'.boards[id].current == g.boards[id].current || g'.boards[id].current.None?))
  }

  lemma StaysTraced(older: set<BidId>, id: BoardId, w: World, w': World)
    requires Traced(older, id, w.game, w.books) && Ages(w, w') && PublishesNothingNew(w.game, w'.game, id)
    ensures Traced(older, id, w'.game, w'.books)
  {
    forall t | t in w'.game.takeovers ensures PaidFor(w'.game, w'.books, t) && IsNewer(older, w'.game, id, t) {
      assert PaidFor(w.game, w.books, t) && IsNewer(older, w.game, id, t) && BidAges(w.game, w'.game, t);
      if t in w.game.evidence { assert EvidenceAges(w.game, w'.game, t); }
    }
  }

  lemma {:induction false} ResetPublishesNothing(g: Game, ids: seq<BoardId>, releases: Releases, now: Time, id: BoardId)
    requires Linked(g) && (forall i | 0 <= i < |ids| :: ids[i] in g.boards)
    ensures var r := ResetBoards(g, ids, releases, now); r.Commit? ==> PublishesNothingNew(g, r.value, id)
    decreases |ids|
  {
    if ids != [] { ResetPublishesNothing(g, ids[..|ids| - 1], releases, now, id); }
  }

  lemma OthersPublishNothing(s: Settings, w: World, step: Step, now: Time, id: BoardId)
    requires WorldInv(s, w) && Enabled(w, step)
    requires !step.Checkout? && !step.FreePlay? && !step.Authorization? && !step.FinalizeDue? && !step.Remove?
    ensures PublishesNothingNew(w.game, Apply(s, w, step, now).game, id)
  {
    if SparesGame(step) {
      GameIsSpared(s, w, step, now);
    } else if RewritesRows(step) {
      RewritesPublishNothing(s, w, step, now, id);
    } else if step.Reset? {
      ResetPublishesNothing(w.game, step.ids, step.releases, now, id);
    } else {
      EndPublishesNothing(s, w, step.about, step.answer, now, id);
    }
  }

  lemma RewritesPublishNothing(s: Settings, w: World, step: Step, now: Time, id: BoardId)
    requires Enabled(w, step) && RewritesRows(step)
    ensures PublishesNothingNew(w.game, Apply(s, w, step, now).game, id)
  {
    if step.PaymentCancellation? && KnownBid(w.game, step.event) {
      assert BidLinked(w.game, step.event.bid.value);
    }
  }

  lemma EndPublishesNothing(s: Settings, w: World, p: BidId, answer: Option<string>, now: Time, id: BoardId)
    requires WorldInv(s, w) && p in w.desk.actions
    ensures ActionOk(w.game, w.books, w.desk, p)
    ensures var r := EndAction(w.game, w.books, w.desk, p, answer, now);
            r.Commit? ==> PublishesNothingNew(w.game, r.value.0, id)
  {
    assert ActionOk(w.game, w.books, w.desk, p);
  }

  // ----- removal -----

  /** Following previous-bid links from a newer takeover only ever meets newer ones. */
  lemma {:induction false} NearestIsNewer(older: set<BidId>, g: Game, b: Books, id: BoardId, path: seq<BidId>, inc: nat)
    requires GameInv(inc, g) && Traced(older, id, g, b) && IsLineage(g, path)
    requires path[0] !in older && g.takeovers[path[0]].board == id
    ensures path[|path| - 1] !in older
    decreases |path|
  {
    if |path| > 1 {
      assert IsNewer(older, g, id, path[0]) && TakeoverOk(inc, g, path[0]);
      assert g.takeovers[path[0]].previous == Some(path[1]);
      assert IsLineage(g, path[1..]);
      NearestIsNewer(older, g, b, id, path[1..], inc);
    }
  }

  lemma RestoredIsNewer(older: set<BidId>, g: Game, b: Books, id: BoardId, bid: BidId, inc: nat)
    requires inc > 0 && GameInv(inc, g) && Traced(older, id, g, b) && id in g.boards && g.boards[id].current == Some(bid)
    requires bid in g.takeovers && g.takeovers[bid].board == id && PriorNonRemoved(g, bid).Some?
    ensures PriorNonRemoved(g, bid).value !in older
  {
    var p := PriorNonRemoved(g, bid).value;
    WalkFindsNearest(inc, g, bid, p);
    var path :| LeadsToNearest(g, bid, path, p);
    NearestIsNewer(older, g, b, id, path, inc);
  }

  lemma RemovalHeads(g: Game, bid: BidId, now: Time, id: BoardId)
    requires Linked(g) && bid in g.cases
    ensures bid in g.takeovers
    ensures var g' := RemoveTakeover(g, bid, now);
            && g'.takeovers == g.takeovers && g'.boards.Keys == g.boards.Keys
            && (id in g.boards ==>
                if g.takeovers[bid].board == id && g.boards[id].current == Some(bid)
                then g'.boards[id].current == PriorNonRemoved(g, bid) else g'.boards[id].current == g.boards[id].current)
  {
    assert TakeoverLinked(g, bid);
  }

  lemma RemoveStaysTraced(s: Settings, older: set<BidId>, id: BoardId, w: World, p: BidId, reason: string, now: Time)
    requires WorldInv(s, w) && Traced(older, id, w.game, w.books)
    ensures var r := RemoveCaseStep(w, p, reason, now); r.Commit? ==> Traced(older, id, r.value.game, r.value.books)
  {
    var r := RemoveCaseStep(w, p, reason, now);
    if r.Commit? && r.value.game != w.game {
      RemovalHeads(w.game, p, now, id);
      RemoveAges(s, w, p, reason, now);
      if w.game.takeovers[p].board == id && id in w.game.boards && w.game.boards[id].current == Some(p) && PriorNonRemoved(w.game, p).Some? {
        RestoredIsNewer(older, w.game, w.books, id, p, s.rules.increment);
      }
      forall t | t in r.value.game.takeovers ensures PaidFor(r.value.game, r.value.books, t) && IsNewer(older, r.value.game, id, t) {
        assert PaidFor(w.game, w.books, t) && IsNewer(older, w.game, id, t) && BidAges(w.game, r.value.game, t);
        if t in w.game.evidence { assert EvidenceAges(w.game, r.value.game, t); }
      }
    }
  }

  // ----- publication -----

  /** A win adds one takeover, whose predecessor was live. */
  lemma WinStaysTraced(older: set<BidId>, id: BoardId, inc: nat, w: World, at: BoardId, bid: BidId, rules: BoardRules, now: Time,
                       paid: bool, b': Books)
    requires GameInv(inc, w.game) && MayWin(inc, w.game, at, bid, now) && Traced(older, id, w.game, w.books)
    requires Grows(w.books, b') && (paid ==> Collected(b', bid))
    requires MovesForward(w.game.bids[bid].status, if paid then Won else DemoWon)
    ensures var r := Win(w.game, at, bid, rules, now, paid); r.Commit? && Traced(older, id, r.value, b')
  {
    WinAges(inc, w.game, at, bid, rules, now, paid);
    WinCommits(inc, w.game, at, bid, rules, now, paid);
    var g' := Win(w.game, at, bid, rules, now, paid).value;
    forall t | t in g'.takeovers ensures PaidFor(g', b', t) && IsNewer(older, g', id, t) {
      if t != bid {
        assert PaidFor(w.game, w.books, t) && IsNewer(older, w.game, id, t) && BidAges(w.game, g', t);
        if t in w.game.evidence { assert EvidenceAges(w.game, g', t); }
      }
    }
  }

  lemma FinalizeStaysTraced(older: set<BidId>, id: BoardId, inc: nat, w: World, at: BoardId, rules: BoardRules, now: Time,
                            mode: CaptureMode, b': Books)
    requires GameInv(inc, w.game) && at in w.game.boards && Traced(older, id, w.game, w.books) && Grows(w.books, b')
    requires mode == Paid(true) && IsDue(w.game.boards[at], now) ==> Collected(b', w.game.boards[at].pending.value)
    ensures var r := FinalizeLocked(w.game, at, rules, now, mode); r.Commit? && Traced(older, id, r.value.0, b')
  {
    FinalizeKeepsInv(inc, w.game, at, rules, now, mode);
    assert BoardOk(inc, w.game, at);
    if IsDue(w.game.boards[at], now) && mode != Paid(false) {
      WinStaysTraced(older, id, inc, w, at, w.game.boards[at].pending.value, rules, now, mode.Paid?, b');
    } else {
      var g' := FinalizeLocked(w.game, at, rules, now, mode).value.0;
      forall t | t in g'.takeovers ensures PaidFor(g', b', t) && IsNewer(older, g', id, t) {
        assert PaidFor(w.game, w.books, t) && IsNewer(older, w.game, id, t);
      }
    }
  }

  lemma SettleStaysTraced(s: Settings, older: set<BidId>, id: BoardId, w: World, at: BoardId, now: Time, mode: Option<CaptureReply>)
    requires CoreInv(s, w) && at in w.game.boards && (mode.Some? ==> HonestFor(w.game, at, mode.value))
    requires Traced(older, id, w.game, w.books)
    ensures var r := Settle(w, at, s.rules, now, mode); r.Commit? && Traced(older, id, r.value.0.game, r.value.0.books)
  {
    var inc := s.rules.increment;
    assert BoardOk(inc, w.game, at);
    if mode.None? {
      FinalizeStaysTraced(older, id, inc, w, at, s.rules, now, CaptureMode.FreePlay, w.books);
    } else if IsDue(w.game.boards[at], now) {
      var bid := w.game.boards[at].pending.value;
      assert OwnIntent(w.game, bid);
      CollectKeepsBooks(w.game.bids, w.books, bid, mode.value, now);
      var (captured, b') := Collect(w.books, bid, w.game.bids[bid], mode.value, now);
      assert captured ==> w.game.bids[bid].intent.value in b'.collected;
      FinalizeStaysTraced(older, id, inc, w, at, s.rules, now, Paid(captured), b');
    }
  }

  // ----- the composed steps -----

  lemma CheckoutStaysTraced(s: Settings, older: set<BidId>, id: BoardId, w: World, bid: BidId, o: Offer, x: Session, now: Time, due: CaptureReply)
    requires WorldInv(s, w) && o.board in w.game.boards && bid !in w.game.bids && HonestFor(w.game, o.board, due)
    requires Traced(older, id, w.game, w.books)
    ensures var r := CreateCheckout(w, bid, o, x, s, now, due); r.Commit? ==> Traced(older, id, r.value.game, r.value.books)
  {
    SettleStaysTraced(s, older, id, w, o.board, now, Some(due));
    SettleLinks(w, o.board, s.rules, now, Some(due));
    var w1 := SettlePaid(w, o.board, s.rules, now, due).value.0;
    var r := CreateCheckout(w, bid, o, x, s, now, due);
    if r.Commit? {
      PlaceCheckoutAges(s, w1, bid, o, x, now);
      StaysTraced(older, id, w1, r.value);
    }
  }

  lemma ChallengeStaysTraced(s: Settings, older: set<BidId>, id: BoardId, w: World, bid: BidId, intent: Option<IntentId>, now: Time)
    requires GameInv(s.rules.increment, w.game) && bid in w.game.bids && Undecided(w.game.bids[bid].status) && Traced(older, id, w.game, w.books)
    ensures Traced(older, id, Challenge(w.game, bid, intent, now), w.books)
  {
    ChallengeAges(s.rules.increment, w.game, bid, intent, now);
    var w1 := w.(game := Challenge(w.game, bid, intent, now));
    assert BidLinked(w.game, bid);
    OnlyGameAges(w, w1.game);
    StaysTraced(older, id, w, w1);
  }

  lemma PlaceFreePlayStaysTraced(s: Settings, older: set<BidId>, id: BoardId, w: World, bid: BidId, now: Time)
    requires WorldInv(s, w) && MayCompete(s, w.game, bid) && Undecided(w.game.bids[bid].status) && Traced(older, id, w.game, w.books)
    requires !IsDue(w.game.boards[w.game.bids[bid].board], now)
    ensures var r := PlaceFreePlay(w, bid, s.rules, now); r.Commit? ==> Traced(older, id, r.value.0.game, r.value.0.books)
  {
    var at := w.game.bids[bid].board;
    if Protected(w.game.boards[at], now) {
      ChallengeStaysTraced(s, older, id, w, bid, None, now);
    } else {
      assert WaitsBehind(w.game, at);
      WinStaysTraced(older, id, s.rules.increment, w, at, bid, s.rules, now, false, w.books);
    }
  }

  lemma AddedBidStaysTraced(s: Settings, older: set<BidId>, id: BoardId, w: World, bid: BidId, row: Bid, competition: CompetitionId, now: Time)
    requires bid !in w.game.bids && Traced(older, id, w.game, w.books)
    ensures Traced(older, id, w.game.(bids := w.game.bids[bid := row]), w.books)
  {
    AddedBidAges(s, w, bid, row, competition, now);
    StaysTraced(older, id, w, w.(game := w.game.(bids := w.game.bids[bid := row]),
                                 intake := w.intake.(periods := EnsureActive(w.intake.periods, competition, now))));
  }

  lemma PlaceBidStaysTraced(s: Settings, older: set<BidId>, id: BoardId, w: World, bid: BidId, o: Offer, now: Time)
    requires WorldInv(s, w) && o.board in w.game.boards && bid !in w.game.bids && !IsDue(w.game.boards[o.board], now)
    requires Traced(older, id, w.game, w.books)
    ensures var r := PlaceBid(w, bid, o, s.rules, now); r.Commit? ==> Traced(older, id, r.value.0.game, r.value.0.books)
  {
    var priced := PriceOffer(w, o, s.rules);
    if priced.Commit? && CheckPlayer(w, o.user).Commit? {
      var row := NewBid(o, priced.value, None, None, Created, None);
      var competition := w.game.boards[o.board].competition;
      ClearsPriceIffBeatsBoth(priced.value, w.game.boards[o.board].amount, s.rules, PendingAmount(w.game, o.board));
      AddFreePlayKeepsInv(s, w, bid, row, competition, now);
      AddedBidStaysTraced(s, older, id, w, bid, row, competition, now);
      var w2 := w.(game := w.game.(bids := w.game.bids[bid := row]),
                   intake := w.intake.(periods := EnsureActive(w.intake.periods, competition, now)));
      PlaceFreePlayStaysTraced(s, older, id, w2, bid, now);
    }
  }

  lemma FreePlayStaysTraced(s: Settings, older: set<BidId>, id: BoardId, w: World, bid: BidId, o: Offer, now: Time)
    requires WorldInv(s, w) && o.board in w.game.boards && bid !in w.game.bids && Traced(older, id, w.game, w.books)
    ensures var r := CreateBid(w, bid, o, s.rules, now); r.Commit? ==> Traced(older, id, r.value.0.game, r.value.0.books)
  {
    SettleStaysTraced(s, older, id, w, o.board, now, None);
    FreeSettleKeepsInv(s, w, o.board, now);
    PlaceBidStaysTraced(s, older, id, Settle(w, o.board, s.rules, now, None).value.0, bid, o, now);
  }

  lemma AcceptStaysTraced(s: Settings, older: set<BidId>, id: BoardId, w: World, bid: BidId, intent: IntentId, now: Time, own: CaptureReply)
    requires WorldInv(s, w) && MayCompete(s, w.game, bid) && intent.owner == bid && Undecided(w.game.bids[bid].status)
    requires own.Captured? ==> own.pi.succeeded && own.pi.id == Some(intent)
    requires Traced(older, id, w.game, w.books)
    ensures var w1 := w.(game := Challenge(w.game, bid, Some(intent), now));
            var at := w.game.bids[bid].board;
            && Linked(w1.game) && at in w1.game.boards && Traced(older, id, w1.game, w1.books)
            && (!Protected(w.game.boards[at], now) ==>
                  var r := SettlePaid(w1, at, s.rules, now, own); r.Commit? && Traced(older, id, r.value.0.game, r.value.0.books))
  {
    var at := w.game.bids[bid].board;
    ChallengeStaysTraced(s, older, id, w, bid, Some(intent), now);
    ChallengeKeepsWorld(s, w, bid, Some(intent), now);
    var w1 := w.(game := Challenge(w.game, bid, Some(intent), now));
    assert BidLinked(w.game, bid);
    if !Protected(w.game.boards[at], now) {
      ChallengeIsDue(s, w, bid, intent, now);
      SettleStaysTraced(s, older, id, w1, at, now, Some(own));
    }
  }

  lemma PlaceChallengerStaysTraced(s: Settings, older: set<BidId>, id: BoardId, w: World, bid: BidId, intent: IntentId, now: Time,
                                   own: CaptureReply, queueUp: bool)
    requires WorldInv(s, w) && bid in w.game.bids && intent.owner == bid && AwaitingAuthorization(w.game.bids[bid].status)
    requires w.game.bids[bid].board in w.game.boards && Traced(older, id, w.game, w.books)
    requires own.Captured? ==> own.pi.succeeded && own.pi.id == Some(intent)
    ensures var r := PlaceChallenger(w, bid, intent, s.rules, now, own, queueUp);
            r.Commit? ==> Traced(older, id, r.value.0.game, r.value.0.books)
  {
    var row := w.game.bids[bid];
    ClearsPriceIffBeatsBoth(row.amount, w.game.boards[row.board].amount, s.rules, PendingAmount(w.game, row.board));
    if row.amount < RequiredCents(w.game, row.board, s.rules) {
      var rejected := row.(intent := Some(intent), status := AuthCanceled, canceledAt := Some(now));
      RejectAges(w, bid, rejected);
      StaysTraced(older, id, w, w.(game := w.game.(bids := w.game.bids[bid := rejected])));
    } else {
      AcceptStaysTraced(s, older, id, w, bid, intent, now, own);
    }
  }

  lemma AuthorizationStaysTraced(s: Settings, older: set<BidId>, id: BoardId, w: World, bid: BidId, intent: IntentId, now: Time,
                                 due: CaptureReply, own: CaptureReply, queueUp: bool)
    requires WorldInv(s, w) && bid in w.game.bids && intent.owner == bid && Traced(older, id, w.game, w.books)
    requires w.game.bids[bid].board in w.game.boards && HonestFor(w.game, w.game.bids[bid].board, due)
    requires own.Captured? ==> own.pi.succeeded && own.pi.id == Some(intent)
    ensures var r := AuthorizeBid(w, bid, intent, s.rules, now, due, own, queueUp);
            r.Commit? ==> Traced(older, id, r.value.0.game, r.value.0.books)
  {
    if AwaitingAuthorization(w.game.bids[bid].status) {
      var at := w.game.bids[bid].board;
      SettleSparesNewcomer(s, w, bid, now, due);
      SettleStaysTraced(s, older, id, w, at, now, Some(due));
      PlaceChallengerStaysTraced(s, older, id, SettlePaid(w, at, s.rules, now, due).value.0, bid, intent, now, own, queueUp);
    }
  }

  lemma BiddingStaysTraced(s: Settings, older: set<BidId>, id: BoardId, w: World, step: Step, now: Time)
    requires WorldInv(s, w) && Enabled(w, step) && Traced(older, id, w.game, w.books)
    requires step.Checkout? || step.FreePlay? || step.Authorization? || step.FinalizeDue?
    ensures var w' := Apply(s, w, step, now); Traced(older, id, w'.game, w'.books)
  {
    match step
    case Checkout(p, o, x, due) => CheckoutStaysTraced(s, older, id, w, p, o, x, now, due);
    case FreePlay(p, o) => FreePlayStaysTraced(s, older, id, w, p, o, now);
    case FinalizeDue(b, expected, mode) => SettleStaysTraced(s, older, id, w, b, now, mode);
    case Authorization(e, due, own, queueUp) =>
      if KnownBid(w.game, e) && e.intent.Some? {
        AuthorizationStaysTraced(s, older, id, w, e.bid.value, e.intent.value, now, due, own, queueUp);
      }
  }

  lemma StepStaysTraced(s: Settings, older: set<BidId>, id: BoardId, w: World, step: Step, now: Time)
    requires WorldInv(s, w) && Enabled(w, step) && Traced(older, id, w.game, w.books)
    ensures var w' := Apply(s, w, step, now); Traced(older, id, w'.game, w'.books)
  {
    if step.Checkout? || step.FreePlay? || step.Authorization? || step.FinalizeDue? {
      BiddingStaysTraced(s, older, id, w, step, now);
    } else if step.Remove? {
      RemoveStaysTraced(s, older, id, w, step.about, step.reason, now);
    } else {
      StepAges(s, w, step, now);
      OthersPublishNothing(s, w, step, now, id);
      StaysTraced(older, id, w, Apply(s, w, step, now));
    }
  }

  lemma {:induction false} RunsStayTraced(s: Settings, older: set<BidId>, id: BoardId, ws: seq<World>, ms: seq<Moment>, i: nat)
    requires Follows(s, ws, ms) && WorldInv(s, ws[0]) && Traced(older, id, ws[0].game, ws[0].books) && i < |ws|
    ensures WorldInv(s, ws[i]) && Traced(older, id, ws[i].game, ws[i].books)
    decreases i
  {
    if i > 0 {
      RunsStayTraced(s, older, id, ws, ms, i - 1);
      var m := ms[i - 1];
      assert Connects(s, ws, ms, i - 1);
      StepKeepsInv(s, ws[i - 1], m.step, m.at);
      StepStaysTraced(s, older, id, ws[i - 1], m.step, m.at);
    }
  }

  /**
   Money moves exactly when a board changes hands: in every state of every run the provider has captured a
   payment of a bid if and only if that bid took its board over, other than as free play; and then its
   delivery is on record.
   */
  lemma MoneyMovesExactlyOnTakeover(s: Settings, ws: seq<World>, ms: seq<Moment>, i: nat, bid: BidId)
    requires IsRun(s, ws, ms) && i < |ws|
    ensures Collected(ws[i].books, bid)
       <==> bid in ws[i].game.takeovers && bid in ws[i].game.bids && !ws[i].game.bids[bid].status.DemoWon?
    ensures Collected(ws[i].books, bid) ==> bid in ws[i].game.evidence
  {
    InitialIsInOrder(s, ws[0]);
    RunsStayTraced(s, {}, 0, ws, ms, i);
    var w := ws[i];
    if Collected(w.books, bid) {
      var x :| x in w.books.collected && x.owner == bid;
      assert CollectedOk(w.game, x);
    }
    if bid in w.game.takeovers { assert PaidFor(w.game, w.books, bid); }
  }
}
