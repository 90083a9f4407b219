// Counting what a run does: how often a board is taken over, and how often the provider is asked for money.
module Census {
  import opened Base
  import opened Pricing
  import opened Rows
  import opened Takeovers
  import opened GameInvariant
  import opened GameSteps
  import opened Books
  import opened BooksSteps
  import opened Desk
  import opened DeskInvariant
  import opened Intake
  import opened Risk
  import opened Protocol
  import opened Safety
  import opened SafetySteps
  import opened EventSteps
  import opened Machine
  import opened Display
  import opened History
  import opened Provenance

  // ----- steps as sequences of moves -----

  /** A bid for which the provider has nothing left to capture. */
  predicate Concluded(status: BidStatus) {
    status.Won? || status.Refunded? || status.Disputed? || status.PaymentFailed?
  }

  predicate IsChallenger(g: Game, p: BidId) {
    p in g.bids && g.bids[p].status.Authorized? && g.bids[p].board in g.boards && g.boards[g.bids[p].board].pending == Some(p)
  }

  /** Nothing is published and nothing asked, and board `id` looks the same. */
  ghost predicate Rests(w: World, w': World, id: BoardId) {
    && w'.game.takeovers == w.game.takeovers && w'.books.requests == w.books.requests
    && w'.books.collected == w.books.collected
    && (id in w.game.boards ==> id in w'.game.boards && SameDisplay(w.game.boards[id], w'.game.boards[id]))
  }

  /**
   The provider is asked for at most the money of bid `p`, which is open before and concluded after, and only
   while `p` is the authorized challenger of its board.
   */
  ghost predicate AsksFor(w: World, w': World, p: BidId) {
    && p in w.game.bids && p in w'.game.bids
    && !Concluded(w.game.bids[p].status)
    && (if w'.books.requests == w.books.requests then w'.books.collected == w.books.collected
        else
          && w.game.bids[p].intent.Some? && Concluded(w'.game.bids[p].status)
          && var i := w.game.bids[p].intent.value;
          && i.owner == p && IsChallenger(w.game, p)
          && w'.books.requests == w.books.requests + [CaptureRequest(p, i)]
          && (w'.books.collected == w.books.collected || w'.books.collected == w.books.collected + {i}))
  }

  /** Bid `t` takes its board over, for more than was shown there, and nothing else happens to any board. */
  ghost predicate Takes(s: Settings, w: World, w': World, id: BoardId, t: BidId) {
    && AsksFor(w, w', t) && t !in w.game.takeovers && t in w'.game.takeovers
    && w'.game.takeovers.Keys == w.game.takeovers.Keys + {t}
    && var row := w'.game.takeovers[t];
    && (w'.game.bids[t].approval.Some? ==> row.amount <= s.risk.globalMax)
    && (id in w.game.boards ==>
          && id in w'.game.boards
          && if row.board != id then SameDisplay(w.game.boards[id], w'.game.boards[id])
             else
               && w'.game.boards[id].version == w.game.boards[id].version + 1
               && w'.game.boards[id].amount == row.amount >= w.game.boards[id].amount + s.rules.increment)
  }

  /** The provider declines bid `p`, and no board changes hands. */
  ghost predicate Declines(w: World, w': World, id: BoardId, p: BidId) {
    && AsksFor(w, w', p) && w'.game.takeovers == w.game.takeovers
    && (id in w.game.boards ==> id in w'.game.boards && SameDisplay(w.game.boards[id], w'.game.boards[id]))
  }

  ghost predicate Move(s: Settings, w: World, w': World, id: BoardId) {
    && GameAges(w.game, w'.game)
    && (Rests(w, w', id) || (exists t {:trigger Takes(s, w, w', id, t)} :: Takes(s, w, w', id, t))
        || exists p {:trigger Declines(w, w', id, p)} :: Declines(w, w', id, p))
  }

  ghost predicate MovesAt(s: Settings, path: seq<World>, id: BoardId, k: nat)
    requires k + 1 < |path|
  {
    Move(s, path[k], path[k + 1], id)
  }

  ghost predicate IsPath(s: Settings, path: seq<World>, id: BoardId, w: World, w': World) {
    && |path| > 0 && path[0] == w && path[|path| - 1] == w'
    && forall k {:trigger MovesAt(s, path, id, k)} | 0 <= k < |path| - 1 :: MovesAt(s, path, id, k)
  }

  lemma RestMoves(s: Settings, w: World, w': World, id: BoardId)
    requires Ages(w, w') && Rests(w, w', id)
    ensures Move(s, w, w', id)
  {
  }

  lemma WinMoves(s: Settings, w: World, at: BoardId, bid: BidId, now: Time, paid: bool, b': Books, id: BoardId)
    requires CoreInv(s, w) && MayWin(s.rules.increment, w.game, at, bid, now)
    requires MovesForward(w.game.bids[bid].status, if paid then Won else DemoWon) && !Concluded(w.game.bids[bid].status)
    requires if b'.requests == w.books.requests then b'.collected == w.books.collected
             else
               && paid && w.game.bids[bid].intent.Some? && w.game.bids[bid].intent.value.owner == bid && IsChallenger(w.game, bid)
               && b'.requests == w.books.requests + [CaptureRequest(bid, w.game.bids[bid].intent.value)]
               && (b'.collected == w.books.collected || b'.collected == w.books.collected + {w.game.bids[bid].intent.value})
    ensures var r := Win(w.game, at, bid, s.rules, now, paid); r.Commit? && Move(s, w, w.(game := r.value, books := b'), id)
  {
    WinAges(s.rules.increment, w.game, at, bid, s.rules, now, paid);
    WinCommits(s.rules.increment, w.game, at, bid, s.rules, now, paid);
    assert InputsOk(s.risk.globalMax, w.game, w.intake, bid);
    var w' := w.(game := Win(w.game, at, bid, s.rules, now, paid).value, books := b');
    assert Takes(s, w, w', id, bid);
  }

  /** Settlement asks the provider exactly for a due, authorized challenger, and for its own money. */
  lemma SettlementAsksExactlyWhen(w: World, id: BoardId, rules: BoardRules, now: Time, mode: Option<CaptureReply>)
    requires Linked(w.game) && id in w.game.boards
    ensures var r := Settle(w, id, rules, now, mode);
            var board := w.game.boards[id];
            r.Commit? ==>
              if mode.Some? && IsDue(board, now) && board.pending.value in w.game.bids && w.game.bids[board.pending.value].status.Authorized?
                 && w.game.bids[board.pending.value].intent.Some?
              then r.value.0.books.requests == w.books.requests + [CaptureRequest(board.pending.value, w.game.bids[board.pending.value].intent.value)]
              else r.value.0.books.requests == w.books.requests
  {
    assert BoardLinked(w.game, id);
    if mode.Some? && IsDue(w.game.boards[id], now) {
      var bid := w.game.boards[id].pending.value;
      var row := w.game.bids[bid];
      if row.intent.Some? && mode.value.Captured? {
        var paid := w.books.(requests := w.books.requests + [CaptureRequest(bid, row.intent.value)],
                             collected := w.books.collected + {row.intent.value});
        RecordingAsksNothing(paid, bid, row, mode.value.pi, now);
      }
    }
  }

  lemma SettleMoves(s: Settings, w: World, at: BoardId, now: Time, mode: Option<CaptureReply>, id: BoardId)
    requires CoreInv(s, w) && at in w.game.boards && (mode.Some? ==> HonestFor(w.game, at, mode.value))
    ensures var r := Settle(w, at, s.rules, now, mode); r.Commit? && Move(s, w, r.value.0, id)
  {
    SettleAges(s, w, at, now, mode);
    assert BoardOk(s.rules.increment, w.game, at);
    var w' := Settle(w, at, s.rules, now, mode).value.0;
    if !IsDue(w.game.boards[at], now) {
      RestMoves(s, w, w', id);
    } else if mode.None? {
      WinMoves(s, w, at, w.game.boards[at].pending.value, now, false, w.books, id);
    } else {
      PaidSettlementMoves(s, w, at, now, mode.value, id);
    }
  }

  lemma DeclinedMoves(s: Settings, w: World, at: BoardId, now: Time, reply: CaptureReply, id: BoardId)
    requires CoreInv(s, w) && at in w.game.boards && HonestFor(w.game, at, reply) && IsDue(w.game.boards[at], now)
    requires w.game.boards[at].pending.value in w.game.bids
    requires !Collect(w.books, w.game.boards[at].pending.value, w.game.bids[w.game.boards[at].pending.value], reply, now).0
    ensures var r := SettlePaid(w, at, s.rules, now, reply); r.Commit? && Move(s, w, r.value.0, id)
  {
    SettleAges(s, w, at, now, Some(reply));
    assert BoardOk(s.rules.increment, w.game, at);
    var p := w.game.boards[at].pending.value;
    assert OwnIntent(w.game, p);
    CollectKeepsBooks(w.game.bids, w.books, p, reply, now);
    assert Declines(w, SettlePaid(w, at, s.rules, now, reply).value.0, id, p);
  }

  lemma PaidSettlementMoves(s: Settings, w: World, at: BoardId, now: Time, reply: CaptureReply, id: BoardId)
    requires CoreInv(s, w) && at in w.game.boards && HonestFor(w.game, at, reply) && IsDue(w.game.boards[at], now)
    ensures var r := SettlePaid(w, at, s.rules, now, reply); r.Commit? && Move(s, w, r.value.0, id)
  {
    assert BoardOk(s.rules.increment, w.game, at);
    var p := w.game.boards[at].pending.value;
    var (captured, b') := Collect(w.books, p, w.game.bids[p], reply, now);
    if captured {
      assert OwnIntent(w.game, p);
      CollectKeepsBooks(w.game.bids, w.books, p, reply, now);
      WinMoves(s, w, at, p, now, true, b', id);
    } else {
      DeclinedMoves(s, w, at, now, reply, id);
    }
  }

  // ----- the bidding steps -----

  lemma PlacedMoves(s: Settings, w: World, bid: BidId, o: Offer, x: Session, now: Time, id: BoardId)
    requires Linked(w.game) && o.board in w.game.boards && bid !in w.game.bids
    ensures var r := PlaceCheckout(w, bid, o, x, s, now); r.Commit? ==> Move(s, w, r.value, id)
  {
    var r := PlaceCheckout(w, bid, o, x, s, now);
    if r.Commit? {
      PlaceCheckoutAges(s, w, bid, o, x, now);
      RestMoves(s, w, r.value, id);
    }
  }

  lemma CheckoutPath(s: Settings, w: World, bid: BidId, o: Offer, x: Session, now: Time, due: CaptureReply, id: BoardId)
    returns (path: seq<World>)
    requires WorldInv(s, w) && o.board in w.game.boards && bid !in w.game.bids && HonestFor(w.game, o.board, due)
    ensures var r := CreateCheckout(w, bid, o, x, s, now, due); r.Commit? ==> IsPath(s, path, id, w, r.value)
  {
    SettleMoves(s, w, o.board, now, Some(due), id);
    SettleLinks(w, o.board, s.rules, now, Some(due));
    var w1 := SettlePaid(w, o.board, s.rules, now, due).value.0;
    PlacedMoves(s, w1, bid, o, x, now, id);
    var r := PlaceCheckout(w1, bid, o, x, s, now);
    path := [w];
    if r.Commit? {
      TwoMoves(s, w, w1, r.value, id);
      path := [w, w1, r.value];
    }
  }

  lemma PlayMoves(s: Settings, w: World, bid: BidId, now: Time, id: BoardId)
    requires WorldInv(s, w) && MayCompete(s, w.game, bid) && Undecided(w.game.bids[bid].status)
    requires !IsDue(w.game.boards[w.game.bids[bid].board], now)
    ensures var r := PlaceFreePlay(w, bid, s.rules, now); r.Commit? ==> Move(s, w, r.value.0, id)
  {
    var at := w.game.bids[bid].board;
    if Protected(w.game.boards[at], now) {
      ChallengeAges(s.rules.increment, w.game, bid, None, now);
      OnlyGameAges(w, Challenge(w.game, bid, None, now));
      if id in w.game.boards { ChallengeOnBoard(w.game, bid, None, now, id); }
      RestMoves(s, w, w.(game := Challenge(w.game, bid, None, now)), id);
    } else {
      assert WaitsBehind(w.game, at);
      WinMoves(s, w, at, bid, now, false, w.books, id);
    }
  }

  lemma AddedBidMoves(s: Settings, w: World, bid: BidId, o: Offer, amount: nat, now: Time, id: BoardId)
    requires WorldInv(s, w) && o.board in w.game.boards && bid !in w.game.bids
    requires PriceOffer(w, o, s.rules) == Commit(amount) && CheckPlayer(w, o.user).Commit?
    ensures var placed := w.(game := w.game.(bids := w.game.bids[bid := NewBid(o, amount, None, None, Created, None)]),
                             intake := w.intake.(periods := EnsureActive(w.intake.periods, w.game.boards[o.board].competition, now)));
            WorldInv(s, placed) && MayCompete(s, placed.game, bid) && Move(s, w, placed, id)
  {
    var row, competition := NewBid(o, amount, None, None, Created, None), w.game.boards[o.board].competition;
    ClearsPriceIffBeatsBoth(amount, w.game.boards[o.board].amount, s.rules, PendingAmount(w.game, o.board));
    AddFreePlayKeepsInv(s, w, bid, row, competition, now);
    AddedBidAges(s, w, bid, row, competition, now);
    RestMoves(s, w, w.(game := w.game.(bids := w.game.bids[bid := row]),
                       intake := w.intake.(periods := EnsureActive(w.intake.periods, competition, now))), id);
  }

  lemma PlaceBidPath(s: Settings, w: World, bid: BidId, o: Offer, now: Time, id: BoardId) returns (path: seq<World>)
    requires WorldInv(s, w) && o.board in w.game.boards && bid !in w.game.bids && !IsDue(w.game.boards[o.board], now)
    ensures var r := PlaceBid(w, bid, o, s.rules, now); r.Commit? ==> IsPath(s, path, id, w, r.value.0)
  {
    path := [w];
    var priced := PriceOffer(w, o, s.rules);
    if priced.Commit? && CheckPlayer(w, o.user).Commit? {
      AddedBidMoves(s, w, bid, o, priced.value, now, id);
      var placed := w.(game := w.game.(bids := w.game.bids[bid := NewBid(o, priced.value, None, None, Created, None)]),
                       intake := w.intake.(periods := EnsureActive(w.intake.periods, w.game.boards[o.board].competition, now)));
      PlayMoves(s, placed, bid, now, id);
      var r := PlaceFreePlay(placed, bid, s.rules, now);
      if r.Commit? {
        path := [w, placed, r.value.0];
        TwoMoves(s, w, placed, r.value.0, id);
      }
    }
  }

  lemma TwoMoves(s: Settings, w: World, w1: World, w2: World, id: BoardId)
    requires Move(s, w, w1, id) && Move(s, w1, w2, id)
    ensures IsPath(s, [w, w1, w2], id, w, w2)
  {
    var path := [w, w1, w2];
    forall k | 0 <= k < |path| - 1 ensures MovesAt(s, path, id, k) { assert k == 0 || k == 1; }
  }

  lemma OneMove(s: Settings, w: World, w': World, id: BoardId)
    requires Move(s, w, w', id)
    ensures IsPath(s, [w, w'], id, w, w')
  {
    assert MovesAt(s, [w, w'], id, 0);
  }

  lemma FreePlayPath(s: Settings, w: World, bid: BidId, o: Offer, now: Time, id: BoardId) returns (path: seq<World>)
    requires WorldInv(s, w) && o.board in w.game.boards && bid !in w.game.bids
    ensures var r := CreateBid(w, bid, o, s.rules, now); r.Commit? ==> IsPath(s, path, id, w, r.value.0)
  {
    SettleMoves(s, w, o.board, now, None, id);
    FreeSettleKeepsInv(s, w, o.board, now);
    var w1 := Settle(w, o.board, s.rules, now, None).value.0;
    var rest := PlaceBidPath(s, w1, bid, o, now, id);
    path := [w] + rest;
    if PlaceBid(w1, bid, o, s.rules, now).Commit? { Prepend(s, w, rest, id, w1, PlaceBid(w1, bid, o, s.rules, now).value.0); }
  }

  lemma Prepend(s: Settings, w: World, rest: seq<World>, id: BoardId, w1: World, w': World)
    requires Move(s, w, w1, id) && IsPath(s, rest, id, w1, w')
    ensures IsPath(s, [w] + rest, id, w, w')
  {
    var path := [w] + rest;
    forall k | 0 <= k < |path| - 1 ensures MovesAt(s, path, id, k) {
      if k > 0 { assert MovesAt(s, rest, id, k - 1); }
    }
  }

  lemma PlaceChallengerPath(s: Settings, w: World, bid: BidId, intent: IntentId, now: Time, own: CaptureReply, queueUp: bool, id: BoardId)
    returns (path: seq<World>)
    requires WorldInv(s, w) && bid in w.game.bids && intent.owner == bid && AwaitingAuthorization(w.game.bids[bid].status)
    requires w.game.bids[bid].board in w.game.boards
    requires own.Captured? ==> own.pi.succeeded && own.pi.id == Some(intent)
    ensures var r := PlaceChallenger(w, bid, intent, s.rules, now, own, queueUp); r.Commit? ==> IsPath(s, path, id, w, r.value.0)
  {
    var row := w.game.bids[bid];
    ClearsPriceIffBeatsBoth(row.amount, w.game.boards[row.board].amount, s.rules, PendingAmount(w.game, row.board));
    if row.amount < RequiredCents(w.game, row.board, s.rules) {
      var rejected := row.(intent := Some(intent), status := AuthCanceled, canceledAt := Some(now));
      RejectAges(w, bid, rejected);
      var w' := w.(game := w.game.(bids := w.game.bids[bid := rejected]));
      RestMoves(s, w, w', id);
      OneMove(s, w, w', id);
      path := [w, w'];
    } else {
      path := AcceptPath(s, w, bid, intent, now, own, id);
    }
  }

  lemma ChallengeMoves(s: Settings, w: World, bid: BidId, intent: IntentId, now: Time, id: BoardId)
    requires WorldInv(s, w) && MayCompete(s, w.game, bid) && Undecided(w.game.bids[bid].status)
    ensures Move(s, w, w.(game := Challenge(w.game, bid, Some(intent), now)), id)
  {
    ChallengeAges(s.rules.increment, w.game, bid, Some(intent), now);
    var w1 := w.(game := Challenge(w.game, bid, Some(intent), now));
    OnlyGameAges(w, w1.game);
    if id in w.game.boards { ChallengeOnBoard(w.game, bid, Some(intent), now, id); }
    RestMoves(s, w, w1, id);
  }

  lemma AcceptPath(s: Settings, w: World, bid: BidId, intent: IntentId, now: Time, own: CaptureReply, id: BoardId) returns (path: seq<World>)
    requires WorldInv(s, w) && MayCompete(s, w.game, bid) && intent.owner == bid && Undecided(w.game.bids[bid].status)
    requires own.Captured? ==> own.pi.succeeded && own.pi.id == Some(intent)
    ensures var w1 := w.(game := Challenge(w.game, bid, Some(intent), now));
            var at := w.game.bids[bid].board;
            && Linked(w1.game) && at in w1.game.boards
            && (if Protected(w.game.boards[at], now) then IsPath(s, path, id, w, w1)
                else
                  var r := SettlePaid(w1, at, s.rules, now, own); r.Commit? && IsPath(s, path, id, w, r.value.0))
  {
    var at := w.game.bids[bid].board;
    var w1 := w.(game := Challenge(w.game, bid, Some(intent), now));
    ChallengeMoves(s, w, bid, intent, now, id);
    ChallengeKeepsWorld(s, w, bid, Some(intent), now);
    assert BidLinked(w.game, bid);
    if Protected(w.game.boards[at], now) {
      OneMove(s, w, w1, id);
      path := [w, w1];
    } else {
      ChallengeIsDue(s, w, bid, intent, now);
      SettleMoves(s, w1, at, now, Some(own), id);
      var w2 := SettlePaid(w1, at, s.rules, now, own).value.0;
      TwoMoves(s, w, w1, w2, id);
      path := [w, w1, w2];
    }
  }

  lemma AuthorizationPath(s: Settings, w: World, bid: BidId, intent: IntentId, now: Time,
                          due: CaptureReply, own: CaptureReply, queueUp: bool, id: BoardId) returns (path: seq<World>)
    requires WorldInv(s, w) && bid in w.game.bids && intent.owner == bid
    requires w.game.bids[bid].board in w.game.boards && HonestFor(w.game, w.game.bids[bid].board, due)
    requires own.Captured? ==> own.pi.succeeded && own.pi.id == Some(intent)
    ensures var r := AuthorizeBid(w, bid, intent, s.rules, now, due, own, queueUp); r.Commit? ==> IsPath(s, path, id, w, r.value.0)
  {
    path := [w];
    if AwaitingAuthorization(w.game.bids[bid].status) {
      var at := w.game.bids[bid].board;
      SettleSparesNewcomer(s, w, bid, now, due);
      SettleMoves(s, w, at, now, Some(due), id);
      var w1 := SettlePaid(w, at, s.rules, now, due).value.0;
      var rest := PlaceChallengerPath(s, w1, bid, intent, now, own, queueUp, id);
      var r := PlaceChallenger(w1, bid, intent, s.rules, now, own, queueUp);
      if r.Commit? {
        Prepend(s, w, rest, id, w1, r.value.0);
        path := [w] + rest;
      }
    }
  }

  // ----- all steps -----

  lemma OthersAskNothing(s: Settings, w: World, step: Step, now: Time)
    requires Enabled(w, step)
    requires !step.Checkout? && !step.FreePlay? && !step.Authorization? && !step.FinalizeDue?
    ensures var b' := Apply(s, w, step, now).books; b'.requests == w.books.requests && b'.collected == w.books.collected
  {
    if step.PaymentSuccess? && step.of.Some? && step.of.value in w.game.bids {
      RecordingAsksNothing(w.books, step.of.value, w.game.bids[step.of.value], step.pi, now);
    }
  }

  lemma BiddingPath(s: Settings, w: World, step: Step, now: Time, id: BoardId) returns (path: seq<World>)
    requires WorldInv(s, w) && Enabled(w, step)
    requires step.Checkout? || step.FreePlay? || step.Authorization? || step.FinalizeDue?
    ensures IsPath(s, path, id, w, Apply(s, w, step, now))
  {
    path := [w];
    match step
    case Checkout(p, o, x, due) =>
      var longer := CheckoutPath(s, w, p, o, x, now, due, id);
      if Attempt(s, w, step, now).Commit? { path := longer; }
    case FreePlay(p, o) =>
      var longer := FreePlayPath(s, w, p, o, now, id);
      if Attempt(s, w, step, now).Commit? { path := longer; }
    case FinalizeDue(b, expected, mode) =>
      SettleMoves(s, w, b, now, mode, id);
      if Apply(s, w, step, now) != w {
        OneMove(s, w, Apply(s, w, step, now), id);
        path := [w, Apply(s, w, step, now)];
      }
    case Authorization(e, due, own, queueUp) =>
      if KnownBid(w.game, e) && e.intent.Some? {
        var longer := AuthorizationPath(s, w, e.bid.value, e.intent.value, now, due, own, queueUp, id);
        if Attempt(s, w, step, now).Commit? { path := longer; }
      }
  }

  // ----- counting takeovers -----

  /** The takeovers of board `id` published since `g0`. */
  ghost function NewOn(g0: Game, g: Game, id: BoardId): set<BidId> {
    set t | t in g.takeovers && t !in g0.takeovers && g.takeovers[t].board == id
  }

  /** Those that were paid for: only a paid bid names an approval. */
  ghost function NewPaidOn(g0: Game, g: Game, id: BoardId): set<BidId> {
    set t | t in g.takeovers && t !in g0.takeovers && g.takeovers[t].board == id && t in g.bids && g.bids[t].approval.Some?
  }

  /** Every takeover of board `id` since `w0` was one version step and at least one increment, and paid ones stay under the maximum. */
  ghost predicate Tallied(s: Settings, w0: World, w: World, id: BoardId) {
    && id in w0.game.boards && id in w.game.boards && w0.game.takeovers.Keys <= w.game.takeovers.Keys
    && w.game.takeovers.Keys <= w.game.bids.Keys
    && var n := |NewOn(w0.game, w.game, id)|;
    && w.game.boards[id].version == w0.game.boards[id].version + n
    && w.game.boards[id].amount >= w0.game.boards[id].amount + n * s.rules.increment
    && |NewPaidOn(w0.game, w.game, id)| <= n
    && |NewPaidOn(w0.game, w.game, id)| * s.rules.increment <= s.risk.globalMax
  }

  lemma NothingTallied(s: Settings, w: World, id: BoardId)
    requires WorldInv(s, w) && id in w.game.boards
    ensures Tallied(s, w, w, id)
  {
    TakeoversAreBids(w.game);
    assert NewOn(w.game, w.game, id) == {} && NewPaidOn(w.game, w.game, id) == {};
  }

  lemma QuietKeepsTally(s: Settings, w0: World, w: World, w': World, id: BoardId)
    requires Tallied(s, w0, w, id) && GameAges(w.game, w'.game) && w'.game.takeovers == w.game.takeovers
    requires id in w'.game.boards && SameDisplay(w.game.boards[id], w'.game.boards[id])
    ensures Tallied(s, w0, w', id)
  {
    forall t | t in w.game.takeovers ensures t in w'.game.bids && w'.game.bids[t].approval == w.game.bids[t].approval {
      assert BidAges(w.game, w'.game, t);
    }
    assert NewOn(w0.game, w'.game, id) == NewOn(w0.game, w.game, id);
    assert NewPaidOn(w0.game, w'.game, id) == NewPaidOn(w0.game, w.game, id);
  }

  /** One more takeover, and the older ones still there, as they were. */
  ghost predicate Adds(g: Game, g': Game, t: BidId) {
    && t !in g.takeovers && g'.takeovers.Keys == g.takeovers.Keys + {t} && g'.takeovers.Keys <= g'.bids.Keys
    && forall u {:trigger g'.takeovers[u]} | u in g.takeovers ::
         && g'.takeovers[u] == g.takeovers[u]
         && u in g.bids && g'.bids[u].approval == g.bids[u].approval
  }

  lemma TakingAdds(s: Settings, w: World, w': World, id: BoardId, t: BidId)
    requires GameAges(w.game, w'.game) && w.game.takeovers.Keys <= w.game.bids.Keys && Takes(s, w, w', id, t)
    ensures Adds(w.game, w'.game, t)
  {
    forall u | u in w.game.takeovers
      ensures u in w'.game.bids && w'.game.bids[u].approval == w.game.bids[u].approval
      ensures u in w'.game.takeovers && w'.game.takeovers[u] == w.game.takeovers[u]
    {
      assert BidAges(w.game, w'.game, u) && TakeoverStays(w.game, w'.game, u);
    }
  }

  /** How a takeover changes the two sets. */
  lemma AddingCounts(g0: Game, g: Game, g': Game, id: BoardId, t: BidId)
    requires g0.takeovers.Keys <= g.takeovers.Keys && Adds(g, g', t)
    ensures |NewOn(g0, g', id)| == |NewOn(g0, g, id)| + (if g'.takeovers[t].board == id then 1 else 0)
  {
    forall u | u != t ensures u in NewOn(g0, g', id) <==> u in NewOn(g0, g, id) {
      if u in g.takeovers { assert g'.takeovers[u] == g.takeovers[u]; }
    }
    OneMore(NewOn(g0, g, id), NewOn(g0, g', id), t);
  }

  lemma AddingCountsPaid(g0: Game, g: Game, g': Game, id: BoardId, t: BidId)
    requires g0.takeovers.Keys <= g.takeovers.Keys && Adds(g, g', t)
    ensures |NewPaidOn(g0, g', id)| ==
            |NewPaidOn(g0, g, id)| + (if g'.takeovers[t].board == id && g'.bids[t].approval.Some? then 1 else 0)
  {
    forall u | u != t ensures u in NewPaidOn(g0, g', id) <==> u in NewPaidOn(g0, g, id) {
      if u in g.takeovers { assert g'.takeovers[u] == g.takeovers[u]; }
    }
    OneMore(NewPaidOn(g0, g, id), NewPaidOn(g0, g', id), t);
  }

  lemma OneMore(a: set<BidId>, b: set<BidId>, t: BidId)
    requires t !in a && forall u | u != t :: u in b <==> u in a
    ensures |b| == |a| + (if t in b then 1 else 0)
  {
    if t in b { assert b == a + {t}; } else { assert b == a; }
  }

  lemma TakingKeepsTally(s: Settings, w0: World, w: World, w': World, id: BoardId, t: BidId)
    requires Tallied(s, w0, w, id) && GameAges(w.game, w'.game) && Takes(s, w, w', id, t)
    ensures Tallied(s, w0, w', id)
  {
    TakingAdds(s, w, w', id, t);
    AddingCounts(w0.game, w.game, w'.game, id, t);
    AddingCountsPaid(w0.game, w.game, w'.game, id, t);
    var n, paid := |NewOn(w0.game, w.game, id)|, |NewPaidOn(w0.game, w'.game, id)|;
    if w'.game.takeovers[t].board == id {
      assert (n + 1) * s.rules.increment == n * s.rules.increment + s.rules.increment;
      MultiplyBoth(paid, n + 1, s.rules.increment);
    }
  }

  lemma MoveKeepsTally(s: Settings, w0: World, w: World, w': World, id: BoardId)
    requires Tallied(s, w0, w, id) && Move(s, w, w', id)
    ensures Tallied(s, w0, w', id)
  {
    if t :| Takes(s, w, w', id, t) {
      TakingKeepsTally(s, w0, w, w', id, t);
    } else {
      QuietKeepsTally(s, w0, w, w', id);
    }
  }

  lemma {:induction false} PathKeepsTally(s: Settings, path: seq<World>, id: BoardId, w0: World, w: World, w': World, k: nat)
    requires IsPath(s, path, id, w, w') && Tallied(s, w0, w, id) && k < |path|
    ensures Tallied(s, w0, path[k], id)
    decreases k
  {
    if k > 0 {
      PathKeepsTally(s, path, id, w0, w, w', k - 1);
      assert MovesAt(s, path, id, k - 1);
      MoveKeepsTally(s, w0, path[k - 1], path[k], id);
    }
  }

  lemma PathEndsTallied(s: Settings, path: seq<World>, id: BoardId, w0: World, w: World, w': World)
    requires IsPath(s, path, id, w, w') && Tallied(s, w0, w, id)
    ensures Tallied(s, w0, w', id)
  {
    PathKeepsTally(s, path, id, w0, w, w', |path| - 1);
  }

  lemma StepKeepsTally(s: Settings, w0: World, w: World, step: Step, now: Time, id: BoardId)
    requires WorldInv(s, w) && Enabled(w, step) && Tallied(s, w0, w, id) && !Clears(step, w.game.boards[id])
    ensures Tallied(s, w0, Apply(s, w, step, now), id)
  {
    if step.Checkout? || step.FreePlay? || step.Authorization? || step.FinalizeDue? {
      var path := BiddingPath(s, w, step, now, id);
      PathEndsTallied(s, path, id, w0, w, Apply(s, w, step, now));
    } else {
      OthersKeepTally(s, w0, w, step, now, id);
    }
  }

  lemma OthersKeepTally(s: Settings, w0: World, w: World, step: Step, now: Time, id: BoardId)
    requires WorldInv(s, w) && Enabled(w, step) && Tallied(s, w0, w, id) && !Clears(step, w.game.boards[id])
    requires !step.Checkout? && !step.FreePlay? && !step.Authorization? && !step.FinalizeDue?
    ensures Tallied(s, w0, Apply(s, w, step, now), id)
  {
    StepAges(s, w, step, now);
    OtherStepsOnBoard(s, w, step, now, id);
    OthersKeepTakeovers(s, w, step, now);
    QuietKeepsTally(s, w0, w, Apply(s, w, step, now), id);
  }

  lemma OthersKeepTakeovers(s: Settings, w: World, step: Step, now: Time)
    requires WorldInv(s, w) && Enabled(w, step)
    requires !step.Checkout? && !step.FreePlay? && !step.Authorization? && !step.FinalizeDue?
    ensures Apply(s, w, step, now).game.takeovers == w.game.takeovers
  {
    if step.Remove? {
      if step.about in w.game.cases { RemovalHeads(w.game, step.about, now, 0); }
    } else {
      OthersPublishNothing(s, w, step, now, 0);
    }
  }

  lemma TalliedOnce(s: Settings, ws: seq<World>, ms: seq<Moment>, id: BoardId, k: nat)
    requires Follows(s, ws, ms) && k < |ms| && WorldInv(s, ws[k])
    requires Tallied(s, ws[0], ws[k], id) && !Clears(ms[k].step, ws[k].game.boards[id])
    ensures WorldInv(s, ws[k + 1]) && Tallied(s, ws[0], ws[k + 1], id)
  {
    assert Connects(s, ws, ms, k);
    StepKeepsInv(s, ws[k], ms[k].step, ms[k].at);
    StepKeepsTally(s, ws[0], ws[k], ms[k].step, ms[k].at, id);
  }

  lemma {:induction false} RunsStayTallied(s: Settings, ws: seq<World>, ms: seq<Moment>, id: BoardId, i: nat)
    requires Follows(s, ws, ms) && WorldInv(s, ws[0]) && i < |ws| && id in ws[0].game.boards
    requires forall k {:trigger ms[k]} | 0 <= k < i :: id in ws[k].game.boards ==> !Clears(ms[k].step, ws[k].game.boards[id])
    ensures WorldInv(s, ws[i]) && Tallied(s, ws[0], ws[i], id)
    decreases i
  {
    if i > 0 {
      RunsStayTallied(s, ws, ms, id, i - 1);
      TalliedOnce(s, ws, ms, id, i - 1);
    } else {
      NothingTallied(s, ws[0], id);
    }
  }

  /**
   The version of a board counts its takeovers: until its live takeover is removed or its week ends, the
   version rises by exactly the number of takeovers published on it, and its price by at least as many increments.
   */
  lemma VersionCountsTakeovers(s: Settings, ws: seq<World>, ms: seq<Moment>, id: BoardId, i: nat)
    requires Follows(s, ws, ms) && WorldInv(s, ws[0]) && i < |ws| && id in ws[0].game.boards
    requires forall k {:trigger ms[k]} | 0 <= k < i :: id in ws[k].game.boards ==> !Clears(ms[k].step, ws[k].game.boards[id])
    ensures id in ws[i].game.boards
    ensures var n := |NewOn(ws[0].game, ws[i].game, id)|;
            && ws[i].game.boards[id].version == ws[0].game.boards[id].version + n
            && ws[i].game.boards[id].amount >= ws[0].game.boards[id].amount + n * s.rules.increment
  {
    RunsStayTallied(s, ws, ms, id, i);
  }

  /**
   Between two clearings a board is taken over for money at most (global maximum / increment) times, whatever
   else happens to it, free play included.
   */
  lemma PaidTakeoversAreBounded(s: Settings, ws: seq<World>, ms: seq<Moment>, id: BoardId, i: nat)
    requires Follows(s, ws, ms) && WorldInv(s, ws[0]) && i < |ws| && id in ws[0].game.boards
    requires forall k {:trigger ms[k]} | 0 <= k < i :: id in ws[k].game.boards ==> !Clears(ms[k].step, ws[k].game.boards[id])
    ensures var paid := |NewPaidOn(ws[0].game, ws[i].game, id)|;
            paid * s.rules.increment <= s.risk.globalMax && paid <= s.risk.globalMax / s.rules.increment
  {
    RunsStayTallied(s, ws, ms, id, i);
    QuotientBound(|NewPaidOn(ws[0].game, ws[i].game, id)|, s.rules.increment, s.risk.globalMax);
  }

  // ----- counting capture requests -----

  ghost predicate RequestOk(w: World, k: nat)
    requires k < |w.books.requests|
  {
    var r := w.books.requests[k];
    r.bid in w.game.bids && Concluded(w.game.bids[r.bid].status) && r.intent.owner == r.bid
  }

  ghost predicate OwnRequest(b: Books, j: nat, k: nat)
    requires j < |b.requests| && k < |b.requests|
  {
    j != k ==> b.requests[j].bid != b.requests[k].bid
  }

  ghost predicate WasAsked(b: Books, i: IntentId) {
    exists k {:trigger b.requests[k]} | 0 <= k < |b.requests| :: b.requests[k].intent == i
  }

  /** Every request was made once, for a bid that is now concluded, and nothing was captured unasked. */
  ghost predicate Asked(w: World) {
    && (forall k {:trigger RequestOk(w, k)} | 0 <= k < |w.books.requests| :: RequestOk(w, k))
    && (forall j, k {:trigger OwnRequest(w.books, j, k)} | 0 <= j < |w.books.requests| && 0 <= k < |w.books.requests| ::
          OwnRequest(w.books, j, k))
    && (forall i {:trigger WasAsked(w.books, i)} | i in w.books.collected :: WasAsked(w.books, i))
  }

  lemma QuietKeepsAsked(w: World, w': World)
    requires Asked(w) && GameAges(w.game, w'.game)
    requires w'.books.requests == w.books.requests && w'.books.collected == w.books.collected
    ensures Asked(w')
  {
    forall k | 0 <= k < |w'.books.requests| ensures RequestOk(w', k) {
      assert RequestOk(w, k) && BidAges(w.game, w'.game, w.books.requests[k].bid);
    }
    forall j, k | 0 <= j < |w'.books.requests| && 0 <= k < |w'.books.requests| ensures OwnRequest(w'.books, j, k) {
      assert OwnRequest(w.books, j, k);
    }
    forall i | i in w'.books.collected ensures WasAsked(w'.books, i) { assert WasAsked(w.books, i); }
  }

  lemma AskingKeepsAsked(w: World, w': World, p: BidId)
    requires Asked(w) && GameAges(w.game, w'.game) && AsksFor(w, w', p) && w'.books.requests != w.books.requests
    ensures Asked(w')
  {
    var n := |w.books.requests|;
    forall k | 0 <= k < n ensures RequestOk(w', k) && w.books.requests[k].bid != p {
      assert RequestOk(w, k) && BidAges(w.game, w'.game, w.books.requests[k].bid);
    }
    forall j, k | 0 <= j < |w'.books.requests| && 0 <= k < |w'.books.requests| ensures OwnRequest(w'.books, j, k) {
      if j < n && k < n { assert OwnRequest(w.books, j, k); }
    }
    assert w'.books.requests[n].intent == w.game.bids[p].intent.value;
    forall i | i in w'.books.collected ensures WasAsked(w'.books, i) {
      if i in w.books.collected {
        assert WasAsked(w.books, i);
        var k :| 0 <= k < n && w.books.requests[k].intent == i;
        assert w'.books.requests[k].intent == i;
      }
    }
  }

  lemma MoveKeepsAsked(s: Settings, w: World, w': World, id: BoardId)
    requires Asked(w) && Move(s, w, w', id)
    ensures Asked(w')
  {
    if w'.books.requests == w.books.requests {
      QuietKeepsAsked(w, w');
    } else if t :| Takes(s, w, w', id, t) {
      AskingKeepsAsked(w, w', t);
    } else {
      var p :| Declines(w, w', id, p);
      AskingKeepsAsked(w, w', p);
    }
  }

  lemma {:induction false} PathKeepsAsked(s: Settings, path: seq<World>, id: BoardId, w: World, w': World, k: nat)
    requires IsPath(s, path, id, w, w') && Asked(w) && k < |path|
    ensures Asked(path[k])
    decreases k
  {
    if k > 0 {
      PathKeepsAsked(s, path, id, w, w', k - 1);
      assert MovesAt(s, path, id, k - 1);
      MoveKeepsAsked(s, path[k - 1], path[k], id);
    }
  }

  lemma PathEndsAsked(s: Settings, path: seq<World>, id: BoardId, w: World, w': World)
    requires IsPath(s, path, id, w, w') && Asked(w)
    ensures Asked(w')
  {
    PathKeepsAsked(s, path, id, w, w', |path| - 1);
  }

  lemma StepKeepsAsked(s: Settings, w: World, step: Step, now: Time)
    requires WorldInv(s, w) && Enabled(w, step) && Asked(w)
    ensures Asked(Apply(s, w, step, now))
  {
    if step.Checkout? || step.FreePlay? || step.Authorization? || step.FinalizeDue? {
      var path := BiddingPath(s, w, step, now, 0);
      PathEndsAsked(s, path, 0, w, Apply(s, w, step, now));
    } else {
      OthersKeepAsked(s, w, step, now);
    }
  }

  lemma OthersKeepAsked(s: Settings, w: World, step: Step, now: Time)
    requires WorldInv(s, w) && Enabled(w, step) && Asked(w)
    requires !step.Checkout? && !step.FreePlay? && !step.Authorization? && !step.FinalizeDue?
    ensures Asked(Apply(s, w, step, now))
  {
    StepAges(s, w, step, now);
    OthersAskNothing(s, w, step, now);
    QuietKeepsAsked(w, Apply(s, w, step, now));
  }

  lemma {:induction false} RunsStayAsked(s: Settings, ws: seq<World>, ms: seq<Moment>, i: nat)
    requires IsRun(s, ws, ms) && i < |ws|
    ensures Asked(ws[i])
    decreases i
  {
    if i > 0 {
      RunsStayAsked(s, ws, ms, i - 1);
      RunsStayInOrder(s, ws, ms, i - 1);
      assert Connects(s, ws, ms, i - 1);
      StepKeepsAsked(s, ws[i - 1], ms[i - 1].step, ms[i - 1].at);
    }
  }

  /**
   The provider is asked for the money of a bid at most once in a run, with an intent of that bid's own; what it
   captures it was asked for; and a request is settled for good: the bid was captured and published, or its payment failed.
   */
  lemma CapturesAreAskedOnce(s: Settings, ws: seq<World>, ms: seq<Moment>, i: nat)
    requires IsRun(s, ws, ms) && i < |ws|
    ensures var w := ws[i];
            && (forall j, k | 0 <= j < k < |w.books.requests| :: w.books.requests[j].bid != w.books.requests[k].bid)
            && (forall x | x in w.books.collected :: exists k | 0 <= k < |w.books.requests| :: w.books.requests[k].intent == x)
            && (forall k | 0 <= k < |w.books.requests| ::
                  var r := w.books.requests[k];
                  && r.intent.owner == r.bid && r.bid in w.game.bids
                  && (if r.intent in w.books.collected then r.bid in w.game.takeovers else w.game.bids[r.bid].status.PaymentFailed?))
  {
    RunsStayAsked(s, ws, ms, i);
    RunsStayInOrder(s, ws, ms, i);
    var w := ws[i];
    forall j, k | 0 <= j < k < |w.books.requests| ensures w.books.requests[j].bid != w.books.requests[k].bid {
      assert OwnRequest(w.books, j, k);
    }
    forall x | x in w.books.collected ensures exists k | 0 <= k < |w.books.requests| :: w.books.requests[k].intent == x {
      assert WasAsked(w.books, x);
    }
    forall k | 0 <= k < |w.books.requests|
      ensures RequestOk(w, k)
      ensures var r := w.books.requests[k];
              if r.intent in w.books.collected then r.bid in w.game.takeovers else w.game.bids[r.bid].status.PaymentFailed?
    {
      RequestsAreSettled(s, ws, ms, i, k);
    }
  }

  lemma RequestsAreSettled(s: Settings, ws: seq<World>, ms: seq<Moment>, i: nat, k: nat)
    requires IsRun(s, ws, ms) && i < |ws| && Asked(ws[i]) && k < |ws[i].books.requests|
    ensures var w := ws[i];
            var r := w.books.requests[k];
            && RequestOk(w, k)
            && if r.intent in w.books.collected then r.bid in w.game.takeovers else w.game.bids[r.bid].status.PaymentFailed?
  {
    var w := ws[i];
    var r := w.books.requests[k];
    assert RequestOk(w, k);
    RunsStayInOrder(s, ws, ms, i);
    MoneyMovesExactlyOnTakeover(s, ws, ms, i, r.bid);
    assert StatusOk(w.game, r.bid);
    if Collected(w.books, r.bid) {
      var x :| x in w.books.collected && x.owner == r.bid;
      assert WasAsked(w.books, x);
      var j :| 0 <= j < |w.books.requests| && w.books.requests[j].intent == x;
      assert RequestOk(w, j) && OwnRequest(w.books, j, k);
    }
  }
}
