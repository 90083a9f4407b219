// No challenger is forgotten: while a paid bid waits, a message about it is in the queue.
module Inbox {
  import opened Base
  import opened Pricing
  import opened Rows
  import opened Takeovers
  import opened GameInvariant
  import opened GameSteps
  import opened Books
  import opened Desk
  import opened DeskInvariant
  import opened Intake
  import opened Protocol
  import opened Safety
  import opened SafetySteps
  import opened EventSteps
  import opened Machine
  import opened Display
  import opened History
  import opened Queue

  /** The challenger of a board stays, leaves, or is `who`. */
  ghost predicate PendingFrom(g: Game, g': Game, id: BoardId, who: Option<BidId>) {
    id in g.boards && id in g'.boards ==>
      var p, p' := g.boards[id].pending, g'.boards[id].pending;
      p' == p || p'.None? || p' == who
  }

  lemma {:induction false} ResetPending(g: Game, ids: seq<BoardId>, releases: Releases, now: Time, id: BoardId)
    requires Linked(g) && forall i | 0 <= i < |ids| :: ids[i] in g.boards
    ensures var r := ResetBoards(g, ids, releases, now); r.Commit? ==> PendingFrom(g, r.value, id, None)
    decreases |ids|
  {
    if ids != [] { ResetPending(g, ids[..|ids| - 1], releases, now, id); }
  }

  lemma FinalizePending(inc: nat, g: Game, at: BoardId, rules: BoardRules, now: Time, mode: CaptureMode, id: BoardId)
    requires GameInv(inc, g) && at in g.boards
    ensures var r := FinalizeLocked(g, at, rules, now, mode); r.Commit? && PendingFrom(g, r.value.0, id, None)
  {
    FinalizeKeepsInv(inc, g, at, rules, now, mode);
    assert BoardOk(inc, g, at);
  }

  lemma SettlePending(s: Settings, w: World, at: BoardId, now: Time, mode: Option<CaptureReply>, id: BoardId)
    requires CoreInv(s, w) && at in w.game.boards
    ensures var r := Settle(w, at, s.rules, now, mode); r.Commit? && PendingFrom(w.game, r.value.0.game, id, None)
  {
    FinalizePending(s.rules.increment, w.game, at, s.rules, now, CaptureMode.FreePlay, id);
    FinalizePending(s.rules.increment, w.game, at, s.rules, now, Paid(true), id);
    FinalizePending(s.rules.increment, w.game, at, s.rules, now, Paid(false), id);
  }

  lemma PlayPending(w: World, bid: BidId, rules: BoardRules, now: Time, id: BoardId)
    requires Linked(w.game) && bid in w.game.bids
    ensures var r := PlaceFreePlay(w, bid, rules, now); r.Commit? ==> PendingFrom(w.game, r.value.0.game, id, Some(bid))
  {
    assert BidLinked(w.game, bid);
  }

  lemma PlacePending(w: World, bid: BidId, o: Offer, rules: BoardRules, now: Time, id: BoardId)
    requires Linked(w.game) && o.board in w.game.boards && bid !in w.game.bids
    ensures var r := PlaceBid(w, bid, o, rules, now); r.Commit? ==> PendingFrom(w.game, r.value.0.game, id, Some(bid))
  {
    var priced := PriceOffer(w, o, rules);
    if priced.Commit? && CheckPlayer(w, o.user).Commit? {
      var row := NewBid(o, priced.value, None, None, Created, None);
      NewBidLinks(w.game, bid, row);
      var placed := w.(game := w.game.(bids := w.game.bids[bid := row]),
                       intake := w.intake.(periods := EnsureActive(w.intake.periods, w.game.boards[o.board].competition, now)));
      PlayPending(placed, bid, rules, now, id);
    }
  }

  lemma FreePlayPending(s: Settings, w: World, bid: BidId, o: Offer, now: Time, id: BoardId)
    requires WorldInv(s, w) && o.board in w.game.boards && bid !in w.game.bids
    ensures var r := CreateBid(w, bid, o, s.rules, now); r.Commit? ==> PendingFrom(w.game, r.value.0.game, id, Some(bid))
  {
    SettlePending(s, w, o.board, now, None, id);
    FreeSettleKeepsInv(s, w, o.board, now);
    PlacePending(Settle(w, o.board, s.rules, now, None).value.0, bid, o, s.rules, now, id);
  }

  lemma ChallengePending(g: Game, bid: BidId, intent: Option<IntentId>, now: Time, id: BoardId)
    requires Linked(g) && bid in g.bids
    ensures PendingFrom(g, Challenge(g, bid, intent, now), id, Some(bid))
  {
  }

  lemma PlaceChallengerPending(s: Settings, w: World, bid: BidId, intent: IntentId, now: Time, own: CaptureReply, queueUp: bool, id: BoardId)
    requires WorldInv(s, w) && bid in w.game.bids && intent.owner == bid && AwaitingAuthorization(w.game.bids[bid].status)
    requires w.game.bids[bid].board in w.game.boards
    requires own.Captured? ==> own.pi.succeeded && own.pi.id == Some(intent)
    ensures var r := PlaceChallenger(w, bid, intent, s.rules, now, own, queueUp);
            r.Commit? ==> PendingFrom(w.game, r.value.0.game, id, Some(bid))
  {
    var row := w.game.bids[bid];
    ClearsPriceIffBeatsBoth(row.amount, w.game.boards[row.board].amount, s.rules, PendingAmount(w.game, row.board));
    ChallengePending(w.game, bid, Some(intent), now, id);
    if row.amount >= RequiredCents(w.game, row.board, s.rules) {
      ChallengeKeepsWorld(s, w, bid, Some(intent), now);
      ChallengeLinks(w.game, bid, Some(intent), now);
      SettlePending(s, w.(game := Challenge(w.game, bid, Some(intent), now)), row.board, now, Some(own), id);
    }
  }

  lemma PendingComposes(g: Game, g1: Game, g': Game, id: BoardId, who: Option<BidId>)
    requires PendingFrom(g, g1, id, None) && PendingFrom(g1, g', id, who) && (id in g.boards ==> id in g1.boards)
    ensures PendingFrom(g, g', id, who)
  {
  }

  lemma NewcomerPending(s: Settings, w: World, bid: BidId, now: Time, due: CaptureReply, id: BoardId)
    requires WorldInv(s, w) && bid in w.game.bids && AwaitingAuthorization(w.game.bids[bid].status)
    requires w.game.bids[bid].board in w.game.boards && HonestFor(w.game, w.game.bids[bid].board, due)
    ensures var r := SettlePaid(w, w.game.bids[bid].board, s.rules, now, due);
            && r.Commit? && WorldInv(s, r.value.0) && PendingFrom(w.game, r.value.0.game, id, None)
            && bid in r.value.0.game.bids && r.value.0.game.bids[bid] == w.game.bids[bid]
            && r.value.0.game.boards.Keys == w.game.boards.Keys && w.game.bids[bid].board in r.value.0.game.boards
  {
    SettleSparesNewcomer(s, w, bid, now, due);
    SettlePending(s, w, w.game.bids[bid].board, now, Some(due), id);
    SettleLinks(w, w.game.bids[bid].board, s.rules, now, Some(due));
  }

  lemma AuthorizePending(s: Settings, w: World, bid: BidId, intent: IntentId, now: Time,
                         due: CaptureReply, own: CaptureReply, queueUp: bool, id: BoardId)
    requires WorldInv(s, w) && bid in w.game.bids && intent.owner == bid
    requires w.game.bids[bid].board in w.game.boards && HonestFor(w.game, w.game.bids[bid].board, due)
    requires own.Captured? ==> own.pi.succeeded && own.pi.id == Some(intent)
    ensures var r := AuthorizeBid(w, bid, intent, s.rules, now, due, own, queueUp);
            r.Commit? ==> PendingFrom(w.game, r.value.0.game, id, Some(bid))
  {
    if AwaitingAuthorization(w.game.bids[bid].status) {
      NewcomerPending(s, w, bid, now, due, id);
      var w1 := SettlePaid(w, w.game.bids[bid].board, s.rules, now, due).value.0;
      PlaceChallengerPending(s, w1, bid, intent, now, own, queueUp, id);
      var r := PlaceChallenger(w1, bid, intent, s.rules, now, own, queueUp);
      if r.Commit? { PendingComposes(w.game, w1.game, r.value.0.game, id, Some(bid)); }
    }
  }

  /** The bid a step may put in line. */
  function Newcomer(step: Step): Option<BidId> {
    match step
    case FreePlay(bid, _) => Some(bid)
    case Authorization(e, _, _, _) => e.bid
    case _ => None
  }

  lemma BiddingPending(s: Settings, w: World, step: Step, now: Time, id: BoardId)
    requires WorldInv(s, w) && Enabled(w, step)
    requires step.Checkout? || step.FreePlay? || step.FinalizeDue? || step.Authorization?
    ensures PendingFrom(w.game, Apply(s, w, step, now).game, id, Newcomer(step))
  {
    match step
    case Checkout(p, o, x, due) => SettlePending(s, w, o.board, now, Some(due), id);
    case FreePlay(p, o) => FreePlayPending(s, w, p, o, now, id);
    case FinalizeDue(b, expected, mode) => SettlePending(s, w, b, now, mode, id);
    case Authorization(e, due, own, queueUp) =>
      if KnownBid(w.game, e) && e.intent.Some? {
        AuthorizePending(s, w, e.bid.value, e.intent.value, now, due, own, queueUp, id);
      }
  }

  lemma OthersPending(s: Settings, w: World, step: Step, now: Time, id: BoardId)
    requires WorldInv(s, w) && Enabled(w, step)
    requires !step.Checkout? && !step.FreePlay? && !step.FinalizeDue? && !step.Authorization?
    ensures PendingFrom(w.game, Apply(s, w, step, now).game, id, None)
  {
    if SparesGame(step) {
      GameIsSpared(s, w, step, now);
    } else if step.Reset? {
      ResetPending(w.game, step.ids, step.releases, now, id);
    } else if step.EndPayment? {
      EndIsQuiet(s, w, step.about, step.answer, now);
    } else {
      RewritesPending(s, w, step, now, id);
    }
  }

  lemma RewritesPending(s: Settings, w: World, step: Step, now: Time, id: BoardId)
    requires Enabled(w, step) && (RewritesRows(step) || step.Remove?)
    ensures PendingFrom(w.game, Apply(s, w, step, now).game, id, None)
  {
  }

  // ----- the queue beside the tables -----

  /** The messages in the queue. */
  type Inbox = set<Trigger>

  /** The message a step sends; sending is part of its transaction. */
  ghost function Sent(s: Settings, w: World, step: Step, now: Time): Inbox
    requires Enabled(w, step)
  {
    if !step.Authorization? then {}
    else
      var r := AuthorizationEvent(w, step.event, s.rules, now, step.due, step.own, step.queueUp);
      if r.Commit? && r.value.1.sent.Some? then {r.value.1.sent.value} else {}
  }

  /** A newcomer that finds nobody protected is settled at once. */
  lemma SettledNotWaiting(s: Settings, w: World, bid: BidId, intent: IntentId, now: Time, own: CaptureReply)
    requires WorldInv(s, w) && MayCompete(s, w.game, bid) && intent.owner == bid
    requires !Protected(w.game.boards[w.game.bids[bid].board], now)
    ensures var w1 := w.(game := Challenge(w.game, bid, Some(intent), now));
            var id := w.game.bids[bid].board;
            && Linked(w1.game) && id in w1.game.boards
            && var r := SettlePaid(w1, id, s.rules, now, own);
               r.Commit? && id in r.value.0.game.boards && r.value.0.game.boards[id].pending.None?
               && bid in r.value.0.game.bids && r.value.0.game.bids[bid].board == id
  {
    var w1, id := w.(game := Challenge(w.game, bid, Some(intent), now)), w.game.bids[bid].board;
    ChallengeIsDue(s, w, bid, intent, now);
    ChallengeKeepsWorld(s, w, bid, Some(intent), now);
    SettlePaidBoards(s, w1, id, now, own);
    SettleLinks(w1, id, s.rules, now, Some(own));
  }

  lemma ChallengeWaits(inc: nat, g: Game, bid: BidId, intent: IntentId, now: Time)
    requires GameInv(inc, g) && bid in g.bids && AwaitingAuthorization(g.bids[bid].status)
    ensures var g' := Challenge(g, bid, Some(intent), now);
            bid in g'.bids && g'.bids[bid].board == g.bids[bid].board && IsPending(g', bid)
    ensures !IsPending(g, bid)
  {
    assert BidLinked(g, bid) && BoardOk(inc, g, g.bids[bid].board);
  }

  lemma PlaceChallengerSends(s: Settings, w: World, bid: BidId, intent: IntentId, now: Time, own: CaptureReply, queueUp: bool)
    requires WorldInv(s, w) && bid in w.game.bids && intent.owner == bid && AwaitingAuthorization(w.game.bids[bid].status)
    requires w.game.bids[bid].board in w.game.boards
    ensures var r := PlaceChallenger(w, bid, intent, s.rules, now, own, queueUp);
            r.Commit? ==>
              && bid in r.value.0.game.bids && r.value.0.game.bids[bid].board == w.game.bids[bid].board
              && r.value.1.sent == if IsPending(r.value.0.game, bid) then Some(Trigger(bid, w.game.bids[bid].board)) else None
  {
    var row := w.game.bids[bid];
    ChallengeWaits(s.rules.increment, w.game, bid, intent, now);
    if row.amount >= RequiredCents(w.game, row.board, s.rules) {
      ClearsPriceIffBeatsBoth(row.amount, w.game.boards[row.board].amount, s.rules, PendingAmount(w.game, row.board));
      if !Protected(w.game.boards[row.board], now) { SettledNotWaiting(s, w, bid, intent, now, own); }
    }
  }

  lemma AuthorizeSends(s: Settings, w: World, bid: BidId, intent: IntentId, now: Time,
                       due: CaptureReply, own: CaptureReply, queueUp: bool)
    requires WorldInv(s, w) && bid in w.game.bids && intent.owner == bid
    requires w.game.bids[bid].board in w.game.boards && HonestFor(w.game, w.game.bids[bid].board, due)
    ensures var r := AuthorizeBid(w, bid, intent, s.rules, now, due, own, queueUp);
            r.Commit? ==>
              && bid in r.value.0.game.bids && r.value.0.game.bids[bid].board == w.game.bids[bid].board
              && r.value.1.sent == if IsPending(r.value.0.game, bid) && !IsPending(w.game, bid)
                                   then Some(Trigger(bid, w.game.bids[bid].board)) else None
  {
    PendingIsAuthorized(s, w, bid);
    if AwaitingAuthorization(w.game.bids[bid].status) {
      SettleSparesNewcomer(s, w, bid, now, due);
      PlaceChallengerSends(s, SettlePaid(w, w.game.bids[bid].board, s.rules, now, due).value.0, bid, intent, now, own, queueUp);
    }
  }

  /** An authorization sends one message, under its bid's own board, exactly when it leaves its bid waiting. */
  lemma MessageSentExactlyWhenLeftWaiting(s: Settings, w: World, step: Step, now: Time)
    requires WorldInv(s, w) && Enabled(w, step) && step.Authorization?
    ensures var g' := Apply(s, w, step, now).game;
            Sent(s, w, step, now) ==
            if step.event.bid.Some? && !IsPending(w.game, step.event.bid.value) && IsPending(g', step.event.bid.value)
            then {Trigger(step.event.bid.value, g'.bids[step.event.bid.value].board)} else {}
  {
    var e := step.event;
    if KnownBid(w.game, e) && e.intent.Some? {
      AuthorizeSends(s, w, e.bid.value, e.intent.value, now, step.due, step.own, step.queueUp);
    }
  }

  datatype Happening =
    | Ordinary(m: Moment)
    | Consumed(message: Trigger, config: QueueConfig, receives: Option<nat>, at: Time, mode: Option<CaptureReply>, crashed: bool)

  /** Consuming a message keeps it in the queue unless it is deleted. */
  ghost predicate Happens(s: Settings, w: World, inbox: Inbox, h: Happening, w': World, inbox': Inbox) {
    match h
    case Ordinary(m) =>
      && Enabled(w, m.step) && w' == Apply(s, w, m.step, m.at)
      && inbox' == inbox + Sent(s, w, m.step, m.at)
    case Consumed(message, config, receives, at, mode, crashed) =>
      && message in inbox && Linked(w.game)
      && var received := Some(Received(message, 0, receives));
      && HonestMessage(w, received, mode)
      && var (outcome, after) := Consume(w, config, received, s.rules, at, mode, crashed);
      && w' == after && inbox' == if outcome == Deleted then inbox - {message} else inbox
  }

  /** A paid challenger that waits on board `id` has its message there. */
  ghost predicate Remembered(g: Game, inbox: Inbox, id: BoardId)
    requires id in g.boards
  {
    var p := g.boards[id].pending;
    p.Some? && p.value in g.bids && g.bids[p.value].approval.Some? ==> Trigger(p.value, id) in inbox
  }

  ghost predicate AllRemembered(g: Game, inbox: Inbox) {
    forall id {:trigger Remembered(g, inbox, id)} | id in g.boards :: Remembered(g, inbox, id)
  }

  /** The challenger of a board, if any, was already there and is the same bid. */
  lemma StillRemembered(inc: nat, g: Game, g': Game, inbox: Inbox, inbox': Inbox, id: BoardId)
    requires GameInv(inc, g) && GameInv(inc, g') && GameAges(g, g') && PendingFrom(g, g', id, None)
    requires AllRemembered(g, inbox) && id in g'.boards
    requires forall t | t in inbox && t !in inbox' && t.group == id :: g'.boards[id].pending != Some(t.bid)
    ensures Remembered(g', inbox', id)
  {
    assert Remembered(g, inbox, id) && BoardOk(inc, g, id) && BoardOk(inc, g', id);
    if g'.boards[id].pending.Some? { assert BidAges(g, g', g'.boards[id].pending.value); }
  }

  lemma PlayingKeepsApproval(w: World, bid: BidId, rules: BoardRules, now: Time)
    requires Linked(w.game) && bid in w.game.bids
    ensures var r := PlaceFreePlay(w, bid, rules, now);
            r.Commit? ==> bid in r.value.0.game.bids && r.value.0.game.bids[bid].approval == w.game.bids[bid].approval
  {
    assert BidLinked(w.game, bid);
  }

  lemma UnpaidOnceAdded(w: World, bid: BidId, o: Offer, rules: BoardRules, now: Time)
    requires Linked(w.game) && o.board in w.game.boards && bid !in w.game.bids
    ensures var r := PlaceBid(w, bid, o, rules, now);
            r.Commit? ==> bid in r.value.0.game.bids && r.value.0.game.bids[bid].approval.None?
  {
    var priced := PriceOffer(w, o, rules);
    if priced.Commit? && CheckPlayer(w, o.user).Commit? {
      var row := NewBid(o, priced.value, None, None, Created, None);
      NewBidLinks(w.game, bid, row);
      PlayingKeepsApproval(w.(game := w.game.(bids := w.game.bids[bid := row]),
                              intake := w.intake.(periods := EnsureActive(w.intake.periods, w.game.boards[o.board].competition, now))),
                           bid, rules, now);
    }
  }

  lemma NewFreePlayIsUnpaid(s: Settings, w: World, bid: BidId, o: Offer, now: Time)
    requires Linked(w.game) && o.board in w.game.boards && bid !in w.game.bids
    ensures var r := CreateBid(w, bid, o, s.rules, now);
            r.Commit? ==> bid in r.value.0.game.bids && r.value.0.game.bids[bid].approval.None?
  {
    SettleLinks(w, o.board, s.rules, now, None);
    var settled := Settle(w, o.board, s.rules, now, None);
    if settled.Commit? { UnpaidOnceAdded(settled.value.0, bid, o, s.rules, now); }
  }

  lemma OtherStepsKeepInbox(s: Settings, w: World, inbox: Inbox, m: Moment, id: BoardId)
    requires WorldInv(s, w) && AllRemembered(w.game, inbox) && Enabled(w, m.step) && Newcomer(m.step).None?
    requires id in Apply(s, w, m.step, m.at).game.boards
    ensures Remembered(Apply(s, w, m.step, m.at).game, inbox, id)
  {
    StepKeepsInv(s, w, m.step, m.at);
    StepAges(s, w, m.step, m.at);
    if m.step.Checkout? || m.step.FinalizeDue? || m.step.Authorization? {
      BiddingPending(s, w, m.step, m.at, id);
    } else {
      OthersPending(s, w, m.step, m.at, id);
    }
    StillRemembered(s.rules.increment, w.game, Apply(s, w, m.step, m.at).game, inbox, inbox, id);
  }

  /** What a newcomer needs to be remembered: its message, unless it plays for free. */
  lemma NewcomerRemembered(inc: nat, g: Game, g': Game, inbox: Inbox, inbox': Inbox, id: BoardId, who: BidId)
    requires GameInv(inc, g) && GameInv(inc, g') && GameAges(g, g') && PendingFrom(g, g', id, Some(who))
    requires AllRemembered(g, inbox) && id in g'.boards && inbox <= inbox'
    requires g'.boards[id].pending == Some(who) && g.boards[id].pending != Some(who) && who in g'.bids && g'.bids[who].approval.Some? ==> Trigger(who, id) in inbox'
    ensures Remembered(g', inbox', id)
  {
    assert Remembered(g, inbox, id) && BoardOk(inc, g, id) && BoardOk(inc, g', id);
    if g'.boards[id].pending.Some? && g'.boards[id].pending == g.boards[id].pending {
      assert BidAges(g, g', g'.boards[id].pending.value);
    }
  }

  lemma OrdinaryKeepsInbox(s: Settings, w: World, inbox: Inbox, m: Moment, id: BoardId)
    requires WorldInv(s, w) && AllRemembered(w.game, inbox) && Enabled(w, m.step)
    requires id in Apply(s, w, m.step, m.at).game.boards
    ensures Remembered(Apply(s, w, m.step, m.at).game, inbox + Sent(s, w, m.step, m.at), id)
  {
    var w' := Apply(s, w, m.step, m.at);
    var inbox' := inbox + Sent(s, w, m.step, m.at);
    StepKeepsInv(s, w, m.step, m.at);
    StepAges(s, w, m.step, m.at);
    if Newcomer(m.step).None? {
      OtherStepsKeepInbox(s, w, inbox, m, id);
      if m.step.Authorization? { MessageSentExactlyWhenLeftWaiting(s, w, m.step, m.at); }
      assert inbox' == inbox;
    } else {
      BiddingPending(s, w, m.step, m.at, id);
      NewcomerIsQueued(s, w, m, id);
      NewcomerRemembered(s.rules.increment, w.game, w'.game, inbox, inbox', id, Newcomer(m.step).value);
    }
  }

  lemma NewcomerIsQueued(s: Settings, w: World, m: Moment, id: BoardId)
    requires WorldInv(s, w) && Enabled(w, m.step) && Newcomer(m.step).Some? && WorldInv(s, Apply(s, w, m.step, m.at))
    requires GameAges(w.game, Apply(s, w, m.step, m.at).game) && id in w.game.boards
    ensures var g' := Apply(s, w, m.step, m.at).game;
            var who := Newcomer(m.step).value;
            id in g'.boards && g'.boards[id].pending == Some(who) && w.game.boards[id].pending != Some(who) && who in g'.bids && g'.bids[who].approval.Some? ==>
              Trigger(who, id) in Sent(s, w, m.step, m.at)
  {
    var g' := Apply(s, w, m.step, m.at).game;
    if id in g'.boards { assert BoardOk(s.rules.increment, g', id); }
    if m.step.FreePlay? {
      NewFreePlayIsUnpaid(s, w, m.step.bid, m.step.offer, m.at);
    } else {
      MessageSentExactlyWhenLeftWaiting(s, w, m.step, m.at);
      if Newcomer(m.step).value in w.game.bids { assert BidAges(w.game, g', Newcomer(m.step).value); }
    }
  }

  /** A delivery puts nobody in line, and ages the tables like any transaction. */
  lemma ConsumingAges(s: Settings, w: World, h: Happening, id: BoardId)
    requires WorldInv(s, w) && h.Consumed? && (h.message.bid in w.game.bids ==> w.game.bids[h.message.bid].board in w.game.boards)
    requires HonestMessage(w, Some(Received(h.message, 0, h.receives)), h.mode)
    ensures var w' := Consume(w, h.config, Some(Received(h.message, 0, h.receives)), s.rules, h.at, h.mode, h.crashed).1;
            GameAges(w.game, w'.game) && PendingFrom(w.game, w'.game, id, None)
  {
    NothingAges(w);
    if h.message.bid in w.game.bids {
      SettlePending(s, w, w.game.bids[h.message.bid].board, h.at, h.mode, id);
      SettleAges(s, w, w.game.bids[h.message.bid].board, h.at, h.mode);
    }
  }

  /** A message leaves the queue only when its bid has left the line of the board it names. */
  lemma DeletedFromInbox(s: Settings, w: World, inbox: Inbox, h: Happening, w': World, inbox': Inbox, id: BoardId)
    requires WorldInv(s, w) && WorldInv(s, w') && h.Consumed? && Happens(s, w, inbox, h, w', inbox') && id in w'.game.boards
    requires GameAges(w.game, w'.game)
    ensures forall t | t in inbox && t !in inbox' && t.group == id :: w'.game.boards[id].pending != Some(t.bid)
  {
    assert BoardOk(s.rules.increment, w'.game, id);
    if h.message.bid in w.game.bids {
      assert BidAges(w.game, w'.game, h.message.bid);
      DeletedMeansNoLongerPending(s, w, h.config, Received(h.message, 0, h.receives), h.at, h.mode, h.crashed);
    }
  }

  lemma ConsumingKeepsInbox(s: Settings, w: World, inbox: Inbox, h: Happening, w': World, inbox': Inbox, id: BoardId)
    requires WorldInv(s, w) && WorldInv(s, w') && AllRemembered(w.game, inbox) && h.Consumed? && Happens(s, w, inbox, h, w', inbox')
    requires id in w'.game.boards
    ensures Remembered(w'.game, inbox', id)
  {
    if h.message.bid in w.game.bids { assert BidLinked(w.game, h.message.bid); }
    ConsumingAges(s, w, h, id);
    DeletedFromInbox(s, w, inbox, h, w', inbox', id);
    StillRemembered(s.rules.increment, w.game, w'.game, inbox, inbox', id);
  }

  /** One happening, whether a transaction or a delivery, forgets nobody. */
  lemma NobodyIsForgotten(s: Settings, w: World, inbox: Inbox, h: Happening, w': World, inbox': Inbox)
    requires WorldInv(s, w) && AllRemembered(w.game, inbox) && Happens(s, w, inbox, h, w', inbox')
    ensures WorldInv(s, w') && AllRemembered(w'.game, inbox')
  {
    if h.Ordinary? {
      StepKeepsInv(s, w, h.m.step, h.m.at);
      StepAges(s, w, h.m.step, h.m.at);
      forall id | id in w'.game.boards ensures Remembered(w'.game, inbox', id) {
        OrdinaryKeepsInbox(s, w, inbox, h.m, id);
      }
    } else {
      OnlySettlesItsOwnBid(s, w, h.config, Some(Received(h.message, 0, h.receives)), h.at, h.mode, h.crashed);
      forall id | id in w'.game.boards ensures Remembered(w'.game, inbox', id) {
        ConsumingKeepsInbox(s, w, inbox, h, w', inbox', id);
      }
    }
  }

  /** A message names a bid of its group's board that has been authorized. */
  ghost predicate Named(g: Game, t: Trigger) {
    t.bid in g.bids && g.bids[t.bid].board == t.group && !Undecided(g.bids[t.bid].status)
  }

  ghost predicate AllNamed(g: Game, inbox: Inbox) {
    forall t {:trigger Named(g, t)} | t in inbox :: Named(g, t)
  }

  lemma StillNamed(g: Game, g': Game, t: Trigger)
    requires Named(g, t) && GameAges(g, g')
    ensures Named(g', t)
  {
    assert BidAges(g, g', t.bid);
  }

  lemma HappeningsAge(s: Settings, w: World, inbox: Inbox, h: Happening, w': World, inbox': Inbox)
    requires WorldInv(s, w) && Happens(s, w, inbox, h, w', inbox')
    ensures GameAges(w.game, w'.game)
  {
    if h.Ordinary? {
      StepAges(s, w, h.m.step, h.m.at);
    } else {
      DeletionAges(s, w, h.config, Received(h.message, 0, h.receives), h.at, h.mode, h.crashed);
    }
  }

  lemma MessagesStayNamed(s: Settings, w: World, inbox: Inbox, h: Happening, w': World, inbox': Inbox)
    requires WorldInv(s, w) && WorldInv(s, w') && AllNamed(w.game, inbox) && Happens(s, w, inbox, h, w', inbox')
    ensures AllNamed(w'.game, inbox')
  {
    HappeningsAge(s, w, inbox, h, w', inbox');
    forall t | t in inbox' ensures Named(w'.game, t) {
      if t in inbox {
        StillNamed(w.game, w'.game, t);
      } else {
        if h.m.step.Authorization? { MessageSentExactlyWhenLeftWaiting(s, w, h.m.step, h.m.at); }
        PendingIsAuthorized(s, w', t.bid);
      }
    }
  }

  lemma NobodyWaitsInitially(s: Settings, w: World, inbox: Inbox)
    requires Initial(s, w)
    ensures WorldInv(s, w) && AllRemembered(w.game, inbox)
  {
    InitialIsInOrder(s, w);
    forall id | id in w.game.boards ensures Remembered(w.game, inbox, id) { assert w.game.boards[id].pending.None?; }
  }

  /**
   With the message sent in the authorizing transaction and deleted only as the consumer does, every paid
   challenger that waits in any state of any run has its message in the queue; and every message is about an
   authorized bid, under the group of that bid's own board.
   */
  lemma {:induction false} EveryChallengerHasItsMessage(s: Settings, ws: seq<World>, inboxes: seq<Inbox>, hs: seq<Happening>, i: nat)
    requires |ws| == |inboxes| == |hs| + 1 && Initial(s, ws[0]) && inboxes[0] == {} && i < |ws|
    requires forall k {:trigger hs[k]} | 0 <= k < |hs| :: Happens(s, ws[k], inboxes[k], hs[k], ws[k + 1], inboxes[k + 1])
    ensures WorldInv(s, ws[i]) && AllRemembered(ws[i].game, inboxes[i]) && AllNamed(ws[i].game, inboxes[i])
    decreases i
  {
    if i == 0 {
      NobodyWaitsInitially(s, ws[0], inboxes[0]);
    } else {
      EveryChallengerHasItsMessage(s, ws, inboxes, hs, i - 1);
      assert hs[i - 1] == hs[i - 1];
      NobodyIsForgotten(s, ws[i - 1], inboxes[i - 1], hs[i - 1], ws[i], inboxes[i]);
      MessagesStayNamed(s, ws[i - 1], inboxes[i - 1], hs[i - 1], ws[i], inboxes[i]);
    }
  }
}
