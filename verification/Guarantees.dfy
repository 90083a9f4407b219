// The main results, said about every state of every run.
module Guarantees {
  import opened Base
  import opened Pricing
  import opened Rows
  import opened Takeovers
  import opened GameInvariant
  import opened GameSteps
  import opened Lineage
  import opened Books
  import opened BooksInvariant
  import opened Desk
  import opened DeskInvariant
  import opened Intake
  import opened Risk
  import opened Protocol
  import opened Safety
  import opened SafetySteps
  import opened EventSteps
  import DeskSteps
  import opened Machine
  import opened Display
  import opened History
  import opened Totals

  /** A delivery that has ended on record ended no earlier than its takeover was promised to stay. */
  lemma DeliveryOutlivesGuarantee(s: Settings, ws: seq<World>, ms: seq<Moment>, i: nat, bid: BidId)
    requires IsRun(s, ws, ms) && i < |ws| && bid in ws[i].game.evidence
    ensures ws[i].game.evidence[bid].endedAt.Some? ==> ws[i].game.evidence[bid].guaranteedUntil <= ws[i].game.evidence[bid].endedAt.value
    ensures bid in ws[i].game.takeovers
  {
    RunsStayInOrder(s, ws, ms, i);
    assert EvidenceOk(ws[i].game, bid);
  }

  /**
   At most one challenger: it is authorized, bids on the board it waits for, beats the live takeover by an
   increment, waits behind a guarantee, and nobody else holds an authorization on that board. A board that
   shows nobody is blank.
   */
  lemma OneChallengerInOrder(s: Settings, ws: seq<World>, ms: seq<Moment>, i: nat, id: BoardId)
    requires IsRun(s, ws, ms) && i < |ws| && id in ws[i].game.boards
    ensures var g := ws[i].game;
            var board := g.boards[id];
            && (forall p | p in g.bids && g.bids[p].board == id && g.bids[p].status.Authorized? :: board.pending == Some(p))
            && (board.pending.Some? ==>
                  && board.pending.value in g.bids
                  && g.bids[board.pending.value].board == id && g.bids[board.pending.value].status.Authorized?
                  && g.bids[board.pending.value].amount >= board.amount + s.rules.increment
                  && board.current.Some? && board.guaranteedUntil.Some?)
            && (board.current.None? ==> board.amount == 0 && board.guaranteedUntil.None? && board.message == DEFAULT_MESSAGE)
  {
    RunsStayInOrder(s, ws, ms, i);
    var g := ws[i].game;
    assert BoardOk(s.rules.increment, g, id) && WaitsBehind(g, id);
    forall p | p in g.bids && g.bids[p].board == id && g.bids[p].status.Authorized? ensures g.boards[id].pending == Some(p) {
      assert SoleChallenger(g, p);
    }
  }

  /** A live board shows exactly its current takeover, whose message has not been removed and whose bid is published. */
  lemma LiveTakeoverIsIntact(s: Settings, ws: seq<World>, ms: seq<Moment>, i: nat, id: BoardId)
    requires IsRun(s, ws, ms) && i < |ws| && id in ws[i].game.boards && ws[i].game.boards[id].current.Some?
    ensures var g := ws[i].game;
            var board, t := g.boards[id], g.boards[id].current.value;
            && t in g.takeovers && !IsRemoved(g, t) && g.takeovers[t].board == id
            && board.amount == g.takeovers[t].amount && board.message == g.takeovers[t].message
            && board.controller == Some(g.takeovers[t].controller)
            && t in g.bids && Published(g.bids[t].status) && g.bids[t].amount == board.amount && g.bids[t].message == board.message
  {
    RunsStayInOrder(s, ws, ms, i);
    var g := ws[i].game;
    var t := g.boards[id].current.value;
    assert BoardOk(s.rules.increment, g, id) && TakeoverOk(s.rules.increment, g, t) && StatusOk(g, t);
  }

  /** The next version of `board`, showing what `shown` shows, with nobody protected or waiting. */
  function Freed(board: Board, shown: Board): Board {
    Board(competition := board.competition, current := shown.current, controller := shown.controller, amount := shown.amount,
          message := shown.message, pending := None, guaranteedUntil := None, version := board.version + 1,
          biddingEnabled := board.biddingEnabled)
  }

  lemma RemovalAtBoards(inc: nat, g: Game, bid: BidId, now: Time)
    requires inc > 0 && GameInv(inc, g) && bid in g.cases
    ensures bid in g.takeovers && g.takeovers[bid].board in g.boards
    ensures var id := g.takeovers[bid].board;
            var g' := RemoveTakeover(g, bid, now);
            if g.boards[id].current != Some(bid) then g'.boards == g.boards && g'.bids == g.bids
            else
              && id in g'.boards
              && var board := g'.boards[id];
              && (forall a: BidId :: board.current == Some(a) <==> IsNearest(g, bid, a))
              && (board.current.Some? ==> ShowsTakeover(g', id, board.current.value))
              && (board.current.None? ==> board.controller.None? && board.amount == 0 && board.message == DEFAULT_MESSAGE)
              && board == Freed(g.boards[id], board)
              && (forall b | b in g.boards && b != id :: b in g'.boards && g'.boards[b] == g.boards[b])
  {
    assert TakeoverLinked(g, bid);
    var id := g.takeovers[bid].board;
    RemoveKeepsInv(inc, g, bid, now);
    forall a: BidId ensures PriorNonRemoved(g, bid) == Some(a) <==> IsNearest(g, bid, a) { WalkFindsNearest(inc, g, bid, a); }
    if g.boards[id].current == Some(bid) { assert BoardOk(inc, RemoveTakeover(g, bid, now), id); }
  }

  /**
   In any run, a removal of an open case commits if a reason is given. When the takeover is live, its board then
   shows exactly the nearest ancestor that has not been removed, with that takeover's own controller, amount and
   message, and is blank when there is none; either way nobody is protected or waiting any more, and no other
   board changes. Removing any other takeover leaves every board and bid alone.
   */
  lemma RemovalRestoresNearest(s: Settings, ws: seq<World>, ms: seq<Moment>, i: nat, bid: BidId, reason: string)
    requires IsRun(s, ws, ms) && i < |ms| && ms[i].step == Remove(bid, reason)
    requires ReasonGiven(reason) && bid in ws[i].game.cases && ws[i].game.cases[bid].status.Open?
    ensures var g, g' := ws[i].game, ws[i + 1].game;
            && IsRemoved(g', bid) && bid in g.takeovers && g.takeovers[bid].board in g.boards
            && var id := g.takeovers[bid].board;
               if g.boards[id].current != Some(bid) then g'.boards == g.boards && g'.bids == g.bids
               else
                 && id in g'.boards
                 && var board := g'.boards[id];
                 && (forall a: BidId :: board.current == Some(a) <==> IsNearest(g, bid, a))
                 && (board.current.Some? ==> ShowsTakeover(g', id, board.current.value))
                 && (board.current.None? ==> board.controller.None? && board.amount == 0 && board.message == DEFAULT_MESSAGE)
                 && board == Freed(g.boards[id], board)
                 && (forall b | b in g.boards && b != id :: b in g'.boards && g'.boards[b] == g.boards[b])
  {
    RunsStayInOrder(s, ws, ms, i);
    assert Connects(s, ws, ms, i);
    var g := ws[i].game;
    RemovalAtBoards(s.rules.increment, g, bid, ms[i].at);
    DeskSteps.RemoveCaseQueues(s.rules.increment, g, ws[i].books, ws[i].desk, bid, ms[i].at);
  }

  /** The provider sees one key per payment action, and the same request whenever it sees the same key. */
  lemma ProviderRequestsAgree(s: Settings, ws: seq<World>, ms: seq<Moment>, i: nat)
    requires IsRun(s, ws, ms) && i < |ws|
    ensures forall p, q | p in ws[i].desk.actions && q in ws[i].desk.actions && p != q ::
              IdempotencyKey(ws[i].desk.actions[p]) != IdempotencyKey(ws[i].desk.actions[q])
    ensures forall j, k | 0 <= j < k < |ws[i].desk.calls| && ws[i].desk.calls[j].key == ws[i].desk.calls[k].key ::
              ws[i].desk.calls[j] == ws[i].desk.calls[k]
    ensures forall j, k | 0 <= j < k < |ws[i].desk.sends| && ws[i].desk.sends[j].eventKey == ws[i].desk.sends[k].eventKey ::
              ws[i].desk.sends[j] == ws[i].desk.sends[k]
  {
    RunsStayInOrder(s, ws, ms, i);
    var w := ws[i];
    forall p, q | p in w.desk.actions && q in w.desk.actions && p != q
      ensures IdempotencyKey(w.desk.actions[p]) != IdempotencyKey(w.desk.actions[q])
    {
      KeysAreDistinct(w.game, w.books, w.desk, p, q);
    }
    forall j, k | 0 <= j < k < |w.desk.calls| && w.desk.calls[j].key == w.desk.calls[k].key ensures w.desk.calls[j] == w.desk.calls[k] {
      RetriesAgree(w.game, w.books, w.desk, j, k);
    }
    forall j, k | 0 <= j < k < |w.desk.sends| && w.desk.sends[j].eventKey == w.desk.sends[k].eventKey ensures w.desk.sends[j] == w.desk.sends[k] {
      SendsAgree(w.game, w.books, w.desk, j, k);
    }
  }

  /**
   A removed case has a refund action of its own and, if its owner can be written to, one notice; the
   notice waits exactly while the refund is unsettled, cannot be claimed until then, and carries the paid,
   fee and refunded figures exactly when the refund succeeded.
   */
  lemma NoticeFollowsRefund(s: Settings, ws: seq<World>, ms: seq<Moment>, i: nat, c: BidId, now: Time)
    requires IsRun(s, ws, ms) && i < |ws| && IsRemoved(ws[i].game, c)
    ensures var w := ws[i];
            && c in w.desk.actions && w.desk.actions[c].op.IssueRefund? && w.desk.actions[c].caseOf == c
            && c in w.game.bids && w.game.bids[c].bidder in w.game.contacts
            && (c in w.desk.notices <==> Recipient(w.game, c).wellFormed)
            && (c in w.desk.notices ==>
                  var n, a := w.desk.notices[c], w.desk.actions[c];
                  && (n.waiting <==> a.status.ActionPending? || a.status.ActionProcessing? || a.status.ActionFailed?)
                  && (n.waiting ==> !Claimable(n, s.mail, now) && n.attempts == 0)
                  && (n.context.figures.Some? <==> a.status.ActionSucceeded?)
                  && (a.status.ActionSucceeded? ==>
                        && n.context.figures.value.paid == w.game.bids[c].amount
                        && n.context.figures.value.refunded == n.context.figures.value.paid - n.context.figures.value.fee))
  {
    RunsStayInOrder(s, ws, ms, i);
    var w := ws[i];
    assert CaseOk(w.game, w.desk, c);
    if c in w.desk.notices { assert NoticeOk(w.game, w.books, w.desk, c) && ActionOk(w.game, w.books, w.desk, c); }
  }

  /**
   The ledger of a captured bid: one capture entry of its amount, and after a refund one entry that gives
   back all but the provider's fee; what is kept is never negative.
   */
  lemma LedgerOfABid(s: Settings, ws: seq<World>, ms: seq<Moment>, i: nat, bid: BidId)
    requires IsRun(s, ws, ms) && i < |ws|
    ensures var b := ws[i].books;
            && (bid in b.captures <==> HasEntry(b.ledger, BidCapture, bid))
            && (HasEntry(b.ledger, Refund, bid) ==> bid in b.captures && b.captures[bid].fee.Some?)
            && Kept(b.ledger, bid) ==
               (if bid !in b.captures then 0
                else if HasEntry(b.ledger, Refund, bid) && b.captures[bid].fee.Some? then b.captures[bid].fee.value else b.captures[bid].gross)
            && Kept(b.ledger, bid) >= 0
            && (forall j, k | 0 <= j < k < |b.ledger| :: b.ledger[j].kind != b.ledger[k].kind || b.ledger[j].bid != b.ledger[k].bid)
            && (bid in b.captures ==> bid in ws[i].game.takeovers && bid in ws[i].game.bids && b.captures[bid].gross == ws[i].game.bids[bid].amount)
  {
    RunsStayInOrder(s, ws, ms, i);
    var g, b := ws[i].game, ws[i].books;
    assert KeptOk(b, bid);
    LedgerHasNoRepeats(g.bids, b);
    if bid in b.captures {
      assert CaptureOk(g.bids, b, bid) && CollectedOk(g, b.captures[bid].intent);
    }
    if HasEntry(b.ledger, BidCapture, bid) {
      var k :| 0 <= k < |b.ledger| && b.ledger[k].kind == BidCapture && b.ledger[k].bid == bid;
      assert EntryOk(g.bids, b, k);
    }
    if HasEntry(b.ledger, Refund, bid) {
      var k :| 0 <= k < |b.ledger| && b.ledger[k].kind == Refund && b.ledger[k].bid == bid;
      assert EntryOk(g.bids, b, k);
    }
  }

  /** Every account counter agrees with the snapshots and refund actions it summarises. */
  lemma AccountsAddUp(s: Settings, ws: seq<World>, ms: seq<Moment>, i: nat, user: UserId)
    requires IsRun(s, ws, ms) && i < |ws| && user in ws[i].books.accounts
    ensures var w := ws[i];
            var a, captured := w.books.accounts[user], CapturedBids(w.game.bids, w.books, user);
            && captured <= w.game.bids.Keys
            && a.successes == |captured| && a.spend == Worth(w.game.bids, captured)
            && a.refunds == |RefundedBids(w.game.bids, w.desk, user)|
  {
    RunsStayInOrder(s, ws, ms, i);
    CountersMatchCaptures(ws[i].game.bids, ws[i].books, user);
    RefundsMatchActions(ws[i].game, ws[i].books, ws[i].desk, user);
  }

  /** One approval and one confirmation back at most one bid each, and are used up by it. */
  lemma InputsAreUsedOnce(s: Settings, ws: seq<World>, ms: seq<Moment>, i: nat, p: BidId, q: BidId)
    requires IsRun(s, ws, ms) && i < |ws| && p in ws[i].game.bids && q in ws[i].game.bids && p != q
    ensures var t, row, other := ws[i].intake, ws[i].game.bids[p], ws[i].game.bids[q];
            && (row.approval.Some? ==>
                  && row.approval != other.approval && row.approval.value in t.approvals
                  && t.approvals[row.approval.value].consumedAt.Some? && row.amount <= s.risk.globalMax)
            && (row.confirmation.Some? ==>
                  && row.confirmation != other.confirmation && row.confirmation.value in t.confirmations
                  && t.confirmations[row.confirmation.value].consumedAt.Some?)
  {
    RunsStayInOrder(s, ws, ms, i);
    var w := ws[i];
    assert InputsOk(s.risk.globalMax, w.game, w.intake, p) && OwnApproval(w.game, p, q) && OwnConfirmation(w.game, p, q);
  }

  /** What a paid offer must show besides its price. */
  predicate Eligible(w: World, o: Offer, amount: nat, x: Session, risk: RiskConfig, now: Time) {
    && o.user in w.books.accounts && o.user in w.game.contacts
    && var a := w.books.accounts[o.user];
    && a.named && a.ageConfirmed && !a.banned
    && (forall reason: Reason {:trigger Meets(reason, a, risk, amount, x.facts, now)} :: Meets(reason, a, risk, amount, x.facts, now))
    && Approves(w.intake, x.approval, o, now)
    && (x.confirmation.Some? ==> Confirms(w.intake, x.confirmation.value, o, amount, now))
  }

  /** An approval of this very offer that has neither expired nor been used. */
  predicate Approves(t: Intake, id: nat, o: Offer, now: Time) {
    && id in t.approvals && now < t.approvals[id].expiresAt
    && t.approvals[id] == Approval(o.user, o.board, o.entity, o.message, true, t.approvals[id].expiresAt, None)
  }

  /** A confirmation of this very offer and amount that has neither expired nor been used. */
  predicate Confirms(t: Intake, id: nat, o: Offer, amount: nat, now: Time) {
    && id in t.confirmations && now < t.confirmations[id].expiresAt
    && var c := t.confirmations[id];
       c == Confirmation(o.user, o.board, o.entity, o.message, amount, c.expiresAt, c.confirmedAt, None)
  }

  lemma AllowedMeetsEveryRule(a: Account, c: RiskConfig, amount: nat, f: RiskFacts, now: Time)
    requires amount > 0
    ensures Decide(a, c, amount, f, now).None? <==>
              forall reason: Reason {:trigger Meets(reason, a, c, amount, f, now)} :: Meets(reason, a, c, amount, f, now)
  {
    AllowedBidsStayWithinLimits(a, c, amount, f, now);
    if Decide(a, c, amount, f, now).Some? {
      RefusedForTheFirstReason(a, c, amount, f, now, Decide(a, c, amount, f, now).value);
    }
  }

  lemma PlacedExactlyWhen(s: Settings, w: World, id: BidId, o: Offer, x: Session, now: Time)
    requires s.rules.increment > 0 && Linked(w.game) && o.board in w.game.boards && id !in w.game.bids
    ensures PlaceCheckout(w, id, o, x, s, now).Commit? <==>
              && o.amount == o.amount.Floor as real
              && o.entity in w.intake.entities && w.intake.entities[o.entity] == Entity(w.game.boards[o.board].competition, true)
              && o.amount.Floor * 100 >= w.game.boards[o.board].amount + s.rules.increment
              && o.amount.Floor * 100 >= PendingAmount(w.game, o.board) + s.rules.increment
              && Eligible(w, o, o.amount.Floor * 100, x, s.risk, now) && x.created
  {
    var cents := o.amount.Floor * 100;
    ClearsPriceIffBeatsBoth(cents, w.game.boards[o.board].amount, s.rules, PendingAmount(w.game, o.board));
    if cents > 0 && o.user in w.books.accounts {
      AllowedMeetsEveryRule(w.books.accounts[o.user], s.risk, cents, x.facts, now);
    }
  }

  /** Whether settling board `id` first would put its challenger there: it is due, and the provider captures it. */
  predicate Advances(w: World, id: BoardId, now: Time, due: CaptureReply)
    requires id in w.game.boards
  {
    && IsDue(w.game.boards[id], now) && due.Captured?
    && w.game.boards[id].pending.value in w.game.bids && w.game.bids[w.game.boards[id].pending.value].intent.Some?
  }

  lemma FinalizedBoard(inc: nat, g: Game, id: BoardId, rules: BoardRules, now: Time, captured: bool)
    requires GameInv(inc, g) && id in g.boards && IsDue(g.boards[id], now)
    ensures var r := FinalizeLocked(g, id, rules, now, Paid(captured));
            && g.boards[id].pending.value in g.bids && g.bids[g.boards[id].pending.value].status.Authorized?
            && (r.Commit? ==>
                  && id in r.value.0.boards && r.value.0.boards[id].competition == g.boards[id].competition
                  && r.value.0.boards[id].amount == if captured then g.bids[g.boards[id].pending.value].amount else g.boards[id].amount)
  {
    assert BoardOk(inc, g, id);
  }

  lemma SettledBoard(s: Settings, w: World, id: BoardId, now: Time, due: CaptureReply)
    requires CoreInv(s, w) && id in w.game.boards && IsDue(w.game.boards[id], now)
    ensures var r := SettlePaid(w, id, s.rules, now, due);
            r.Commit? ==>
              && id in r.value.0.game.boards && r.value.0.game.boards[id].competition == w.game.boards[id].competition
              && w.game.boards[id].pending.value in w.game.bids
              && r.value.0.game.boards[id].amount ==
                 if Advances(w, id, now, due) then w.game.bids[w.game.boards[id].pending.value].amount else w.game.boards[id].amount
  {
    FinalizedBoard(s.rules.increment, w.game, id, s.rules, now, true);
    FinalizedBoard(s.rules.increment, w.game, id, s.rules, now, false);
  }

  /** What an offer has to beat once the board has been settled: the amount shown, and the amount waiting. */
  lemma SettledPrice(s: Settings, w: World, id: BoardId, now: Time, due: CaptureReply)
    requires WorldInv(s, w) && id in w.game.boards
    ensures var r := SettlePaid(w, id, s.rules, now, due);
            && r.Commit? && Linked(r.value.0.game) && r.value.0.game.bids.Keys == w.game.bids.Keys && r.value.0.intake == w.intake
            && id in r.value.0.game.boards && r.value.0.game.boards[id].competition == w.game.boards[id].competition
            && r.value.0.game.boards[id].amount ==
               (if Advances(w, id, now, due) then w.game.bids[w.game.boards[id].pending.value].amount else w.game.boards[id].amount)
            && PendingAmount(r.value.0.game, id) == (if IsDue(w.game.boards[id], now) then 0 else PendingAmount(w.game, id))
  {
    assert WaitsBehind(w.game, id);
    SettlePaidBoards(s, w, id, now, due);
    SettleLinks(w, id, s.rules, now, Some(due));
    if IsDue(w.game.boards[id], now) { SettledBoard(s, w, id, now, due); }
  }

  /**
   A checkout opens exactly when bidding is not paused, on the board or globally, and a whole-dollar offer of an
   active entity of the board's competition beats by an increment both what the board shows and what waits for it,
   after a due challenger has been settled; from an account that is eligible by then, once the provider has opened
   a session.
   */
  lemma CheckoutOpensExactlyWhen(s: Settings, w: World, id: BidId, o: Offer, x: Session, now: Time, due: CaptureReply)
    requires WorldInv(s, w) && o.board in w.game.boards && id !in w.game.bids
    ensures var board := w.game.boards[o.board];
            var shown := if Advances(w, o.board, now, due) then w.game.bids[board.pending.value].amount else board.amount;
            var waiting := if IsDue(board, now) then 0 else PendingAmount(w.game, o.board);
            var settled := SettlePaid(w, o.board, s.rules, now, due);
            CreateCheckout(w, id, o, x, s, now, due).Commit? <==>
              && board.biddingEnabled && s.rules.biddingEnabled
              && o.amount == o.amount.Floor as real
              && o.entity in w.intake.entities && w.intake.entities[o.entity] == Entity(board.competition, true)
              && o.amount.Floor * 100 >= shown + s.rules.increment && o.amount.Floor * 100 >= waiting + s.rules.increment
              && settled.Commit? && Eligible(settled.value.0, o, o.amount.Floor * 100, x, s.risk, now) && x.created
  {
    SettledPrice(s, w, o.board, now, due);
    PlacedExactlyWhen(s, SettlePaid(w, o.board, s.rules, now, due).value.0, id, o, x, now);
  }

  /** A bid only moves forward, keeps what it was created with, and is published at most once, as it stood. */
  lemma BidsOnlyMoveForward(s: Settings, ws: seq<World>, ms: seq<Moment>, i: nat, j: nat, p: BidId)
    requires IsRun(s, ws, ms) && i <= j < |ws| && p in ws[i].game.bids
    ensures p in ws[j].game.bids && SameBid(ws[j].game.bids[p], ws[i].game.bids[p])
    ensures MovesForward(ws[i].game.bids[p].status, ws[j].game.bids[p].status)
    ensures p in ws[i].game.takeovers ==> p in ws[j].game.takeovers && ws[j].game.takeovers[p] == ws[i].game.takeovers[p]
    ensures Published(ws[j].game.bids[p].status) <==> p in ws[j].game.takeovers
  {
    RunsAge(s, ws, ms, i, j);
    RunsStayInOrder(s, ws, ms, j);
    assert BidAges(ws[i].game, ws[j].game, p) && StatusOk(ws[j].game, p);
    if p in ws[i].game.takeovers { assert TakeoverStays(ws[i].game, ws[j].game, p); }
  }

  /** Fee data, identifiers and delivery ends are written once along a run. */
  lemma RecordsAreWrittenOnce(s: Settings, ws: seq<World>, ms: seq<Moment>, i: nat, j: nat, bid: BidId)
    requires IsRun(s, ws, ms) && i <= j < |ws|
    ensures ws[i].books.ledger <= ws[j].books.ledger
    ensures bid in ws[i].books.captures ==> bid in ws[j].books.captures && Extends(ws[i].books.captures[bid], ws[j].books.captures[bid])
    ensures bid in ws[i].game.evidence && ws[i].game.evidence[bid].endedAt.Some? ==>
              bid in ws[j].game.evidence && ws[j].game.evidence[bid] == ws[i].game.evidence[bid]
    ensures bid in ws[i].desk.notices && Final(ws[i].desk.notices[bid]) ==>
              bid in ws[j].desk.notices && ws[j].desk.notices[bid] == ws[i].desk.notices[bid]
  {
    RunsAge(s, ws, ms, i, j);
    if bid in ws[i].books.captures { assert Extends(ws[i].books.captures[bid], ws[j].books.captures[bid]); }
    if bid in ws[i].game.evidence { assert EvidenceAges(ws[i].game, ws[j].game, bid); }
    if bid in ws[i].desk.notices { assert NoticeAges(ws[i].desk, ws[j].desk, bid); }
  }
}
