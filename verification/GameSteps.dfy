// Every transaction on the game tables keeps the invariant, and none of them can hit a database constraint.
module GameSteps {
  import opened Base
  import opened Pricing
  import opened Rows
  import opened Takeovers
  import opened GameInvariant
  import opened Lineage

  // ----- bids -----

  /** Bookkeeping fields, and moves between published statuses, do not disturb the game. */
  lemma TweakKeepsInv(inc: nat, g: Game, p: BidId, row: Bid)
    requires GameInv(inc, g) && p in g.bids && SameBid(row, g.bids[p])
    requires row.status == g.bids[p].status || (Published(row.status) && Published(g.bids[p].status))
    ensures GameInv(inc, g.(bids := g.bids[p := row]))
  {
    assert BidLinked(g, p) && SoleChallenger(g, p) && BoardOk(inc, g, row.board);
    QuietStepKeepsInv(inc, g, g.boards[row.board], g.bids[p := row], row.board);
    assert g.boards[row.board := g.boards[row.board]] == g.boards;
  }

  /** A new bid holds no authorization yet and uses a confirmation of its own. */
  lemma NewBidKeepsInv(inc: nat, g: Game, p: BidId, row: Bid)
    requires GameInv(inc, g) && p !in g.bids
    requires row.board in g.boards && row.bidder in g.contacts
    requires !row.status.Authorized? && !Published(row.status)
    requires row.confirmation.Some? ==> forall q {:trigger g.bids[q]} | q in g.bids :: g.bids[q].confirmation != row.confirmation
    ensures GameInv(inc, g.(bids := g.bids[p := row]))
  {
    var g', id := g.(bids := g.bids[p := row]), row.board;
    assert Linked(g') by {
      forall b | b in g'.boards ensures BoardLinked(g', b) { assert BoardLinked(g, b); }
      forall q | q in g'.bids ensures BidLinked(g', q) { if q != p { assert BidLinked(g, q); } }
      forall t | t in g'.takeovers ensures TakeoverLinked(g', t) { assert TakeoverLinked(g, t); }
    }
    TakeoversAreBids(g);
    assert BoardOk(inc, g', id) by { assert BoardOk(inc, g, id); }
    forall q | q in g'.bids && g'.bids[q].board == id ensures SoleChallenger(g', q) {
      if q != p { assert SoleChallenger(g, q); }
    }
    LiveFrame(inc, g, g', id);
    forall q, s | q in g'.bids && s in g'.bids && (q !in g.bids || s !in g.bids) ensures OwnConfirmation(g', q, s) {
      assert q == p || g'.bids[q] == g.bids[q];
      assert s == p || g'.bids[s] == g.bids[s];
    }
    HistoryFrame(inc, g, g');
  }

  /** A bid that is neither a challenger nor published may end in any unpublished status. */
  lemma DropKeepsInv(inc: nat, g: Game, p: BidId, row: Bid)
    requires GameInv(inc, g) && p in g.bids && SameBid(row, g.bids[p])
    requires !Published(g.bids[p].status) && !Published(row.status) && !row.status.Authorized?
    requires row.board in g.boards
    ensures var id := row.board; var board := g.boards[id];
            GameInv(inc, g.(bids := g.bids[p := row],
                            boards := if board.pending == Some(p) then g.boards[id := board.(pending := None)] else g.boards))
  {
    var id := row.board;
    var board := g.boards[id];
    assert BoardOk(inc, g, id) && SoleChallenger(g, p);
    if board.pending == Some(p) {
      QuietStepKeepsInv(inc, g, board.(pending := None), g.bids[p := row], id);
    } else {
      QuietStepKeepsInv(inc, g, board, g.bids[p := row], id);
      assert g.boards[id := board] == g.boards;
    }
  }

  lemma CancelPaymentKeepsInv(inc: nat, g: Game, bid: BidId, intent: Option<IntentId>, now: Time)
    requires GameInv(inc, g) && bid in g.bids
    ensures GameInv(inc, CancelPayment(g, bid, intent, now))
  {
    var row := g.bids[bid];
    if !CancellationImmutable(row.status) {
      assert BidLinked(g, bid);
      DropKeepsInv(inc, g, bid, row.(status := AuthCanceled, canceledAt := Some(now),
                                     intent := if row.intent.None? then intent else row.intent));
    }
  }

  /** An accepted challenger becomes the only authorized bid of its board. */
  lemma ChallengeKeepsInv(inc: nat, g: Game, bid: BidId, intent: Option<IntentId>, now: Time)
    requires GameInv(inc, g) && bid in g.bids
    requires !g.bids[bid].status.Authorized? && !Published(g.bids[bid].status)
    requires g.bids[bid].board in g.boards && g.bids[bid].amount >= g.boards[g.bids[bid].board].amount + inc
    ensures GameInv(inc, Challenge(g, bid, intent, now))
  {
    var g', id := Challenge(g, bid, intent, now), g.bids[bid].board;
    assert BidLinked(g, bid) && BoardOk(inc, g, id);
    QuietStepKeepsInv(inc, g, g'.boards[id], g'.bids, id);
  }

  // ----- publication -----

  /** What a bid needs before it may win its board. */
  ghost predicate MayWin(inc: nat, g: Game, id: BoardId, bid: BidId, now: Time) {
    && id in g.boards && bid in g.bids
    && g.bids[bid].board == id && !Published(g.bids[bid].status)
    && g.bids[bid].amount >= g.boards[id].amount + inc
    && !Protected(g.boards[id], now)
    && (g.boards[id].pending.None? || g.boards[id].pending == Some(bid))
  }

  /** Neither the one-takeover-per-bid nor the one-record-per-confirmation constraint can fire. */
  lemma WinCommits(inc: nat, g: Game, id: BoardId, bid: BidId, rules: BoardRules, now: Time, paid: bool)
    requires GameInv(inc, g) && MayWin(inc, g, id, bid, now)
    ensures Win(g, id, bid, rules, now, paid).Commit?
    ensures bid !in g.takeovers && bid !in g.evidence
  {
    assert StatusOk(g, bid) && BidLinked(g, bid);
    EvidenceIsPublished(inc, g);
    forall e | e in g.evidence && g.bids[bid].confirmation.Some?
      ensures g.evidence[e].confirmation != g.bids[bid].confirmation
    {
      assert EvidenceOk(g, e) && OwnConfirmation(g, bid, e);
    }
  }

  lemma WinKeepsLive(inc: nat, g: Game, id: BoardId, bid: BidId, rules: BoardRules, now: Time, paid: bool)
    requires GameInv(inc, g) && MayWin(inc, g, id, bid, now)
    requires Win(g, id, bid, rules, now, paid).Commit? && bid !in g.takeovers
    ensures var g' := Win(g, id, bid, rules, now, paid).value; Linked(g') && LiveInv(inc, g')
  {
    var g' := Win(g, id, bid, rules, now, paid).value;
    assert BoardLinked(g, id) && BidLinked(g, bid);
    forall b | b in g'.boards ensures BoardLinked(g', b) && BoardOk(inc, g', b) {
      assert BoardLinked(g, b) && BoardOk(inc, g, b);
      if bid in g.cases { assert false; }
    }
    forall p | p in g'.bids ensures BidLinked(g', p) && SoleChallenger(g', p) {
      assert BidLinked(g, p) && SoleChallenger(g, p);
    }
    forall t | t in g'.takeovers ensures TakeoverLinked(g', t) {
      if t != bid { assert TakeoverLinked(g, t); }
    }
  }

  lemma WinKeepsTakeovers(inc: nat, g: Game, id: BoardId, bid: BidId, rules: BoardRules, now: Time, paid: bool)
    requires GameInv(inc, g) && MayWin(inc, g, id, bid, now)
    requires Win(g, id, bid, rules, now, paid).Commit? && bid !in g.takeovers && bid !in g.evidence
    ensures var g' := Win(g, id, bid, rules, now, paid).value;
            && (forall p {:trigger StatusOk(g', p)} | p in g'.bids :: StatusOk(g', p))
            && (forall t {:trigger TakeoverOk(inc, g', t)} | t in g'.takeovers :: TakeoverOk(inc, g', t))
  {
    var g' := Win(g, id, bid, rules, now, paid).value;
    assert BoardOk(inc, g, id);
    forall p | p in g'.bids ensures StatusOk(g', p) { assert StatusOk(g, p); }
    forall t | t in g'.takeovers ensures TakeoverOk(inc, g', t) {
      if t != bid { assert TakeoverOk(inc, g, t); }
    }
  }

  /** The takeover being replaced outlived its guarantee, so its recorded end is late enough. */
  lemma WinKeepsEvidence(inc: nat, g: Game, id: BoardId, bid: BidId, rules: BoardRules, now: Time, paid: bool)
    requires GameInv(inc, g) && MayWin(inc, g, id, bid, now)
    requires Win(g, id, bid, rules, now, paid).Commit? && bid !in g.takeovers && bid !in g.evidence
    ensures var g' := Win(g, id, bid, rules, now, paid).value;
            && (forall e {:trigger EvidenceOk(g', e)} | e in g'.evidence :: EvidenceOk(g', e))
            && (forall p, q {:trigger OwnConfirmation(g', p, q)} | p in g'.bids && q in g'.bids :: OwnConfirmation(g', p, q))
  {
    var g' := Win(g, id, bid, rules, now, paid).value;
    assert BoardOk(inc, g, id);
    forall e | e in g'.evidence ensures EvidenceOk(g', e) {
      if e != bid { assert EvidenceOk(g, e); }
    }
    forall p, q | p in g'.bids && q in g'.bids ensures OwnConfirmation(g', p, q) { assert OwnConfirmation(g, p, q); }
  }

  /** Winning a board that is not protected keeps the invariant and always commits. */
  lemma WinKeepsInv(inc: nat, g: Game, id: BoardId, bid: BidId, rules: BoardRules, now: Time, paid: bool)
    requires GameInv(inc, g) && MayWin(inc, g, id, bid, now)
    ensures var r := Win(g, id, bid, rules, now, paid);
            && r.Commit? && GameInv(inc, r.value)
            && r.value.boards[id].pending.None? && r.value.boards[id].current == Some(bid)
            && r.value.boards[id].guaranteedUntil == Some(now + rules.displaySeconds * SECOND)
  {
    WinCommits(inc, g, id, bid, rules, now, paid);
    WinKeepsLive(inc, g, id, bid, rules, now, paid);
    WinKeepsTakeovers(inc, g, id, bid, rules, now, paid);
    WinKeepsEvidence(inc, g, id, bid, rules, now, paid);
  }

  /** Settlement always commits, keeps the invariant, and leaves no due challenger behind. */
  lemma FinalizeKeepsInv(inc: nat, g: Game, id: BoardId, rules: BoardRules, now: Time, mode: CaptureMode)
    requires GameInv(inc, g) && id in g.boards
    ensures var r := FinalizeLocked(g, id, rules, now, mode);
            && r.Commit? && GameInv(inc, r.value.0)
            && r.value.0.boards.Keys == g.boards.Keys
            && (if IsDue(g.boards[id], now) then r.value.0.boards[id].pending.None? else r.value.0 == g)
  {
    if IsDue(g.boards[id], now) {
      assert BoardOk(inc, g, id);
      var bid := g.boards[id].pending.value;
      if mode == Paid(false) {
        var row := g.bids[bid];
        DropKeepsInv(inc, g, bid, row.(status := PaymentFailed, failures := row.failures + 1, failedAt := Some(now)));
      } else {
        WinKeepsInv(inc, g, id, bid, rules, now, mode.Paid?);
      }
    }
  }

  // ----- moderation -----

  /** Opening or settling the case of a takeover that is not live changes nothing about the boards. */
  lemma CaseKeepsInv(inc: nat, g: Game, bid: BidId, row: Case)
    requires GameInv(inc, g) && bid in g.takeovers && g.takeovers[bid].board in g.boards
    requires row.status.Removed? ==> g.boards[g.takeovers[bid].board].current != Some(bid)
    ensures GameInv(inc, g.(cases := g.cases[bid := row]))
  {
    var g' := g.(cases := g.cases[bid := row]);
    var id := g.takeovers[bid].board;
    assert TakeoverLinked(g, bid) && TakeoverOk(inc, g, bid) && BoardOk(inc, g, id);
    RelinkCases(g, g'.cases);
    assert BoardOk(inc, g', id);
    forall p | p in g'.bids && g'.bids[p].board == id ensures SoleChallenger(g', p) { assert SoleChallenger(g, p); }
    LiveFrame(inc, g, g', id);
    HistoryFrame(inc, g, g');
  }

  lemma RelinkCases(g: Game, cases: map<BidId, Case>)
    requires Linked(g) && cases.Keys <= g.takeovers.Keys
    ensures Linked(g.(cases := cases))
  {
    var g' := g.(cases := cases);
    forall b | b in g'.boards ensures BoardLinked(g', b) { assert BoardLinked(g, b); }
    forall p | p in g'.bids ensures BidLinked(g', p) { assert BidLinked(g, p); }
    forall t | t in g'.takeovers ensures TakeoverLinked(g', t) { assert TakeoverLinked(g, t); }
  }

  /** Falling back to the nearest non-removed ancestor leaves every board in order. */
  lemma RestoreKeepsInv(inc: nat, g: Game, bid: BidId, bids: map<BidId, Bid>)
    requires inc > 0 && GameInv(inc, g) && bid in g.takeovers
    requires g.takeovers[bid].board in g.boards
    requires var board := g.boards[g.takeovers[bid].board];
             && board.current == Some(bid)
             && bids.Keys == g.bids.Keys
             && (forall p {:trigger bids[p]} | p in bids ::
                   if board.pending == Some(p) then SameBid(bids[p], g.bids[p]) && bids[p].status.AuthCanceled?
                   else bids[p] == g.bids[p])
    ensures var id := g.takeovers[bid].board;
            GameInv(inc, g.(boards := g.boards[id := RestoredBoard(g, g.boards[id], PriorNonRemoved(g, bid))], bids := bids))
  {
    var id := g.takeovers[bid].board;
    var restored := RestoredBoard(g, g.boards[id], PriorNonRemoved(g, bid));
    var g' := g.(boards := g.boards[id := restored], bids := bids);
    assert BoardOk(inc, g, id);
    if PriorNonRemoved(g, bid).Some? {
      PriorIsOlder(inc, g, bid);
      assert TakeoverLinked(g, PriorNonRemoved(g, bid).value);
    }
    Relinked(g, id, restored, bids);
    assert BoardOk(inc, g', id);
    forall p | p in g'.bids && g'.bids[p].board == id ensures SoleChallenger(g', p) { assert SoleChallenger(g, p); }
    LiveFrame(inc, g, g', id);
    HistoryFrame(inc, g, g');
  }

  lemma RemoveKeepsInv(inc: nat, g: Game, bid: BidId, now: Time)
    requires inc > 0 && GameInv(inc, g) && bid in g.cases
    ensures GameInv(inc, RemoveTakeover(g, bid, now))
  {
    var g', id := RemoveTakeover(g, bid, now), g.takeovers[bid].board;
    assert TakeoverLinked(g, bid) && BoardLinked(g, id) && BoardOk(inc, g, id);
    if g.boards[id].current == Some(bid) {
      RestoreKeepsInv(inc, g, bid, g'.bids);
      if PriorNonRemoved(g, bid).Some? { PriorIsOlder(inc, g, bid); }
      CaseKeepsInv(inc, g.(boards := g'.boards, bids := g'.bids), bid, Case(Removed, Some(now)));
    } else {
      CaseKeepsInv(inc, g, bid, Case(Removed, Some(now)));
    }
  }

  // ----- weekly rollover -----

  lemma ResetBoardKeepsInv(inc: nat, g: Game, id: BoardId, releases: Releases, now: Time)
    requires GameInv(inc, g) && id in g.boards && ResetBoard(g, id, releases, now).Commit?
    ensures GameInv(inc, ResetBoard(g, id, releases, now).value)
  {
    var g' := ResetBoard(g, id, releases, now).value;
    assert BoardLinked(g, id) && BoardOk(inc, g, id);
    assert BoardOk(inc, g', id);
    forall p | p in g'.bids && g'.bids[p].board == id ensures SoleChallenger(g', p) { assert SoleChallenger(g, p); }
    LiveFrame(inc, g, g', id);
    HistoryFrame(inc, g, g');
  }

  lemma {:induction false} ResetKeepsInv(inc: nat, g: Game, ids: seq<BoardId>, releases: Releases, now: Time)
    requires GameInv(inc, g) && forall i | 0 <= i < |ids| :: ids[i] in g.boards
    requires ResetBoards(g, ids, releases, now).Commit?
    ensures GameInv(inc, ResetBoards(g, ids, releases, now).value)
    decreases |ids|
  {
    if ids != [] {
      var last := |ids| - 1;
      ResetKeepsInv(inc, g, ids[..last], releases, now);
      ResetBoardKeepsInv(inc, ResetBoards(g, ids[..last], releases, now).value, ids[last], releases, now);
    }
  }
}
