// The game tables as the services update them in place, proved against the transactions of `Takeovers`.
module GameStore {
  import opened Base
  import opened Pricing
  import opened Rows
  import opened Takeovers
  import opened GameInvariant
  import opened Lineage

  class GameTables {
    var boards: map<BoardId, Board>
    var bids: map<BidId, Bid>
    var takeovers: map<BidId, Takeover>
    var evidence: map<BidId, Evidence>
    var cases: map<BidId, Case>
    var contacts: map<UserId, Email>

    function Rows(): Game
      reads this
    {
      Game(boards, bids, takeovers, evidence, cases, contacts)
    }

    constructor (g: Game)
      ensures Rows() == g
    {
      boards, bids, takeovers, evidence, cases, contacts := g.boards, g.bids, g.takeovers, g.evidence, g.cases, g.contacts;
    }

    /** What the database does when a transaction is refused. */
    method Restore(g: Game)
      modifies this
      ensures Rows() == g
    {
      boards, bids, takeovers, evidence, cases, contacts := g.boards, g.bids, g.takeovers, g.evidence, g.cases, g.contacts;
    }

    // ----- delivery evidence -----

    method RecordDeliveryEnd(bid: Option<BidId>, at: Time)
      modifies this`evidence
      ensures evidence == Takeovers.RecordDeliveryEnd(old(evidence), bid, at)
    {
      if bid.Some? && bid.value in evidence && evidence[bid.value].endedAt.None? {
        evidence := evidence[bid.value := evidence[bid.value].(endedAt := Some(at))];
      }
    }

    method RecordPurchaseEvidence(bid: BidId, at: Time, guaranteedUntil: Time) returns (r: Tx<()>)
      requires bid in bids && bids[bid].bidder in contacts
      modifies this`evidence
      ensures var spec := Takeovers.RecordPurchaseEvidence(old(Rows()), bid, at, guaranteedUntil);
              if spec.Commit? then r.Commit? && Rows() == spec.value else r == Abort(spec.error)
    {
      if bid in evidence { return Commit(()); }
      var confirmation := bids[bid].confirmation;
      if confirmation.Some? && exists e | e in evidence :: evidence[e].confirmation == confirmation {
        return Abort(ConstraintViolated);
      }
      evidence := evidence[bid := Evidence(contacts[bids[bid].bidder], confirmation, at, guaranteedUntil, None)];
      return Commit(());
    }

    // ----- publication and settlement -----

    method PublishTakeover(id: BoardId, bid: BidId, displaySeconds: nat, at: Time) returns (r: Tx<()>)
      requires id in boards && bid in bids
      modifies this`boards, this`takeovers, this`evidence
      ensures var spec := Takeovers.PublishTakeover(old(Rows()), id, bid, displaySeconds, at);
              if spec.Commit? then r.Commit? && Rows() == spec.value else r == Abort(spec.error)
    {
      var board, row := boards[id], bids[bid];
      RecordDeliveryEnd(board.current, at);
      if bid in takeovers { return Abort(ConstraintViolated); }
      takeovers := takeovers[bid := Takeover(id, board.current, row.bidder, row.entity, row.message, row.amount)];
      board := board.(current := Some(bid));
      board := board.(controller := Some(row.bidder));
      board := board.(amount := row.amount);
      board := board.(message := row.message);
      board := board.(pending := None);
      board := board.(guaranteedUntil := Some(at + displaySeconds * SECOND));
      board := board.(version := board.version + 1);
      boards := boards[id := board];
      return Commit(());
    }

    method TakeBoard(id: BoardId, bid: BidId, rules: BoardRules, now: Time, paid: bool) returns (r: Tx<()>)
      requires Linked(Rows()) && id in boards && bid in bids
      modifies this`boards, this`bids, this`takeovers, this`evidence
      ensures var spec := Win(old(Rows()), id, bid, rules, now, paid);
              if spec.Commit? then r.Commit? && Rows() == spec.value else r == Abort(spec.error)
    {
      assert BidLinked(Rows(), bid);
      var row := bids[bid].(status := if paid then Won else DemoWon);
      row := row.(capturedAt := Some(now));
      bids := bids[bid := row];
      r := PublishTakeover(id, bid, rules.displaySeconds, now);
      if r.Commit? && paid {
        r := RecordPurchaseEvidence(bid, now, boards[id].guaranteedUntil.value);
      }
    }

    /** `mode` is the answer of the capture callback, or `FreePlay` when there is none. */
    method FinalizeLockedPendingBid(id: BoardId, rules: BoardRules, now: Time, mode: CaptureMode)
      returns (r: Tx<Option<FinalizationResult>>)
      requires Linked(Rows()) && id in boards
      modifies this`boards, this`bids, this`takeovers, this`evidence
      ensures var spec := FinalizeLocked(old(Rows()), id, rules, now, mode);
              if spec.Commit? then r == Commit(spec.value.1) && Rows() == spec.value.0 else r == Abort(spec.error)
    {
      assert BoardLinked(Rows(), id);
      var board := boards[id];
      if board.pending.None? { return Commit(None); }
      if board.guaranteedUntil.Some? && board.guaranteedUntil.value > now { return Commit(None); }
      var bid := board.pending.value;
      if !bids[bid].status.Authorized? {
        boards := boards[id := board.(pending := None)];
        return Commit(Some(FinalizationResult(id, bid, false)));
      }
      if mode == Paid(false) {
        var row := bids[bid];
        row := row.(status := PaymentFailed);
        row := row.(failures := row.failures + 1);
        row := row.(failedAt := Some(now));
        bids := bids[bid := row];
        boards := boards[id := board.(pending := None)];
        return Commit(Some(FinalizationResult(id, bid, false)));
      }
      var taken := TakeBoard(id, bid, rules, now, mode.Paid?);
      if taken.Abort? { return Abort(taken.error); }
      return Commit(Some(FinalizationResult(id, bid, true)));
    }

    // ----- challengers -----

    method BecomeChallenger(bid: BidId, intent: Option<IntentId>, now: Time) returns (canceled: seq<BidId>)
      requires Linked(Rows()) && bid in bids
      modifies this`boards, this`bids
      ensures Rows() == Challenge(old(Rows()), bid, intent, now)
      ensures canceled == Superseded(old(Rows()), bid)
    {
      assert BidLinked(Rows(), bid) && BoardLinked(Rows(), bids[bid].board);
      var id := bids[bid].board;
      var pending := boards[id].pending;
      canceled := [];
      if pending.Some? && pending.value != bid {
        var previous := bids[pending.value];
        if previous.status.Authorized? {
          previous := previous.(status := AuthCanceled);
          previous := previous.(canceledAt := Some(now));
          bids := bids[pending.value := previous];
          canceled := [pending.value];
        }
      }
      var row := bids[bid].(status := Authorized);
      row := row.(authorizedAt := Some(now));
      row := row.(intent := intent);
      bids := bids[bid := row];
      boards := boards[id := boards[id].(pending := Some(bid))];
    }

    method DropCanceledPayment(bid: BidId, intent: Option<IntentId>, now: Time)
      requires Linked(Rows()) && bid in bids
      modifies this`boards, this`bids
      ensures Rows() == CancelPayment(old(Rows()), bid, intent, now)
    {
      assert BidLinked(Rows(), bid);
      var row := bids[bid];
      if CancellationImmutable(row.status) { return; }
      if row.intent.None? { row := row.(intent := intent); }
      row := row.(status := AuthCanceled);
      row := row.(canceledAt := Some(now));
      bids := bids[bid := row];
      var board := boards[row.board];
      if board.pending == Some(bid) {
        boards := boards[row.board := board.(pending := None)];
      }
    }

    method CountFailedPayment(bid: BidId, intent: Option<IntentId>, now: Time)
      requires bid in bids
      modifies this`bids
      ensures Rows() == FailPayment(old(Rows()), bid, intent, now)
    {
      var row := bids[bid];
      if !(row.status.Created? || row.status.ModerationApproved? || row.status.CheckoutCreated?) { return; }
      if row.intent.None? { row := row.(intent := intent); }
      row := row.(failures := row.failures + 1);
      row := row.(failedAt := Some(now));
      bids := bids[bid := row];
    }

    // ----- moderation -----

    method SubmitReport(bid: BidId) returns (r: Tx<()>)
      requires Linked(Rows())
      modifies this`cases
      ensures var spec := Takeovers.SubmitReport(old(Rows()), bid);
              if spec.Commit? then r.Commit? && Rows() == spec.value else r == Abort(spec.error)
    {
      TakeoversAreBids(Rows());
      if bid !in takeovers { return Abort(MissingRow); }
      if takeovers[bid].board != bids[bid].board || !(bids[bid].status.Won? || bids[bid].status.DemoWon?) {
        return Abort(MissingRow);
      }
      if bid in cases && !cases[bid].status.Open? { return Abort(MissingRow); }
      if bid !in cases {
        cases := cases[bid := Case(Open, None)];
      }
      return Commit(());
    }

    method ApproveCase(bid: BidId, now: Time) returns (changed: bool)
      requires bid in cases
      modifies this`cases
      ensures Rows() == Takeovers.ApproveCase(old(Rows()), bid, now)
      ensures changed == old(cases[bid].status.Open?)
    {
      if !cases[bid].status.Open? { return false; }
      var row := cases[bid].(status := Approved);
      row := row.(resolvedAt := Some(now));
      cases := cases[bid := row];
      return true;
    }

    /**
     The chain walk, with its visited set. Besides computing `PriorNonRemoved`, it returns the nearest
     ancestor that has not been removed whenever the tables are in order.
     */
    method PriorNonRemovedTakeover(bid: BidId) returns (prior: Option<BidId>)
      requires bid in takeovers
      ensures prior == PriorNonRemoved(Rows(), bid)
      ensures forall inc: nat, a: BidId | inc > 0 && GameInv(inc, Rows()) :: prior == Some(a) <==> IsNearest(Rows(), bid, a)
    {
      forall inc: nat, a: BidId | inc > 0 && GameInv(inc, Rows())
        ensures PriorNonRemoved(Rows(), bid) == Some(a) <==> IsNearest(Rows(), bid, a)
      {
        WalkFindsNearest(inc, Rows(), bid, a);
      }
      var next := takeovers[bid].previous;
      var visited := {bid};
      while next.Some? && next.value !in visited
        invariant PriorFrom(Rows(), next, visited) == PriorNonRemoved(Rows(), bid)
        decreases takeovers.Keys - visited, if next.Some? && next.value !in visited then 1 else 0
      {
        var candidate := next.value;
        if candidate !in takeovers { return None; }
        if candidate !in cases || !cases[candidate].status.Removed? { return Some(candidate); }
        visited := visited + {candidate};
        next := takeovers[candidate].previous;
      }
      return None;
    }

    /** The board half of a removal; the case row is closed by the caller. */
    method RestorePrior(bid: BidId, now: Time) returns (restored: bool)
      requires Linked(Rows()) && bid in cases && bid in takeovers && takeovers[bid].board in boards
      requires boards[takeovers[bid].board].current == Some(bid)
      modifies this`boards, this`bids
      ensures Rows().(cases := old(cases)[bid := Case(Removed, Some(now))]) == RemoveTakeover(old(Rows()), bid, now)
      ensures restored == PriorNonRemoved(old(Rows()), bid).Some?
    {
      var id := takeovers[bid].board;
      assert BoardLinked(Rows(), id);
      var board := boards[id];
      var prior := PriorNonRemovedTakeover(bid);
      if prior.Some? {
        var t := takeovers[prior.value];
        board := board.(current := prior);
        board := board.(controller := Some(t.controller));
        board := board.(amount := t.amount);
        board := board.(message := t.message);
      } else {
        board := board.(current := None);
        board := board.(controller := None);
        board := board.(amount := 0);
        board := board.(message := DEFAULT_MESSAGE);
      }
      board := board.(guaranteedUntil := None);
      if board.pending.Some? {
        var challenger := board.pending.value;
        board := board.(pending := None);
        if bids[challenger].status.Authorized? {
          bids := bids[challenger := bids[challenger].(status := AuthCanceled, canceledAt := Some(now))];
        }
      }
      board := board.(version := board.version + 1);
      boards := boards[id := board];
      return prior.Some?;
    }

    method CloseCase(bid: BidId, now: Time)
      modifies this`cases
      ensures cases == old(cases)[bid := Case(Removed, Some(now))]
    {
      cases := cases[bid := Case(Removed, Some(now))];
    }

    // ----- weekly rollover -----

    /** One turn of the loop over the locked boards. */
    method ClearBoard(id: BoardId, releases: Releases, now: Time) returns (r: Tx<()>)
      requires Linked(Rows()) && id in boards
      modifies this`boards, this`bids
      ensures var spec := ResetBoard(old(Rows()), id, releases, now);
              if spec.Commit? then r.Commit? && Rows() == spec.value else r == Abort(spec.error)
    {
      assert BoardLinked(Rows(), id);
      var board := boards[id];
      if board.pending.Some? {
        var challenger := board.pending.value;
        var status := bids[challenger].status;
        if status.Authorized? && releases.Some? && challenger !in releases.value {
          return Abort(ReleaseFailed(challenger));
        }
        if status.Created? || status.CheckoutCreated? || status.Authorized? {
          bids := bids[challenger := bids[challenger].(status := AuthCanceled, canceledAt := Some(now))];
        }
      }
      board := board.(current := None, controller := None, amount := 0, message := DEFAULT_MESSAGE);
      board := board.(pending := None, guaranteedUntil := None);
      board := board.(version := board.version + 1);
      boards := boards[id := board];
      return Commit(());
    }

    /** The first release the provider refuses ends the loop and aborts the whole transaction. */
    method ResetBoards(ids: seq<BoardId>, releases: Releases, now: Time) returns (r: Tx<nat>)
      requires Linked(Rows()) && forall i | 0 <= i < |ids| :: ids[i] in boards
      modifies this`boards, this`bids
      ensures var spec := Takeovers.ResetBoards(old(Rows()), ids, releases, now);
              if spec.Commit? then r == Commit(|ids|) && Rows() == spec.value else r == Abort(spec.error)
    {
      ghost var g := Rows();
      for i := 0 to |ids|
        invariant Linked(Rows()) && boards.Keys == g.boards.Keys
        invariant Takeovers.ResetBoards(g, ids[..i], releases, now) == Commit(Rows())
      {
        assert ids[..i + 1][..i] == ids[..i];
        var cleared := ClearBoard(ids[i], releases, now);
        if cleared.Abort? {
          FailedResetStaysFailed(g, ids, i + 1, releases, now);
          return Abort(cleared.error);
        }
      }
      assert ids[..|ids|] == ids;
      return Commit(|ids|);
    }
  }

  /** Once one board of the list fails, no longer list succeeds. */
  lemma {:induction false} FailedResetStaysFailed(g: Game, ids: seq<BoardId>, n: nat, releases: Releases, now: Time)
    requires Linked(g) && (forall i | 0 <= i < |ids| :: ids[i] in g.boards) && n <= |ids|
    requires Takeovers.ResetBoards(g, ids[..n], releases, now).Abort?
    ensures Takeovers.ResetBoards(g, ids, releases, now) == Takeovers.ResetBoards(g, ids[..n], releases, now)
    decreases |ids|
  {
    if n < |ids| {
      assert ids[..|ids| - 1][..n] == ids[..n];
      FailedResetStaysFailed(g, ids[..|ids| - 1], n, releases, now);
    } else {
      assert ids[..n] == ids;
    }
  }
}
