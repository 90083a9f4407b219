// What every reachable state of the game tables satisfies, and why each transaction keeps it.
module GameInvariant {
  import opened Base
  import opened Pricing
  import opened Rows
  import opened Takeovers

  /** A live board shows exactly its current takeover, which has not been removed. */
  ghost predicate ShowsTakeover(g: Game, id: BoardId, bid: BidId)
    requires id in g.boards
  {
    && bid in g.takeovers
    && var t, board := g.takeovers[bid], g.boards[id];
    && t.board == id
    && board.amount == t.amount
    && board.controller == Some(t.controller)
    && board.message == t.message
    && !IsRemoved(g, bid)
  }

  /** An open board is blank; a pending challenger is authorized and beats the live amount by an increment. */
  ghost predicate BoardOk(inc: nat, g: Game, id: BoardId)
    requires id in g.boards
  {
    var board := g.boards[id];
    && (board.current.None? ==>
          && board.amount == 0 && board.controller.None?
          && board.guaranteedUntil.None? && board.message == DEFAULT_MESSAGE)
    && (board.current.Some? ==> ShowsTakeover(g, id, board.current.value))
    && (board.pending.Some? ==>
          && board.pending.value in g.bids
          && var row := g.bids[board.pending.value];
          && row.board == id && row.status.Authorized? && row.amount >= board.amount + inc)
  }

  /** Only the pending challenger of a board holds an authorization. */
  ghost predicate SoleChallenger(g: Game, p: BidId)
    requires p in g.bids
  {
    var row := g.bids[p];
    row.status.Authorized? ==> row.board in g.boards && g.boards[row.board].pending == Some(p)
  }

  /** A bid has a published status exactly when it received its one takeover. */
  ghost predicate StatusOk(g: Game, p: BidId)
    requires p in g.bids
  {
    Published(g.bids[p].status) <==> p in g.takeovers
  }

  /** A takeover repeats its bid and beats the takeover it replaced, whose delivery it ended. */
  ghost predicate TakeoverOk(inc: nat, g: Game, t: BidId)
    requires t in g.takeovers
  {
    var row := g.takeovers[t];
    && t in g.bids
    && var bid := g.bids[t];
    && row.board == bid.board && row.amount == bid.amount && row.message == bid.message && row.controller == bid.bidder
    && row.amount >= inc
    && (row.previous.Some? ==>
          && row.previous.value in g.takeovers
          && var before := g.takeovers[row.previous.value];
          && before.board == row.board
          && before.amount + inc <= row.amount
          && (row.previous.value in g.evidence ==> g.evidence[row.previous.value].endedAt.Some?))
  }

  /**
   A recorded delivery end never precedes the guarantee; and while a live bid has no recorded end,
   the guarantee of its board is still the one that was promised to it.
   */
  ghost predicate EvidenceOk(g: Game, e: BidId)
    requires e in g.evidence
  {
    var row := g.evidence[e];
    && e in g.takeovers && e in g.bids
    && row.confirmation == g.bids[e].confirmation
    && (row.endedAt.Some? ==> row.guaranteedUntil <= row.endedAt.value)
    && (row.endedAt.None? && g.takeovers[e].board in g.boards && g.boards[g.takeovers[e].board].current == Some(e) ==>
          g.boards[g.takeovers[e].board].guaranteedUntil == Some(row.guaranteedUntil))
  }

  /** One confirmation backs at most one bid. */
  ghost predicate OwnConfirmation(g: Game, p: BidId, q: BidId)
    requires p in g.bids && q in g.bids
  {
    p != q && g.bids[p].confirmation.Some? ==> g.bids[p].confirmation != g.bids[q].confirmation
  }

  /** The part of the invariant about live boards and their challengers. */
  ghost predicate LiveInv(inc: nat, g: Game) {
    && (forall b {:trigger BoardOk(inc, g, b)} | b in g.boards :: BoardOk(inc, g, b))
    && (forall p {:trigger SoleChallenger(g, p)} | p in g.bids :: SoleChallenger(g, p))
  }

  /** The part of the invariant about what has been published so far. */
  ghost predicate HistoryInv(inc: nat, g: Game) {
    && (forall p {:trigger StatusOk(g, p)} | p in g.bids :: StatusOk(g, p))
    && (forall t {:trigger TakeoverOk(inc, g, t)} | t in g.takeovers :: TakeoverOk(inc, g, t))
    && (forall e {:trigger EvidenceOk(g, e)} | e in g.evidence :: EvidenceOk(g, e))
    && (forall p, q {:trigger OwnConfirmation(g, p, q)} | p in g.bids && q in g.bids :: OwnConfirmation(g, p, q))
  }

  ghost predicate GameInv(inc: nat, g: Game) {
    Linked(g) && LiveInv(inc, g) && HistoryInv(inc, g)
  }

  lemma EvidenceIsPublished(inc: nat, g: Game)
    requires GameInv(inc, g)
    ensures g.evidence.Keys <= g.takeovers.Keys
  {
    forall e | e in g.evidence ensures e in g.takeovers { assert EvidenceOk(g, e); }
  }

  // ----- two frame arguments shared by the transactions that publish nothing -----

  /** Two versions of a bid that agree on everything fixed at creation. */
  predicate SameBid(a: Bid, b: Bid) {
    && a.board == b.board && a.bidder == b.bidder && a.entity == b.entity && a.message == b.message
    && a.amount == b.amount && a.approval == b.approval && a.confirmation == b.confirmation
  }

  /** No bid is published or unpublished, and no live board changes except to a bid whose delivery has ended. */
  ghost predicate PublishesNothing(g: Game, g': Game) {
    && g'.takeovers == g.takeovers && g'.evidence == g.evidence
    && g'.boards.Keys == g.boards.Keys && g.bids.Keys <= g'.bids.Keys
    && (forall p {:trigger g'.bids[p]} | p in g'.bids ::
          if p in g.bids then SameBid(g'.bids[p], g.bids[p]) && (Published(g'.bids[p].status) <==> Published(g.bids[p].status))
          else !Published(g'.bids[p].status) && p !in g.takeovers)
    && (forall b {:trigger g'.boards[b]} | b in g.boards ::
          var after, before := g'.boards[b], g.boards[b];
          || (after.current == before.current && after.guaranteedUntil == before.guaranteedUntil)
          || after.current.None?
          || (after.current.value in g.evidence ==> g.evidence[after.current.value].endedAt.Some?))
  }

  lemma HistoryFrame(inc: nat, g: Game, g': Game)
    requires GameInv(inc, g) && PublishesNothing(g, g')
    requires forall p, q {:trigger OwnConfirmation(g', p, q)} | p in g'.bids && q in g'.bids && (p !in g.bids || q !in g.bids) ::
               OwnConfirmation(g', p, q)
    ensures HistoryInv(inc, g')
  {
    forall p | p in g'.bids ensures StatusOk(g', p) {
      if p in g.bids { assert StatusOk(g, p); }
    }
    forall t | t in g'.takeovers ensures TakeoverOk(inc, g', t) { assert TakeoverOk(inc, g, t); }
    forall e | e in g'.evidence ensures EvidenceOk(g', e) { assert EvidenceOk(g, e); }
    forall p, q | p in g'.bids && q in g'.bids ensures OwnConfirmation(g', p, q) {
      if p in g.bids && q in g.bids { assert OwnConfirmation(g, p, q); }
    }
  }

  /** Only board `id` and bids on it are touched. */
  ghost predicate TouchesOnly(g: Game, g': Game, id: BoardId) {
    && g'.takeovers == g.takeovers && id in g.boards
    && g'.boards.Keys == g.boards.Keys
    && (forall b {:trigger g'.boards[b]} | b in g.boards && b != id :: g'.boards[b] == g.boards[b])
    && g.bids.Keys <= g'.bids.Keys
    && (forall p {:trigger g'.bids[p]} | p in g.bids :: g'.bids[p].board == g.bids[p].board)
    && (forall p {:trigger g'.bids[p]} | p in g'.bids && g'.bids[p].board != id :: p in g.bids && g'.bids[p] == g.bids[p])
    && (forall c {:trigger IsRemoved(g', c)} :: IsRemoved(g', c) ==>
                                                  IsRemoved(g, c) || (c in g.takeovers && g.takeovers[c].board == id))
  }

  lemma LiveFrame(inc: nat, g: Game, g': Game, id: BoardId)
    requires GameInv(inc, g) && TouchesOnly(g, g', id)
    requires BoardOk(inc, g', id)
    requires forall p {:trigger SoleChallenger(g', p)} | p in g'.bids && g'.bids[p].board == id :: SoleChallenger(g', p)
    ensures LiveInv(inc, g')
  {
    forall b | b in g'.boards ensures BoardOk(inc, g', b) {
      assert BoardOk(inc, g, b);
      if b != id {
        assert g'.boards[b] == g.boards[b];
        if g.boards[b].pending.Some? {
          var p := g.boards[b].pending.value;
          assert p in g'.bids;
          assert SoleChallenger(g, p);
        }
      }
    }
    forall p | p in g'.bids ensures SoleChallenger(g', p) {
      if g'.bids[p].board != id { assert SoleChallenger(g, p); }
    }
  }

  /**
   A transaction that publishes nothing keeps the invariant once the one board it touches is in order
   and every authorization on that board belongs to its challenger.
   */
  lemma QuietStepKeepsInv(inc: nat, g: Game, board: Board, bids: map<BidId, Bid>, id: BoardId)
    requires GameInv(inc, g) && id in g.boards && bids.Keys == g.bids.Keys
    requires forall p {:trigger bids[p]} | p in bids ::
               && SameBid(bids[p], g.bids[p]) && (Published(bids[p].status) <==> Published(g.bids[p].status))
               && (bids[p].board != id ==> bids[p] == g.bids[p])
               && (bids[p].status.Authorized? ==> g.bids[p].status.Authorized? || board.pending == Some(p))
    requires board.current == g.boards[id].current && board.guaranteedUntil == g.boards[id].guaranteedUntil
    requires board.amount == g.boards[id].amount && board.controller == g.boards[id].controller && board.message == g.boards[id].message
    requires if board.pending.Some?
             then board.pending.value in bids && var row := bids[board.pending.value];
                  row.board == id && row.status.Authorized? && row.amount >= board.amount + inc
             else true
    requires g.boards[id].pending.Some? && board.pending != g.boards[id].pending && g.boards[id].pending.value in bids ==>
               !bids[g.boards[id].pending.value].status.Authorized?
    ensures GameInv(inc, g.(boards := g.boards[id := board], bids := bids))
  {
    var g' := g.(boards := g.boards[id := board], bids := bids);
    assert BoardLinked(g, id) && BoardOk(inc, g, id);
    Relinked(g, id, board, bids);
    assert BoardOk(inc, g', id);
    forall p | p in bids && bids[p].board == id ensures SoleChallenger(g', p) { assert SoleChallenger(g, p); }
    LiveFrame(inc, g, g', id);
    HistoryFrame(inc, g, g');
  }
}
