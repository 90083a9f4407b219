// Removal, the two-phase payment worker and the leased mailer keep the remediation tables in agreement.
module DeskSteps {
  import opened Base
  import opened Rows
  import opened Takeovers
  import opened GameInvariant
  import opened GameSteps
  import opened Lineage
  import opened Books
  import opened BooksInvariant
  import opened BooksSteps
  import opened Desk
  import opened DeskInvariant

  lemma {:induction false} NeverClaimed(sends: seq<Send>, c: BidId)
    requires forall i | 0 <= i < |sends| :: sends[i].eventKey != c
    ensures Claims(sends, c) == 0
    decreases |sends|
  {
    if sends != [] { NeverClaimed(sends[..|sends| - 1], c); }
  }

  lemma ClaimsAfterAppend(sends: seq<Send>, s: Send, c: BidId)
    ensures Claims(sends + [s], c) == Claims(sends, c) + if s.eventKey == c then 1 else 0
  {
    assert (sends + [s])[..|sends|] == sends;
  }

  // ----- removal -----

  /** Neither the removed bid nor the challenger it takes down already has an action or a notice. */
  lemma RemovalIsFresh(inc: nat, g: Game, b: Books, d: Desk, bid: BidId)
    requires GameInv(inc, g) && DeskInv(g, b, d) && bid in g.cases && !IsRemoved(g, bid)
    ensures bid !in d.actions && bid !in d.notices && bid in g.takeovers && bid in g.bids
    ensures Published(g.bids[bid].status)
    ensures forall p | p in g.bids && g.bids[p].status.Authorized? :: p !in d.actions && p != bid
    ensures Claims(d.sends, bid) == 0
  {
    assert TakeoverLinked(g, bid) && StatusOk(g, bid);
    assert bid !in d.actions by { if bid in d.actions { ActionsHaveRemovedCases(inc, g, b, d, bid); assert false; } }
    assert bid !in d.notices by { NoticesHaveRemovedCases(g, b, d); }
    forall p | p in g.bids && g.bids[p].status.Authorized? ensures p !in d.actions {
      assert StatusOk(g, p);
      if p in d.actions { ActionsHaveRemovedCases(inc, g, b, d, p); assert false; }
    }
    forall i | 0 <= i < |d.sends| ensures d.sends[i].eventKey != bid { assert SendOk(d, i); }
    NeverClaimed(d.sends, bid);
  }

  lemma ActionsHaveRemovedCases(inc: nat, g: Game, b: Books, d: Desk, a: BidId)
    requires GameInv(inc, g) && DeskInv(g, b, d) && a in d.actions
    ensures a in g.bids
    ensures g.bids[a].status.AuthCanceled? || (a in g.takeovers && IsRemoved(g, a))
  {
    assert ActionOk(g, b, d, a);
  }

  lemma NoticesHaveRemovedCases(g: Game, b: Books, d: Desk)
    requires DeskInv(g, b, d)
    ensures forall c | c in d.notices :: IsRemoved(g, c)
  {
    forall c | c in d.notices ensures IsRemoved(g, c) { assert NoticeOk(g, b, d, c); }
  }

  /** The board-side effects of a removal leave the desk untouched. */
  lemma RemovalRespectsDesk(inc: nat, g: Game, b: Books, d: Desk, bid: BidId, now: Time)
    requires GameInv(inc, g) && DeskInv(g, b, d) && bid in g.cases && !IsRemoved(g, bid)
    ensures DeskInv(RemoveTakeover(g, bid, now).(cases := g.cases), b, d)
  {
    var g0 := RemoveTakeover(g, bid, now).(cases := g.cases);
    assert TakeoverLinked(g, bid) && BoardLinked(g, g.takeovers[bid].board);
    DeskFrame(g, b, d, g0, b);
  }

  /** What a removal puts on the desk: at most one cancellation, one refund and one notice, all for its own case. */
  ghost predicate Queues(g: Game, d: Desk, d': Desk, bid: BidId, challenger: Option<BidId>) {
    && bid in d'.actions && bid in g.bids && g.bids[bid].bidder in g.contacts
    && var refund := d'.actions[bid];
    && refund.caseOf == bid && refund.op.IssueRefund? && (refund.status.ActionPending? || refund.status.ActionNotRequired?)
    && d'.sends == d.sends && d'.calls == d.calls
    && (if challenger.None? then d'.actions == d.actions[bid := refund]
        else
          && challenger.value != bid && challenger.value !in d.actions && challenger.value in d'.actions
          && challenger.value in g.bids && g.bids[challenger.value].status.AuthCanceled?
          && d'.actions == d.actions[challenger.value := d'.actions[challenger.value]][bid := refund]
          && d'.actions[challenger.value].caseOf == bid && d'.actions[challenger.value].op.CancelAuthorization?)
    && (if Recipient(g, bid).wellFormed
        then
          && bid in d'.notices && d'.notices == d.notices[bid := d'.notices[bid]]
          && var n := d'.notices[bid];
          && n.recipient == Recipient(g, bid).address && n.waiting == Unsettled(refund) && n.status.NoticePending? && n.attempts == 0 && n.context.figures.None?
        else d'.notices == d.notices)
  }

  lemma QueueKeepsActions(g0: Game, g: Game, b: Books, d: Desk, d': Desk, bid: BidId, challenger: Option<BidId>, row: Case)
    requires DeskInv(g0, b, d) && bid in g0.cases && !IsRemoved(g0, bid) && row.status.Removed?
    requires g == g0.(cases := g0.cases[bid := row])
    requires bid !in d.actions && bid !in d.notices && Claims(d.sends, bid) == 0
    requires Queues(g, d, d', bid, challenger)
    ensures forall a {:trigger ActionOk(g, b, d', a)} | a in d'.actions :: ActionOk(g, b, d', a)
    ensures forall p, q {:trigger OneCancel(d', p, q)} | p in d'.actions && q in d'.actions :: OneCancel(d', p, q)
  {
    assert RefundBacked(b, d, bid);
    forall a | a in d'.actions ensures ActionOk(g, b, d', a) {
      if a in d.actions { assert ActionOk(g0, b, d, a); }
    }
    forall p, q | p in d'.actions && q in d'.actions ensures OneCancel(d', p, q) {
      if p in d.actions { assert ActionOk(g0, b, d, p); }
      if q in d.actions { assert ActionOk(g0, b, d, q); }
      if p in d.actions && q in d.actions { assert OneCancel(d, p, q); }
    }
  }

  lemma QueueKeepsCases(g0: Game, g: Game, b: Books, d: Desk, d': Desk, bid: BidId, challenger: Option<BidId>, row: Case)
    requires DeskInv(g0, b, d) && bid in g0.cases && !IsRemoved(g0, bid) && row.status.Removed?
    requires g == g0.(cases := g0.cases[bid := row])
    requires bid !in d.actions && bid !in d.notices && Claims(d.sends, bid) == 0
    requires Queues(g, d, d', bid, challenger)
    ensures forall c {:trigger CaseOk(g, d', c)} | c in g.cases :: CaseOk(g, d', c)
    ensures forall c {:trigger NoticeOk(g, b, d', c)} | c in d'.notices :: NoticeOk(g, b, d', c)
  {
    forall c | c in g.cases ensures CaseOk(g, d', c) {
      if c != bid { assert CaseOk(g0, d, c); }
    }
    forall c | c in d'.notices ensures NoticeOk(g, b, d', c) {
      if c != bid { assert NoticeOk(g0, b, d, c); }
    }
  }

  lemma QueueKeepsInv(g0: Game, g: Game, b: Books, d: Desk, d': Desk, bid: BidId, challenger: Option<BidId>, row: Case)
    requires DeskInv(g0, b, d) && bid in g0.cases && !IsRemoved(g0, bid) && row.status.Removed?
    requires g == g0.(cases := g0.cases[bid := row])
    requires bid !in d.actions && bid !in d.notices && Claims(d.sends, bid) == 0
    requires Queues(g, d, d', bid, challenger)
    ensures DeskInv(g, b, d')
  {
    QueueKeepsActions(g0, g, b, d, d', bid, challenger, row);
    QueueKeepsCases(g0, g, b, d, d', bid, challenger, row);
    forall i | 0 <= i < |d'.sends| ensures SendOk(d', i) { assert SendOk(d, i); }
    forall i | 0 <= i < |d'.calls| ensures CallOk(g, b, d', i) { assert CallOk(g0, b, d, i); }
    forall id: BidId ensures RefundBacked(b, d', id) { assert RefundBacked(b, d, id); }
  }

  /** Neither the one-action-per-bid constraint nor anything else stops the work of a removal. */
  lemma QueueWorkCommits(inc: nat, g: Game, b: Books, d: Desk, bid: BidId, now: Time)
    requires GameInv(inc, g) && DeskInv(g, b, d) && bid in g.cases && !IsRemoved(g, bid)
    requires bid in g.takeovers && bid in g.bids && g.takeovers[bid].board in g.boards
    ensures var board := g.boards[g.takeovers[bid].board];
            var challenger := if board.current == Some(bid) then board.pending else None;
            && QueueWork(g, d, bid, now).Commit?
            && (challenger.Some? ==> challenger.value in g.bids && g.bids[challenger.value].status.Authorized?)
            && QueueWork(g, d, bid, now).value ==
               d.(actions :=
                    (if challenger.Some? then d.actions[challenger.value := NewAction(bid, g.bids[challenger.value], now)] else d.actions)
                    [bid := NewAction(bid, g.bids[bid], now)])
  {
    RemovalIsFresh(inc, g, b, d, bid);
    assert BoardOk(inc, g, g.takeovers[bid].board);
  }

  lemma ChallengerIsDropped(inc: nat, g: Game, bid: BidId, now: Time)
    requires GameInv(inc, g) && bid in g.cases && bid in g.takeovers && g.takeovers[bid].board in g.boards
    ensures var g' := RemoveTakeover(g, bid, now);
            var board := g.boards[g.takeovers[bid].board];
            && g'.bids.Keys == g.bids.Keys && g'.contacts == g.contacts && g'.evidence == g.evidence
            && (bid in g.bids ==> g'.bids[bid].bidder == g.bids[bid].bidder)
            && (board.current == Some(bid) && board.pending.Some? ==>
                  board.pending.value in g'.bids && g'.bids[board.pending.value].status.AuthCanceled?)
  {
    assert BoardOk(inc, g, g.takeovers[bid].board);
  }

  lemma NoticeIsQueued(g: Game, d: Desk, d1: Desk, bid: BidId, challenger: Option<BidId>, to: Email, context: Context, waiting: bool, now: Time)
    requires bid in d1.actions && bid !in d.notices && bid in g.bids && g.bids[bid].bidder in g.contacts && to == Recipient(g, bid)
    requires d1.notices == d.notices && d1.sends == d.sends && d1.calls == d.calls && context.figures.None?
    requires var refund := d1.actions[bid];
             && refund.caseOf == bid && refund.op.IssueRefund? && (refund.status.ActionPending? || refund.status.ActionNotRequired?)
             && waiting == Unsettled(refund)
             && (if challenger.None? then d1.actions == d.actions[bid := refund]
                 else
                   && challenger.value != bid && challenger.value !in d.actions && challenger.value in d1.actions
                   && challenger.value in g.bids && g.bids[challenger.value].status.AuthCanceled?
                   && d1.actions == d.actions[challenger.value := d1.actions[challenger.value]][bid := refund]
                   && d1.actions[challenger.value].caseOf == bid && d1.actions[challenger.value].op.CancelAuthorization?)
    ensures Queues(g, d, EnqueueNotice(d1, bid, to, context, waiting, now), bid, challenger)
  {
  }

  /** Removal always commits and queues exactly its own work. */
  lemma RemoveCaseQueues(inc: nat, g: Game, b: Books, d: Desk, bid: BidId, now: Time)
    requires GameInv(inc, g) && DeskInv(g, b, d) && bid in g.cases && g.cases[bid].status.Open?
    requires bid in g.takeovers && g.takeovers[bid].board in g.boards
    ensures var r := RemoveCase(g, d, bid, now);
            && r.Commit?
            && r.value.0 == RemoveTakeover(g, bid, now)
            && var board := g.boards[g.takeovers[bid].board];
               Queues(r.value.0, d, r.value.1, bid, if board.current == Some(bid) then board.pending else None)
  {
    assert TakeoverLinked(g, bid) && BidLinked(g, bid);
    RemovalIsFresh(inc, g, b, d, bid);
    QueueWorkCommits(inc, g, b, d, bid, now);
    ChallengerIsDropped(inc, g, bid, now);
    var d1 := QueueWork(g, d, bid, now).value;
    NoticeForWork(g, d, d1, bid, now);
  }

  /** From the queued work to the notice. */
  lemma NoticeForWork(g: Game, d: Desk, d1: Desk, bid: BidId, now: Time)
    requires Linked(g) && bid in g.cases && bid in g.takeovers && g.takeovers[bid].board in g.boards
    requires bid in g.bids && g.bids[bid].bidder in g.contacts && bid !in d.notices
    requires var challenger := if g.boards[g.takeovers[bid].board].current == Some(bid) then g.boards[g.takeovers[bid].board].pending else None;
             && (challenger.Some? ==>
                   && challenger.value != bid && challenger.value !in d.actions && challenger.value in g.bids
                   && g.bids[challenger.value].status.Authorized?)
             && !g.bids[bid].status.Authorized?
             && d1 == d.(actions :=
                           (if challenger.Some? then d.actions[challenger.value := NewAction(bid, g.bids[challenger.value], now)] else d.actions)
                           [bid := NewAction(bid, g.bids[bid], now)])
    requires var g' := RemoveTakeover(g, bid, now);
             var board := g.boards[g.takeovers[bid].board];
             && g'.bids.Keys == g.bids.Keys && g'.contacts == g.contacts && g'.evidence == g.evidence
             && g'.bids[bid].bidder == g.bids[bid].bidder
             && (board.current == Some(bid) && board.pending.Some? ==>
                   board.pending.value in g'.bids && g'.bids[board.pending.value].status.AuthCanceled?)
    ensures var context := Context(g.takeovers[bid].board, now, bid, None);
            var waiting := d1.actions[bid].op.IssueRefund? && d1.actions[bid].status.ActionPending?;
            var board := g.boards[g.takeovers[bid].board];
            Queues(RemoveTakeover(g, bid, now), d, EnqueueNotice(d1, bid, Recipient(g, bid), context, waiting, now), bid,
                   if board.current == Some(bid) then board.pending else None)
  {
    var board := g.boards[g.takeovers[bid].board];
    var context := Context(g.takeovers[bid].board, now, bid, None);
    var waiting := d1.actions[bid].op.IssueRefund? && d1.actions[bid].status.ActionPending?;
    NoticeIsQueued(RemoveTakeover(g, bid, now), d, d1, bid, if board.current == Some(bid) then board.pending else None, Recipient(g, bid), context, waiting, now);
  }

  lemma RemoveCaseKeepsDesk(inc: nat, g: Game, b: Books, d: Desk, bid: BidId, now: Time)
    requires GameInv(inc, g) && DeskInv(g, b, d) && bid in g.cases && g.cases[bid].status.Open?
    ensures var r := RemoveCase(g, d, bid, now); r.Commit? && DeskInv(r.value.0, b, r.value.1)
  {
    assert TakeoverLinked(g, bid);
    RemovalIsFresh(inc, g, b, d, bid);
    RemoveCaseQueues(inc, g, b, d, bid, now);
    RemovalRespectsDesk(inc, g, b, d, bid, now);
    var g', d' := RemoveTakeover(g, bid, now), RemoveCase(g, d, bid, now).value.1;
    var board := g.boards[g.takeovers[bid].board];
    var challenger := if board.current == Some(bid) then board.pending else None;
    assert g' == g'.(cases := g.cases).(cases := g.cases[bid := Case(Removed, Some(now))]);
    QueueKeepsInv(g'.(cases := g.cases), g', b, d, d', bid, challenger, Case(Removed, Some(now)));
  }

  // ----- the payment worker -----

  /** Replacing one action by another stage of itself, with a matching notice, keeps the desk in order. */
  ghost predicate Advances(g: Game, b: Books, d: Desk, d': Desk, id: BidId) {
    && id in d.actions && d'.actions.Keys == d.actions.Keys
    && (forall a {:trigger d'.actions[a]} | a in d.actions && a != id :: d'.actions[a] == d.actions[a])
    && IdempotencyKey(d'.actions[id]) == IdempotencyKey(d.actions[id])
    && d'.sends == d.sends
    && (d'.calls == d.calls || exists c {:trigger CallFits(g, b, d', c, id)} :: CallFits(g, b, d', c, id) && d'.calls == d.calls + [c])
  }

  ghost predicate CallFits(g: Game, b: Books, d: Desk, c: Call, id: BidId) {
    && id in d.actions && c.bid == id && c.key == IdempotencyKey(d.actions[id])
    && (if c.key.op.CancelAuthorization? then c.amount.None?
        else id in g.bids && c.amount.Some? && NetRefund(g, b, id) == Some(c.amount.value))
  }

  /** What the notice of an advancing action has to do: follow it when it settles, else stay as it is. */
  ghost predicate NoticeFollows(g: Game, b: Books, d: Desk, d': Desk, id: BidId)
    requires id in d.actions && id in d'.actions
  {
    && d'.notices.Keys == d.notices.Keys
    && (forall c {:trigger d'.notices[c]} | c in d.notices && c != id :: d'.notices[c] == d.notices[c])
    && (id in d.notices ==>
          if Unsettled(d.actions[id]) && !Unsettled(d'.actions[id])
          then NoticeOk(g, b, d', id)
          else
            && d'.notices[id] == d.notices[id]
            && (Unsettled(d'.actions[id]) <==> Unsettled(d.actions[id]))
            && (d.actions[id].op.IssueRefund? ==>
                  && (d'.actions[id].status.ActionSucceeded? <==> d.actions[id].status.ActionSucceeded?)
                  && (d.actions[id].status.ActionSucceeded? ==> d'.actions[id] == d.actions[id])))
  }

  lemma AdvanceKeepsNotices(g: Game, b: Books, d: Desk, d': Desk, id: BidId)
    requires DeskInv(g, b, d) && Advances(g, b, d, d', id) && NoticeFollows(g, b, d, d', id)
    ensures forall c {:trigger NoticeOk(g, b, d', c)} | c in d'.notices :: NoticeOk(g, b, d', c)
    ensures forall i {:trigger SendOk(d', i)} | 0 <= i < |d'.sends| :: SendOk(d', i)
  {
    forall c | c in d'.notices ensures NoticeOk(g, b, d', c) {
      assert NoticeOk(g, b, d, c) && CaseOk(g, d, c);
    }
    forall i | 0 <= i < |d'.sends| ensures SendOk(d', i) {
      assert SendOk(d, i);
      assert NoticeOk(g, b, d, d.sends[i].eventKey) && CaseOk(g, d, d.sends[i].eventKey);
    }
  }

  lemma AdvanceKeepsInv(g: Game, b: Books, d: Desk, d': Desk, id: BidId)
    requires DeskInv(g, b, d) && Advances(g, b, d, d', id) && NoticeFollows(g, b, d, d', id)
    requires ActionOk(g, b, d', id)
    ensures DeskInv(g, b, d')
  {
    AdvanceKeepsNotices(g, b, d, d', id);
    forall a | a in d'.actions ensures ActionOk(g, b, d', a) {
      if a != id { assert ActionOk(g, b, d, a); }
    }
    forall p, q | p in d'.actions && q in d'.actions ensures OneCancel(d', p, q) { assert OneCancel(d, p, q); }
    forall c | c in g.cases ensures CaseOk(g, d', c) { assert CaseOk(g, d, c); }
    forall i | 0 <= i < |d'.calls| ensures CallOk(g, b, d', i) {
      if i < |d.calls| { assert CallOk(g, b, d, i); }
    }
    forall i: BidId ensures RefundBacked(b, d', i) { assert RefundBacked(b, d, i); }
  }

  lemma BeginKeepsDesk(inc: nat, g: Game, b: Books, d: Desk, id: BidId, now: Time)
    requires GameInv(inc, g) && DeskInv(g, b, d) && id in d.actions
    ensures ActionOk(g, b, d, id) && DeskInv(g, b, BeginAction(g, b, d, id, now))
  {
    assert ActionOk(g, b, d, id) && CaseOk(g, d, d.actions[id].caseOf);
    if id in d.notices { assert NoticeOk(g, b, d, id); }
    var d' := BeginAction(g, b, d, id, now);
    if d' != d {
      if |d'.calls| > |d.calls| { assert CallFits(g, b, d', d'.calls[|d.calls|], id); }
      AdvanceKeepsInv(g, b, d, d', id);
    }
  }

  /** Settling one refund while the tables of the other bids stay as they are. */
  ghost predicate Settles(g: Game, b: Books, g': Game, b': Books, d: Desk, d': Desk, id: BidId) {
    && RespectsDesk(g, b, g', b', {id}) && g.cases.Keys <= g.takeovers.Keys
    && Advances(g', b', d, d', id)
    && d.actions[id].op.IssueRefund? && Unsettled(d.actions[id]) && !Unsettled(d'.actions[id])
    && d'.notices.Keys == d.notices.Keys && d'.calls == d.calls
    && (forall c {:trigger d'.notices[c]} | c in d.notices && c != id :: d'.notices[c] == d.notices[c])
    && ActionOk(g', b', d', id)
    && (id in d.notices ==> NoticeOk(g', b', d', id))
  }

  lemma SettleKeepsNotices(g: Game, b: Books, g': Game, b': Books, d: Desk, d': Desk, id: BidId)
    requires DeskInv(g, b, d) && Settles(g, b, g', b', d, d', id)
    ensures forall c {:trigger NoticeOk(g', b', d', c)} | c in d'.notices :: NoticeOk(g', b', d', c)
    ensures forall i {:trigger SendOk(d', i)} | 0 <= i < |d'.sends| :: SendOk(d', i)
  {
    forall c | c in d'.notices && c != id ensures NoticeOk(g', b', d', c) {
      assert NoticeOk(g, b, d, c) && CaseOk(g, d, c);
      assert c in g'.evidence <==> c in g.evidence;
      if c in b.captures { assert Extends(b.captures[c], b'.captures[c]); }
      if d.actions[c].status.ActionSucceeded? { assert ActionOk(g, b, d, c); }
    }
    forall i | 0 <= i < |d'.sends| ensures SendOk(d', i) {
      assert SendOk(d, i);
      assert NoticeOk(g, b, d, d.sends[i].eventKey) && CaseOk(g, d, d.sends[i].eventKey);
    }
  }

  lemma SettleKeepsActions(g: Game, b: Books, g': Game, b': Books, d: Desk, d': Desk, id: BidId)
    requires DeskInv(g, b, d) && Settles(g, b, g', b', d, d', id)
    ensures forall a {:trigger ActionOk(g', b', d', a)} | a in d'.actions :: ActionOk(g', b', d', a)
    ensures forall i {:trigger CallOk(g', b', d', i)} | 0 <= i < |d'.calls| :: CallOk(g', b', d', i)
  {
    forall a | a in d'.actions ensures ActionOk(g', b', d', a) {
      assert ActionOk(g, b, d, a);
      if NetRefund(g, b, a).Some? { RefundAmountIsStable(b, b', a, g.bids[a].amount); }
      if HasEntry(b.ledger, Refund, a) { EntriesStay(b, b', Refund, a); }
    }
    forall i | 0 <= i < |d'.calls| ensures CallOk(g', b', d', i) {
      assert CallOk(g, b, d, i);
      if !d.calls[i].key.op.CancelAuthorization? {
        RefundAmountIsStable(b, b', d.calls[i].bid, g.bids[d.calls[i].bid].amount);
      }
    }
  }

  lemma SettleKeepsInv(g: Game, b: Books, g': Game, b': Books, d: Desk, d': Desk, id: BidId)
    requires DeskInv(g, b, d) && Settles(g, b, g', b', d, d', id)
    ensures DeskInv(g', b', d')
  {
    SettleKeepsNotices(g, b, g', b', d, d', id);
    SettleKeepsActions(g, b, g', b', d, d', id);
    forall p, q | p in d'.actions && q in d'.actions ensures OneCancel(d', p, q) { assert OneCancel(d, p, q); }
    forall c | c in g'.cases ensures CaseOk(g', d', c) {
      if IsRemoved(g', c) {
        assert IsRemoved(g, c) && CaseOk(g, d, c) && c in g.takeovers;
        assert c in g'.evidence <==> c in g.evidence;
      }
    }
    forall i: BidId ensures RefundBacked(b', d', i) { assert RefundBacked(b, d, i); }
  }

  /** The entry, the bid and the other tables after a refund. */
  lemma RefundTables(inc: nat, g: Game, b: Books, d: Desk, id: BidId)
    requires GameInv(inc, g) && BooksInv(g.bids, b) && DeskInv(g, b, d)
    requires id in d.actions && d.actions[id].op.IssueRefund? && d.actions[id].status.ActionProcessing?
    requires ActionOk(g, b, d, id)
    ensures var g' := g.(bids := g.bids[id := g.bids[id].(status := Refunded)]);
            var b' := RecordRefund(b, id, g.bids[id], d.actions[id].amount.value);
            && BooksInv(g'.bids, b') && Grows(b, b') && HasEntry(b'.ledger, Refund, id)
            && RespectsDesk(g, b, g', b', {id})
            && RefundAmount(b', id, g.bids[id].amount) == d.actions[id].amount
            && id in b'.captures && b'.captures[id].fee.Some? && id in b.captures && b.captures[id] == b'.captures[id]
  {
    var amount := d.actions[id].amount.value;
    RecordRefundKeepsInv(g.bids, b, id, amount);
    var g' := g.(bids := g.bids[id := g.bids[id].(status := Refunded)]);
    var b' := RecordRefund(b, id, g.bids[id], amount);
    BooksIgnoreGame(g.bids, g'.bids, b');
    assert b'.ledger[|b.ledger|].kind == Refund;
    RefundAmountIsStable(b, b', id, g.bids[id].amount);
    forall o | HasEntry(b'.ledger, Refund, o) ensures HasEntry(b.ledger, Refund, o) || o in {id} {
      if o != id { NoNewEntry(b.ledger, b'.ledger[|b.ledger|], Refund, o); }
    }
    assert StatusOk(g, id);
  }

  /** What the second transaction of a successful refund writes. */
  lemma EndRefundWrites(inc: nat, g: Game, b: Books, d: Desk, id: BidId, reference: string, now: Time)
    requires GameInv(inc, g) && DeskInv(g, b, d)
    requires id in d.actions && d.actions[id].op.IssueRefund? && d.actions[id].status.ActionProcessing?
    ensures ActionOk(g, b, d, id) && id in g.takeovers
    ensures var a := d.actions[id];
            var r := EndAction(g, b, d, id, Some(reference), now);
            && r.Commit?
            && r.value.0 == g.(bids := g.bids[id := g.bids[id].(status := Refunded)])
            && r.value.1 == RecordRefund(b, id, g.bids[id], a.amount.value)
            && r.value.2 ==
               d.(actions := d.actions[id := a.(status := ActionSucceeded, reference := Some(reference), completedAt := Some(now))],
                  notices :=
                    if id !in d.notices then d.notices
                    else d.notices[id := d.notices[id].(
                      context := RemovalContext(g, id, Some(Figures(g.bids[id].amount, b.captures[id].fee.value, a.amount.value)), now),
                      waiting := false, availableAt := now)])
  {
    assert ActionOk(g, b, d, id) && CaseOk(g, d, id) && TakeoverLinked(g, id);
    if id in d.notices { assert NoticeOk(g, b, d, id); }
  }

  /** A successful refund writes its one entry, marks the bid, and completes the notice, in one transaction. */
  lemma RefundKeepsDesk(inc: nat, g: Game, b: Books, d: Desk, id: BidId, reference: string, now: Time)
    requires GameInv(inc, g) && BooksInv(g.bids, b) && DeskInv(g, b, d)
    requires id in d.actions && d.actions[id].op.IssueRefund? && d.actions[id].status.ActionProcessing?
    ensures ActionOk(g, b, d, id)
    ensures var r := EndAction(g, b, d, id, Some(reference), now);
            r.Commit? && DeskInv(r.value.0, r.value.1, r.value.2) && BooksInv(r.value.0.bids, r.value.1) && Grows(b, r.value.1)
  {
    EndRefundWrites(inc, g, b, d, id, reference, now);
    if id in d.notices { assert NoticeOk(g, b, d, id); }
    RefundTables(inc, g, b, d, id);
    var r := EndAction(g, b, d, id, Some(reference), now);
    assert Settles(g, b, r.value.0, r.value.1, d, r.value.2, id);
    SettleKeepsInv(g, b, r.value.0, r.value.1, d, r.value.2, id);
  }

  lemma EndKeepsDesk(inc: nat, g: Game, b: Books, d: Desk, id: BidId, reply: Option<string>, now: Time)
    requires GameInv(inc, g) && BooksInv(g.bids, b) && DeskInv(g, b, d) && id in d.actions
    ensures ActionOk(g, b, d, id)
    ensures var r := EndAction(g, b, d, id, reply, now);
            && r.Commit?
            && DeskInv(r.value.0, r.value.1, r.value.2) && BooksInv(r.value.0.bids, r.value.1) && Grows(b, r.value.1)
            && GameInv(inc, r.value.0)
  {
    assert ActionOk(g, b, d, id);
    var a := d.actions[id];
    if a.status.ActionProcessing? && reply.Some? && a.op.IssueRefund? {
      EndRefundWrites(inc, g, b, d, id, reply.value, now);
      RefundKeepsDesk(inc, g, b, d, id, reply.value, now);
      assert StatusOk(g, id);
      TweakKeepsInv(inc, g, id, g.bids[id].(status := Refunded));
    } else if a.status.ActionProcessing? {
      if id in d.notices { assert NoticeOk(g, b, d, id); }
      AdvanceKeepsInv(g, b, d, EndAction(g, b, d, id, reply, now).value.2, id);
    }
  }

  // ----- delivery -----

  /** Claims and late answers, in any order and from any number of workers, keep the desk in order. */
  lemma ClaimKeepsDesk(g: Game, b: Books, d: Desk, c: BidId, mail: MailSettings, now: Time)
    requires DeskInv(g, b, d) && c in d.notices
    ensures DeskInv(g, b, ClaimNotice(d, c, mail, now))
  {
    var d' := ClaimNotice(d, c, mail, now);
    if d' != d {
      forall a | a in d'.actions ensures ActionOk(g, b, d', a) { assert ActionOk(g, b, d, a); }
      forall p, q | p in d'.actions && q in d'.actions ensures OneCancel(d', p, q) { assert OneCancel(d, p, q); }
      forall k | k in g.cases ensures CaseOk(g, d', k) { assert CaseOk(g, d, k); }
      forall k | k in d'.notices ensures NoticeOk(g, b, d', k) {
        assert NoticeOk(g, b, d, k);
        ClaimsAfterAppend(d.sends, d'.sends[|d.sends|], k);
      }
      forall i | 0 <= i < |d'.sends| ensures SendOk(d', i) {
        if i < |d.sends| { assert SendOk(d, i); }
      }
      forall i | 0 <= i < |d'.calls| ensures CallOk(g, b, d', i) { assert CallOk(g, b, d, i); }
      forall id: BidId ensures RefundBacked(b, d', id) { assert RefundBacked(b, d, id); }
    }
  }

  lemma FinishKeepsDesk(g: Game, b: Books, d: Desk, claim: nat, mail: MailSettings, answer: Delivery, now: Time)
    requires DeskInv(g, b, d) && claim < |d.sends|
    ensures d.sends[claim].eventKey in d.notices
    ensures DeskInv(g, b, FinishNotice(d, claim, mail, answer, now))
  {
    assert SendOk(d, claim);
    var d' := FinishNotice(d, claim, mail, answer, now);
    forall a | a in d'.actions ensures ActionOk(g, b, d', a) { assert ActionOk(g, b, d, a); }
    forall p, q | p in d'.actions && q in d'.actions ensures OneCancel(d', p, q) { assert OneCancel(d, p, q); }
    forall k | k in g.cases ensures CaseOk(g, d', k) { assert CaseOk(g, d, k); }
    forall k | k in d'.notices ensures NoticeOk(g, b, d', k) { assert NoticeOk(g, b, d, k); }
    forall i | 0 <= i < |d'.sends| ensures SendOk(d', i) { assert SendOk(d, i); }
    forall i | 0 <= i < |d'.calls| ensures CallOk(g, b, d', i) { assert CallOk(g, b, d, i); }
    forall id: BidId ensures RefundBacked(b, d', id) { assert RefundBacked(b, d, id); }
  }
}
