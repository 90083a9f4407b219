// How removed cases, payment actions, refund entries and notices agree in every interleaving.
module DeskInvariant {
  import opened Base
  import opened Rows
  import opened Takeovers
  import opened GameInvariant
  import opened Books
  import opened BooksInvariant
  import opened BooksSteps
  import opened Desk

  function NetRefund(g: Game, b: Books, id: BidId): Option<int>
    requires id in g.bids
  {
    RefundAmount(b, id, g.bids[id].amount)
  }

  /**
   A cancellation targets a bid that was dropped; a refund targets the removed takeover itself, and
   its status, amount, bid status and ledger entry move together.
   */
  ghost predicate ActionOk(g: Game, b: Books, d: Desk, id: BidId)
    requires id in d.actions
  {
    var a := d.actions[id];
    && id in g.bids && a.caseOf in g.cases && IsRemoved(g, a.caseOf)
    && (a.op.CancelAuthorization? ==> g.bids[id].status.AuthCanceled?)
    && (a.op.IssueRefund? ==>
          && a.caseOf == id
          && (a.status.ActionSucceeded? <==> HasEntry(b.ledger, Refund, id))
          && (a.status.ActionProcessing? || a.status.ActionSucceeded? ==>
                && a.amount.Some? && a.amount.value > 0
                && NetRefund(g, b, id) == Some(a.amount.value)))
  }

  /** A case cancels at most one authorization. */
  ghost predicate OneCancel(d: Desk, p: BidId, q: BidId)
    requires p in d.actions && q in d.actions
  {
    (d.actions[p].op.CancelAuthorization? && IdempotencyKey(d.actions[p]) == IdempotencyKey(d.actions[q])) ==> p == q
  }

  /** A removed case has its refund action, and its notice unless nobody can be written to. */
  ghost predicate CaseOk(g: Game, d: Desk, c: BidId)
    requires c in g.cases
  {
    IsRemoved(g, c) ==>
      && c in d.actions && d.actions[c].op.IssueRefund? && d.actions[c].caseOf == c
      && c in g.bids && g.bids[c].bidder in g.contacts
      && (Recipient(g, c).wellFormed <==> c in d.notices)
  }

  /**
   A notice waits exactly while its refund is unsettled, is untouched by then, and carries figures
   exactly when the refund succeeded.
   */
  ghost predicate NoticeOk(g: Game, b: Books, d: Desk, c: BidId)
    requires c in d.notices
  {
    var n := d.notices[c];
    && c in g.cases && IsRemoved(g, c) && c in d.actions && c in g.bids && g.bids[c].bidder in g.contacts
    && n.recipient == Recipient(g, c).address
    && (n.waiting <==> Unsettled(d.actions[c]))
    && (n.waiting ==> n.status.NoticePending? && n.attempts == 0)
    && n.attempts == Claims(d.sends, c)
    && (n.context.figures.Some? <==> d.actions[c].status.ActionSucceeded?)
    && (n.context.figures.Some? ==>
          && c in b.captures && b.captures[c].fee.Some? && d.actions[c].amount.Some?
          && n.context.figures.value == Figures(g.bids[c].amount, b.captures[c].fee.value, d.actions[c].amount.value))
  }

  /** Every message handed to the mail provider is the one its notice still carries. */
  ghost predicate SendOk(d: Desk, i: nat)
    requires i < |d.sends|
  {
    var s := d.sends[i];
    && s.eventKey in d.notices
    && !d.notices[s.eventKey].waiting
    && s == Send(s.eventKey, d.notices[s.eventKey].recipient, d.notices[s.eventKey].context)
  }

  /** Every refund request asks for the net amount, under the key of the one action behind it. */
  ghost predicate CallOk(g: Game, b: Books, d: Desk, i: nat)
    requires i < |d.calls|
  {
    var c := d.calls[i];
    && c.bid in d.actions && c.key == IdempotencyKey(d.actions[c.bid])
    && (if c.key.op.CancelAuthorization? then c.amount.None?
        else c.bid in g.bids && c.amount.Some? && NetRefund(g, b, c.bid) == Some(c.amount.value))
  }

  function Claims(sends: seq<Send>, c: BidId): nat
    decreases |sends|
  {
    if sends == [] then 0
    else Claims(sends[..|sends| - 1], c) + if sends[|sends| - 1].eventKey == c then 1 else 0
  }

  /** A refund entry is written only by a refund action. */
  ghost predicate RefundBacked(b: Books, d: Desk, id: BidId) {
    HasEntry(b.ledger, Refund, id) ==> id in d.actions && d.actions[id].op.IssueRefund?
  }

  ghost predicate DeskInv(g: Game, b: Books, d: Desk) {
    && (forall a {:trigger ActionOk(g, b, d, a)} | a in d.actions :: ActionOk(g, b, d, a))
    && (forall p, q {:trigger OneCancel(d, p, q)} | p in d.actions && q in d.actions :: OneCancel(d, p, q))
    && (forall c {:trigger CaseOk(g, d, c)} | c in g.cases :: CaseOk(g, d, c))
    && (forall c {:trigger NoticeOk(g, b, d, c)} | c in d.notices :: NoticeOk(g, b, d, c))
    && (forall i {:trigger SendOk(d, i)} | 0 <= i < |d.sends| :: SendOk(d, i))
    && (forall i {:trigger CallOk(g, b, d, i)} | 0 <= i < |d.calls| :: CallOk(g, b, d, i))
    && (forall id: BidId {:trigger RefundBacked(b, d, id)} :: RefundBacked(b, d, id))
  }

  // ----- what the invariant says about provider requests -----

  /** Two payment actions never share an idempotency key. */
  lemma KeysAreDistinct(g: Game, b: Books, d: Desk, p: BidId, q: BidId)
    requires DeskInv(g, b, d) && p in d.actions && q in d.actions && p != q
    ensures IdempotencyKey(d.actions[p]) != IdempotencyKey(d.actions[q])
  {
    assert ActionOk(g, b, d, p) && ActionOk(g, b, d, q) && OneCancel(d, p, q);
  }

  /** Requests that share a key concern one bid and ask for one amount. */
  lemma RetriesAgree(g: Game, b: Books, d: Desk, i: nat, j: nat)
    requires DeskInv(g, b, d) && i < |d.calls| && j < |d.calls| && d.calls[i].key == d.calls[j].key
    ensures d.calls[i] == d.calls[j]
  {
    assert CallOk(g, b, d, i) && CallOk(g, b, d, j);
    if d.calls[i].bid != d.calls[j].bid {
      KeysAreDistinct(g, b, d, d.calls[i].bid, d.calls[j].bid);
    }
  }

  /** Every send under one event key has the same recipient and content. */
  lemma SendsAgree(g: Game, b: Books, d: Desk, i: nat, j: nat)
    requires DeskInv(g, b, d) && i < |d.sends| && j < |d.sends| && d.sends[i].eventKey == d.sends[j].eventKey
    ensures d.sends[i] == d.sends[j]
  {
    assert SendOk(d, i) && SendOk(d, j);
  }

  // ----- transactions that leave the desk alone -----

  /** What a change of the other tables must respect; only the bids in `refunded` may gain a refund entry. */
  ghost predicate RespectsDesk(g: Game, b: Books, g': Game, b': Books, refunded: set<BidId>) {
    && g.bids.Keys <= g'.bids.Keys && g.takeovers.Keys <= g'.takeovers.Keys
    && g'.contacts == g.contacts
    && (forall p {:trigger g'.bids[p]} | p in g.bids ::
          SameBid(g'.bids[p], g.bids[p]) && (g.bids[p].status.AuthCanceled? ==> g'.bids[p].status.AuthCanceled?))
    && (forall c {:trigger IsRemoved(g', c)} :: IsRemoved(g', c) <==> IsRemoved(g, c))
    && g.cases.Keys <= g'.cases.Keys
    && (forall p {:trigger p in g'.evidence} | p in g.takeovers ::
          (p in g'.evidence <==> p in g.evidence) && (p in g.evidence ==> g'.evidence[p].email == g.evidence[p].email))
    && Grows(b, b')
    && (forall id {:trigger HasEntry(b'.ledger, Refund, id)} :: HasEntry(b'.ledger, Refund, id) ==> HasEntry(b.ledger, Refund, id) || id in refunded)
  }

  lemma RefundAmountIsStable(b: Books, b': Books, id: BidId, amount: nat)
    requires Grows(b, b') && RefundAmount(b, id, amount).Some?
    ensures RefundAmount(b', id, amount) == RefundAmount(b, id, amount)
  {
    assert Extends(b.captures[id], b'.captures[id]);
  }

  lemma DeskFrame(g: Game, b: Books, d: Desk, g': Game, b': Books)
    requires DeskInv(g, b, d) && RespectsDesk(g, b, g', b', {}) && g.cases.Keys <= g.takeovers.Keys
    ensures DeskInv(g', b', d)
  {
    forall a | a in d.actions ensures ActionOk(g', b', d, a) {
      assert ActionOk(g, b, d, a);
      if NetRefund(g, b, a).Some? { RefundAmountIsStable(b, b', a, g.bids[a].amount); }
      if HasEntry(b.ledger, Refund, a) { EntriesStay(b, b', Refund, a); }
    }
    forall c | c in g'.cases ensures CaseOk(g', d, c) {
      if IsRemoved(g', c) {
        assert IsRemoved(g, c);
        assert CaseOk(g, d, c);
        assert c in g.takeovers;
        assert c in g'.evidence <==> c in g.evidence;
      }
    }
    forall c | c in d.notices ensures NoticeOk(g', b', d, c) {
      assert NoticeOk(g, b, d, c);
      if c in b.captures { assert Extends(b.captures[c], b'.captures[c]); }
      if d.actions[c].status.ActionSucceeded? { assert ActionOk(g, b, d, c); }
    }
    forall i | 0 <= i < |d.calls| ensures CallOk(g', b', d, i) {
      assert CallOk(g, b, d, i);
      if !d.calls[i].key.op.CancelAuthorization? {
        RefundAmountIsStable(b, b', d.calls[i].bid, g.bids[d.calls[i].bid].amount);
      }
    }
    forall id: BidId ensures RefundBacked(b', d, id) { assert RefundBacked(b, d, id); }
  }
}
