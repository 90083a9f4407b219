// Account counters, counted independently of the ledger: over capture snapshots and over refund actions.
module Totals {
  import opened Base
  import opened Rows
  import opened Books
  import opened BooksInvariant
  import opened Desk
  import opened DeskInvariant

  ghost predicate NoRepeats(ledger: seq<Entry>) {
    forall i, j | 0 <= i < j < |ledger| :: ledger[i].kind != ledger[j].kind || ledger[i].bid != ledger[j].bid
  }

  /** The bids for which a user has an entry of one kind. */
  function EntryBids(ledger: seq<Entry>, kind: EntryKind, user: UserId): set<BidId> {
    set i | 0 <= i < |ledger| && ledger[i].kind == kind && ledger[i].user == user :: ledger[i].bid
  }

  lemma EntryBidsStep(ledger: seq<Entry>, kind: EntryKind, user: UserId)
    requires |ledger| > 0 && NoRepeats(ledger)
    ensures var last := |ledger| - 1;
            var e := ledger[last];
            && NoRepeats(ledger[..last])
            && (if e.kind == kind && e.user == user
                then EntryBids(ledger, kind, user) == EntryBids(ledger[..last], kind, user) + {e.bid}
                     && e.bid !in EntryBids(ledger[..last], kind, user)
                else EntryBids(ledger, kind, user) == EntryBids(ledger[..last], kind, user))
  {
    var last := |ledger| - 1;
    forall p ensures p in EntryBids(ledger, kind, user) <==>
                       p in EntryBids(ledger[..last], kind, user) || (ledger[last].kind == kind && ledger[last].user == user && p == ledger[last].bid) {
      if p in EntryBids(ledger, kind, user) {
        var i :| 0 <= i < |ledger| && ledger[i].kind == kind && ledger[i].user == user && ledger[i].bid == p;
        assert i < last ==> ledger[..last][i] == ledger[i];
      }
      if p in EntryBids(ledger[..last], kind, user) {
        var i :| 0 <= i < last && ledger[..last][i].kind == kind && ledger[..last][i].user == user && ledger[..last][i].bid == p;
        assert ledger[i].bid == p;
      }
    }
  }

  lemma {:induction false} TallyCountsBids(ledger: seq<Entry>, kind: EntryKind, user: UserId)
    requires NoRepeats(ledger)
    ensures Tally(ledger, kind, user) == |EntryBids(ledger, kind, user)|
    decreases |ledger|
  {
    if ledger != [] {
      EntryBidsStep(ledger, kind, user);
      TallyCountsBids(ledger[..|ledger| - 1], kind, user);
    }
  }

  /** What a set of bids was worth. */
  ghost function Worth(bids: map<BidId, Bid>, ids: set<BidId>): nat
    requires ids <= bids.Keys
  {
    if ids == {} then 0
    else
      var x :| x in ids;
      bids[x].amount + Worth(bids, ids - {x})
  }

  lemma {:induction false} WorthPlusOne(bids: map<BidId, Bid>, ids: set<BidId>, x: BidId)
    requires ids <= bids.Keys && x in bids && x !in ids
    ensures Worth(bids, ids + {x}) == Worth(bids, ids) + bids[x].amount
    decreases |ids|
  {
    var all := ids + {x};
    var y :| y in all && Worth(bids, all) == bids[y].amount + Worth(bids, all - {y});
    if y == x {
      assert all - {x} == ids;
    } else {
      assert all - {y} == (ids - {y}) + {x};
      WorthPlusOne(bids, ids - {y}, x);
      assert (ids - {y}) + {y} == ids;
      WorthPlusOne(bids, ids - {y}, y);
    }
  }

  lemma {:induction false} SpendIsWorth(bids: map<BidId, Bid>, ledger: seq<Entry>, user: UserId)
    requires NoRepeats(ledger)
    requires forall i | 0 <= i < |ledger| && ledger[i].kind == BidCapture :: ledger[i].bid in bids && ledger[i].amount == bids[ledger[i].bid].amount
    ensures EntryBids(ledger, BidCapture, user) <= bids.Keys
    ensures Spend(ledger, user) == Worth(bids, EntryBids(ledger, BidCapture, user))
    decreases |ledger|
  {
    if ledger != [] {
      var last := |ledger| - 1;
      EntryBidsStep(ledger, BidCapture, user);
      SpendIsWorth(bids, ledger[..last], user);
      if ledger[last].kind == BidCapture && ledger[last].user == user {
        WorthPlusOne(bids, EntryBids(ledger[..last], BidCapture, user), ledger[last].bid);
      }
    }
  }

  lemma LedgerHasNoRepeats(bids: map<BidId, Bid>, b: Books)
    requires BooksInv(bids, b)
    ensures NoRepeats(b.ledger)
  {
    forall i, j | 0 <= i < j < |b.ledger| ensures b.ledger[i].kind != b.ledger[j].kind || b.ledger[i].bid != b.ledger[j].bid {
      assert Single(b, i, j);
    }
  }

  /** The captured bids of a user. */
  function CapturedBids(bids: map<BidId, Bid>, b: Books, user: UserId): set<BidId> {
    set id | id in b.captures && id in bids && bids[id].bidder == user
  }

  lemma EntriesAreCaptures(bids: map<BidId, Bid>, b: Books, user: UserId)
    requires BooksInv(bids, b)
    ensures EntryBids(b.ledger, BidCapture, user) == CapturedBids(bids, b, user)
  {
    forall p ensures p in EntryBids(b.ledger, BidCapture, user) <==> p in CapturedBids(bids, b, user) {
      if p in EntryBids(b.ledger, BidCapture, user) {
        var i :| 0 <= i < |b.ledger| && b.ledger[i].kind == BidCapture && b.ledger[i].user == user && b.ledger[i].bid == p;
        assert EntryOk(bids, b, i);
      }
      if p in CapturedBids(bids, b, user) {
        assert CaptureOk(bids, b, p);
        var i :| 0 <= i < |b.ledger| && b.ledger[i].kind == BidCapture && b.ledger[i].bid == p;
        assert EntryOk(bids, b, i);
      }
    }
  }

  /** An account counts exactly its captured bids, and has spent exactly what they were worth. */
  lemma CountersMatchCaptures(bids: map<BidId, Bid>, b: Books, user: UserId)
    requires BooksInv(bids, b) && user in b.accounts
    ensures CapturedBids(bids, b, user) <= bids.Keys
    ensures b.accounts[user].successes == |CapturedBids(bids, b, user)|
    ensures b.accounts[user].spend == Worth(bids, CapturedBids(bids, b, user))
  {
    assert AccountOk(b, user);
    LedgerHasNoRepeats(bids, b);
    EntriesAreCaptures(bids, b, user);
    TallyCountsBids(b.ledger, BidCapture, user);
    forall i | 0 <= i < |b.ledger| && b.ledger[i].kind == BidCapture
      ensures b.ledger[i].bid in bids && b.ledger[i].amount == bids[b.ledger[i].bid].amount
    {
      assert EntryOk(bids, b, i);
    }
    SpendIsWorth(bids, b.ledger, user);
  }

  /** The refunds of a user that succeeded. */
  function RefundedBids(bids: map<BidId, Bid>, d: Desk, user: UserId): set<BidId> {
    set id | id in d.actions && id in bids && bids[id].bidder == user
             && d.actions[id].op.IssueRefund? && d.actions[id].status.ActionSucceeded?
  }

  /** An account counts exactly the refund actions that succeeded. */
  lemma RefundsMatchActions(g: Game, b: Books, d: Desk, user: UserId)
    requires BooksInv(g.bids, b) && DeskInv(g, b, d) && user in b.accounts
    ensures b.accounts[user].refunds == |RefundedBids(g.bids, d, user)|
  {
    assert AccountOk(b, user);
    LedgerHasNoRepeats(g.bids, b);
    TallyCountsBids(b.ledger, Refund, user);
    forall p ensures p in EntryBids(b.ledger, Refund, user) <==> p in RefundedBids(g.bids, d, user) {
      if p in EntryBids(b.ledger, Refund, user) {
        var i :| 0 <= i < |b.ledger| && b.ledger[i].kind == Refund && b.ledger[i].user == user && b.ledger[i].bid == p;
        assert EntryOk(g.bids, b, i) && HasEntry(b.ledger, Refund, p) && RefundBacked(b, d, p) && ActionOk(g, b, d, p);
      }
      if p in RefundedBids(g.bids, d, user) {
        assert ActionOk(g, b, d, p);
        var i :| 0 <= i < |b.ledger| && b.ledger[i].kind == Refund && b.ledger[i].bid == p;
        assert EntryOk(g.bids, b, i);
      }
    }
    assert EntryBids(b.ledger, Refund, user) == RefundedBids(g.bids, d, user);
  }
}
