// Every accounting transaction keeps the books in order and only ever adds to them.
module BooksSteps {
  import opened Base
  import opened Rows
  import opened Books
  import opened BooksInvariant

  /** Nothing recorded is lost or rewritten. */
  ghost predicate Grows(b: Books, b': Books) {
    && b.ledger <= b'.ledger
    && b.collected <= b'.collected && b.requests <= b'.requests
    && b.accounts.Keys == b'.accounts.Keys
    && b.captures.Keys <= b'.captures.Keys
    && forall id {:trigger b'.captures[id]} | id in b.captures :: Extends(b.captures[id], b'.captures[id])
  }

  lemma GrowsTransitive(a: Books, b: Books, c: Books)
    requires Grows(a, b) && Grows(b, c)
    ensures Grows(a, c)
  {
    forall id | id in a.captures ensures Extends(a.captures[id], c.captures[id]) {
      assert Extends(a.captures[id], b.captures[id]);
    }
  }

  lemma EntriesStay(b: Books, b': Books, kind: EntryKind, bid: BidId)
    requires b.ledger <= b'.ledger && HasEntry(b.ledger, kind, bid)
    ensures HasEntry(b'.ledger, kind, bid)
  {
    var i :| 0 <= i < |b.ledger| && b.ledger[i].kind == kind && b.ledger[i].bid == bid;
    assert b'.ledger[i] == b.ledger[i];
  }

  lemma NoNewEntry(ledger: seq<Entry>, e: Entry, kind: EntryKind, bid: BidId)
    requires e.kind != kind || e.bid != bid
    ensures HasEntry(ledger + [e], kind, bid) <==> HasEntry(ledger, kind, bid)
  {
    if HasEntry(ledger, kind, bid) {
      var i :| 0 <= i < |ledger| && ledger[i].kind == kind && ledger[i].bid == bid;
      assert (ledger + [e])[i] == ledger[i];
    }
  }

  /** Nothing was refunded. */
  ghost predicate RefundsNothing(b: Books, b': Books) {
    forall id: BidId {:trigger HasEntry(b'.ledger, Refund, id)} :: HasEntry(b'.ledger, Refund, id) ==> HasEntry(b.ledger, Refund, id)
  }

  /** Only `RecordRefund` writes refund entries. */
  lemma OtherEntriesRefundNothing(b: Books, b': Books, e: Entry)
    requires e.kind != Refund && (b'.ledger == b.ledger || b'.ledger == b.ledger + [e])
    ensures RefundsNothing(b, b')
  {
    forall id: BidId | HasEntry(b'.ledger, Refund, id) ensures HasEntry(b.ledger, Refund, id) {
      NoNewEntry(b.ledger, e, Refund, id);
    }
  }

  // ----- appending one entry -----

  /** What appending `e` needs: it is the first of its kind for its bid and says the right thing. */
  ghost predicate MayAppend(bids: map<BidId, Bid>, b: Books, e: Entry) {
    && !HasEntry(b.ledger, e.kind, e.bid)
    && e.bid in bids && e.user == bids[e.bid].bidder && e.entity == bids[e.bid].entity
    && (e.kind == BidCapture ==> e.bid in b.captures && e.amount == bids[e.bid].amount)
    && (e.kind == Refund ==> e.bid in b.captures && RefundAmount(b, e.bid, bids[e.bid].amount) == Some(-e.amount))
  }

  lemma AppendKeepsEntries(bids: map<BidId, Bid>, b: Books, e: Entry)
    requires forall i {:trigger EntryOk(bids, b, i)} | 0 <= i < |b.ledger| :: EntryOk(bids, b, i)
    requires forall i, j {:trigger Single(b, i, j)} | 0 <= i < |b.ledger| && 0 <= j < |b.ledger| :: Single(b, i, j)
    requires MayAppend(bids, b, e)
    ensures var b' := b.(ledger := b.ledger + [e]);
            && (forall i {:trigger EntryOk(bids, b', i)} | 0 <= i < |b'.ledger| :: EntryOk(bids, b', i))
            && (forall i, j {:trigger Single(b', i, j)} | 0 <= i < |b'.ledger| && 0 <= j < |b'.ledger| :: Single(b', i, j))
  {
    var b' := b.(ledger := b.ledger + [e]);
    forall i | 0 <= i < |b'.ledger| ensures EntryOk(bids, b', i) {
      if i < |b.ledger| { assert EntryOk(bids, b, i) && b'.ledger[i] == b.ledger[i]; }
    }
    forall i, j | 0 <= i < |b'.ledger| && 0 <= j < |b'.ledger| ensures Single(b', i, j) {
      if i < |b.ledger| && j < |b.ledger| {
        assert Single(b, i, j);
      } else if i < |b.ledger| {
        assert b'.ledger[i] == b.ledger[i];
      } else if j < |b.ledger| {
        assert b'.ledger[j] == b.ledger[j];
      }
    }
  }

  /** The counters of the account that the entry belongs to, after the entry. */
  function Counted(b: Books, e: Entry): map<UserId, Account> {
    if e.user !in b.accounts then b.accounts
    else
      var a := b.accounts[e.user];
      b.accounts[e.user :=
        if e.kind == BidCapture then a.(successes := a.successes + 1, spend := a.spend + e.amount)
        else if e.kind == Refund then a.(refunds := a.refunds + 1)
        else a]
  }

  ghost predicate SumsOk(b: Books) {
    && (forall u {:trigger AccountOk(b, u)} | u in b.accounts :: AccountOk(b, u))
    && (forall bid: BidId {:trigger KeptOk(b, bid)} :: KeptOk(b, bid))
  }

  /** A refund entry brings the balance of its bid down to the fee. */
  lemma RefundKeepsSums(bids: map<BidId, Bid>, b: Books, e: Entry)
    requires BooksInv(bids, b) && MayAppend(bids, b, e) && e.kind != BidCapture
    ensures SumsOk(b.(ledger := b.ledger + [e], accounts := Counted(b, e)))
  {
    var b' := b.(ledger := b.ledger + [e], accounts := Counted(b, e));
    forall u | u in b'.accounts ensures AccountOk(b', u) {
      assert AccountOk(b, u);
      SumsAfterAppend(b.ledger, e, u, e.bid);
    }
    forall bid: BidId ensures KeptOk(b', bid) {
      assert KeptOk(b, bid);
      SumsAfterAppend(b.ledger, e, e.user, bid);
      if e.kind == Refund && e.bid == bid {
        assert CaptureOk(bids, b, bid);
        assert b'.ledger[|b.ledger|] == e;
      } else {
        NoNewEntry(b.ledger, e, Refund, bid);
      }
    }
  }

  lemma AppendKeepsInv(bids: map<BidId, Bid>, b: Books, e: Entry)
    requires BooksInv(bids, b) && MayAppend(bids, b, e) && e.kind != BidCapture
    ensures var b' := b.(ledger := b.ledger + [e], accounts := Counted(b, e)); BooksInv(bids, b') && Grows(b, b')
  {
    var b' := b.(ledger := b.ledger + [e], accounts := Counted(b, e));
    forall id | id in b'.captures ensures CaptureOk(bids, b', id) {
      assert CaptureOk(bids, b, id);
      EntriesStay(b, b', BidCapture, id);
    }
    AppendKeepsEntries(bids, b, e);
    forall i | 0 <= i < |b'.ledger| ensures EntryOk(bids, b', i) { assert EntryOk(bids, b.(ledger := b'.ledger), i); }
    forall i, j | 0 <= i < |b'.ledger| && 0 <= j < |b'.ledger| ensures Single(b', i, j) { assert Single(b.(ledger := b'.ledger), i, j); }
    RefundKeepsSums(bids, b, e);
  }

  // ----- recording a capture -----

  lemma NoEntryWithoutCapture(bids: map<BidId, Bid>, b: Books, id: BidId, kind: EntryKind)
    requires BooksInv(bids, b) && id !in b.captures && (kind == BidCapture || kind == Refund)
    ensures !HasEntry(b.ledger, kind, id)
  {
    forall i | 0 <= i < |b.ledger| ensures b.ledger[i].kind != kind || b.ledger[i].bid != id {
      assert EntryOk(bids, b, i);
    }
  }

  /** The first record of a captured payment always commits and adds one entry and one count. */
  lemma NewCaptureKeepsInv(bids: map<BidId, Bid>, b: Books, id: BidId, intent: IntentId, currency: string)
    requires BooksInv(bids, b) && id in bids && id !in b.captures
    requires intent.owner == id && intent in b.collected
    ensures var r := NewCapture(b, id, bids[id], intent, currency);
            && r.Commit? && BooksInv(bids, r.value) && Grows(b, r.value)
            && r.value.captures.Keys == b.captures.Keys + {id}
            && r.value.ledger == b.ledger + [Entry(BidCapture, bids[id].amount, bids[id].bidder, bids[id].entity, id)]
            && (forall u {:trigger r.value.accounts[u]} | u in b.accounts ::
                  r.value.accounts[u] == if u != bids[id].bidder then b.accounts[u]
                                         else b.accounts[u].(successes := b.accounts[u].successes + 1, spend := b.accounts[u].spend + bids[id].amount))
  {
    forall o | o in b.captures && o != id ensures b.captures[o].intent != intent { assert CaptureOk(bids, b, o); }
    NoEntryWithoutCapture(bids, b, id, BidCapture);
    NoEntryWithoutCapture(bids, b, id, Refund);
    var b' := NewCapture(b, id, bids[id], intent, currency).value;
    var e := Entry(BidCapture, bids[id].amount, bids[id].bidder, bids[id].entity, id);
    var mid := b.(captures := b'.captures);
    assert b'.ledger == b.ledger + [e] && b'.ledger[|b.ledger|] == e;
    forall o | o in b'.captures ensures CaptureOk(bids, b', o) {
      if o != id {
        assert CaptureOk(bids, b, o);
        EntriesStay(b, b', BidCapture, o);
      }
    }
    forall i | 0 <= i < |mid.ledger| ensures EntryOk(bids, mid, i) { assert EntryOk(bids, b, i); }
    forall i, j | 0 <= i < |mid.ledger| && 0 <= j < |mid.ledger| ensures Single(mid, i, j) { assert Single(b, i, j); }
    AppendKeepsEntries(bids, mid, e);
    forall i | 0 <= i < |b'.ledger| ensures EntryOk(bids, b', i) { assert EntryOk(bids, mid.(ledger := b'.ledger), i); }
    forall i, j | 0 <= i < |b'.ledger| && 0 <= j < |b'.ledger| ensures Single(b', i, j) { assert Single(mid.(ledger := b'.ledger), i, j); }
    NewCaptureKeepsSums(bids, b, id, intent, currency);
  }

  lemma NewCaptureKeepsSums(bids: map<BidId, Bid>, b: Books, id: BidId, intent: IntentId, currency: string)
    requires BooksInv(bids, b) && id in bids && id !in b.captures
    requires NewCapture(b, id, bids[id], intent, currency).Commit?
    ensures SumsOk(NewCapture(b, id, bids[id], intent, currency).value)
  {
    NoEntryWithoutCapture(bids, b, id, BidCapture);
    NoEntryWithoutCapture(bids, b, id, Refund);
    var b' := NewCapture(b, id, bids[id], intent, currency).value;
    var e := Entry(BidCapture, bids[id].amount, bids[id].bidder, bids[id].entity, id);
    forall u | u in b'.accounts ensures AccountOk(b', u) {
      assert AccountOk(b, u);
      SumsAfterAppend(b.ledger, e, u, e.bid);
    }
    forall bid: BidId ensures KeptOk(b', bid) {
      assert KeptOk(b, bid);
      SumsAfterAppend(b.ledger, e, e.user, bid);
      NoNewEntry(b.ledger, e, Refund, bid);
    }
  }

  lemma SaveChargeKeepsInv(bids: map<BidId, Bid>, b: Books, id: BidId, charge: Charge, now: Time)
    requires BooksInv(bids, b) && id in b.captures
    ensures var r := SaveCharge(b, id, charge, now);
            r.Commit? ==> BooksInv(bids, r.value.0) && Grows(b, r.value.0) && r.value.0.ledger == b.ledger
  {
    assert CaptureOk(bids, b, id);
    var r := SaveCharge(b, id, charge, now);
    if r.Commit? {
      SnapshotKeepsInv(bids, b, id, r.value.0.captures[id]);
    }
  }

  /** Recording is safe under any repetition: it keeps the books in order and only adds to them. */
  lemma RecordKeepsInv(bids: map<BidId, Bid>, b: Books, id: BidId, pi: PaymentIntent, now: Time)
    requires BooksInv(bids, b) && id in bids
    requires pi.succeeded && pi.id.Some? ==> pi.id.value.owner == id && pi.id.value in b.collected
    ensures var r := RecordCapture(b, id, bids[id], pi, now);
            r.Commit? ==>
              && BooksInv(bids, r.value.0) && Grows(b, r.value.0) && RefundsNothing(b, r.value.0)
              && (r.value.1 ==> id in r.value.0.captures)
              && (!r.value.1 ==> r.value.0 == b)
  {
    if Recordable(b, id, bids[id], pi) {
      if id in b.captures {
        SaveChargeKeepsInv(bids, b, id, pi.charge, now);
      } else {
        NewCaptureKeepsInv(bids, b, id, pi.id.value, pi.currency);
        var b1 := NewCapture(b, id, bids[id], pi.id.value, pi.currency).value;
        SaveChargeKeepsInv(bids, b1, id, pi.charge, now);
        var r := SaveCharge(b1, id, pi.charge, now);
        if r.Commit? { GrowsTransitive(b, b1, r.value.0); }
        OtherEntriesRefundNothing(b, b1, Entry(BidCapture, bids[id].amount, bids[id].bidder, bids[id].entity, id));
      }
    }
  }

  /** A charge update touches the one snapshot of its intent, and says exactly when it has completed it. */
  lemma UpdateKeepsInv(bids: map<BidId, Bid>, b: Books, intent: Option<IntentId>, charge: Charge, now: Time)
    requires BooksInv(bids, b)
    ensures var r := UpdateFromCharge(b, intent, charge, now);
            r.Commit? ==>
              && BooksInv(bids, r.value.0) && Grows(b, r.value.0) && r.value.0.ledger == b.ledger
              && (forall o {:trigger r.value.0.captures[o]} | o in b.captures && (intent.None? || o != intent.value.owner) ::
                    r.value.0.captures[o] == b.captures[o])
              && (r.value.1 <==>
                    intent.Some? && intent.value.owner in b.captures
                    && !b.captures[intent.value.owner].available && r.value.0.captures[intent.value.owner].available)
  {
    if intent.Some? && intent.value.owner in b.captures {
      SaveChargeKeepsInv(bids, b, intent.value.owner, charge, now);
    }
  }

  lemma ReconcileKeepsInv(bids: map<BidId, Bid>, b: Books, id: BidId, reply: Option<PaymentIntent>, now: Time)
    requires BooksInv(bids, b) && id in b.captures
    ensures var r := ReconcileRow(b, id, reply, now);
            r.Commit? ==> BooksInv(bids, r.value.0) && Grows(b, r.value.0) && r.value.0.ledger == b.ledger
  {
    var c := b.captures[id];
    if !c.available {
      assert CaptureOk(bids, b, id);
      var tried := c.(attempts := c.attempts + 1, attemptedAt := Some(now));
      SnapshotKeepsInv(bids, b, id, tried);
      var b1 := b.(captures := b.captures[id := tried]);
      if reply.Some? && reply.value.succeeded {
        SaveChargeKeepsInv(bids, b1, id, reply.value.charge, now);
        var r := SaveCharge(b1, id, reply.value.charge, now);
        if r.Commit? { GrowsTransitive(b, b1, r.value.0); }
      }
    }
  }

  // ----- refunds and disputes -----

  lemma RecordRefundKeepsInv(bids: map<BidId, Bid>, b: Books, id: BidId, amount: nat)
    requires BooksInv(bids, b) && id in bids && !HasEntry(b.ledger, Refund, id)
    requires RefundAmount(b, id, bids[id].amount) == Some(amount)
    ensures var b' := RecordRefund(b, id, bids[id], amount);
            && BooksInv(bids, b') && Grows(b, b')
            && b'.ledger == b.ledger + [Entry(Refund, -(amount as int), bids[id].bidder, bids[id].entity, id)]
  {
    var e := Entry(Refund, -(amount as int), bids[id].bidder, bids[id].entity, id);
    AppendKeepsInv(bids, b, e);
    assert RecordRefund(b, id, bids[id], amount) == b.(ledger := b.ledger + [e], accounts := Counted(b, e));
  }

  /** Nothing but the fields of accounts that no entry counts has changed. */
  lemma AccountsKeepBooks(bids: map<BidId, Bid>, b: Books, b': Books)
    requires BooksInv(bids, b) && b' == b.(accounts := b'.accounts) && b'.accounts.Keys == b.accounts.Keys
    requires forall u {:trigger b'.accounts[u]} | u in b.accounts ::
               var a, a' := b.accounts[u], b'.accounts[u];
               a'.spend == a.spend && a'.successes == a.successes && a'.refunds == a.refunds
    ensures BooksInv(bids, b') && Grows(b, b') && RefundsNothing(b, b')
  {
    forall id | id in b'.captures ensures CaptureOk(bids, b', id) { assert CaptureOk(bids, b, id); }
    forall i | 0 <= i < |b'.ledger| ensures EntryOk(bids, b', i) { assert EntryOk(bids, b, i); }
    forall i, j | 0 <= i < |b'.ledger| && 0 <= j < |b'.ledger| ensures Single(b', i, j) { assert Single(b, i, j); }
    forall u | u in b'.accounts ensures AccountOk(b', u) { assert AccountOk(b, u); }
    forall bid: BidId ensures KeptOk(b', bid) { assert KeptOk(b, bid); }
  }

  /** A dispute suspends the account and writes at most one chargeback; sums and counters stay put. */
  lemma RecordDisputeKeepsInv(bids: map<BidId, Bid>, b: Books, id: BidId, amount: int, now: Time)
    requires BooksInv(bids, b) && id in bids
    ensures var b' := RecordDispute(b, id, bids[id], amount, now); BooksInv(bids, b') && Grows(b, b') && RefundsNothing(b, b')
  {
    var e := Entry(Chargeback, -amount, bids[id].bidder, bids[id].entity, id);
    var b1 := b.(ledger := GetOrCreateEntry(b.ledger, e));
    if !HasEntry(b.ledger, Chargeback, id) {
      AppendKeepsInv(bids, b, e);
      assert Counted(b, e) == b.accounts;
    }
    OtherEntriesRefundNothing(b, b1, e);
    var b' := RecordDispute(b, id, bids[id], amount, now);
    AccountsKeepBooks(bids, b1, b');
    GrowsTransitive(b, b1, b');
  }
}
