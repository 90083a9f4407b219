// Every captured bid is recorded once, and entries, counters and snapshots always add up.
module BooksInvariant {
  import opened Base
  import opened Rows
  import opened Books

  // ----- sums over the ledger -----

  function Spend(ledger: seq<Entry>, user: UserId): int
    decreases |ledger|
  {
    if ledger == [] then 0
    else
      var e := ledger[|ledger| - 1];
      Spend(ledger[..|ledger| - 1], user) + if e.kind == BidCapture && e.user == user then e.amount else 0
  }

  function Tally(ledger: seq<Entry>, kind: EntryKind, user: UserId): nat
    decreases |ledger|
  {
    if ledger == [] then 0
    else
      var e := ledger[|ledger| - 1];
      Tally(ledger[..|ledger| - 1], kind, user) + if e.kind == kind && e.user == user then 1 else 0
  }

  /** What has been kept from a bid: its capture entries plus its refund entries. */
  function Kept(ledger: seq<Entry>, bid: BidId): int
    decreases |ledger|
  {
    if ledger == [] then 0
    else
      var e := ledger[|ledger| - 1];
      Kept(ledger[..|ledger| - 1], bid) + if (e.kind == BidCapture || e.kind == Refund) && e.bid == bid then e.amount else 0
  }

  lemma SumsAfterAppend(ledger: seq<Entry>, e: Entry, user: UserId, bid: BidId)
    ensures Spend(ledger + [e], user) == Spend(ledger, user) + if e.kind == BidCapture && e.user == user then e.amount else 0
    ensures Tally(ledger + [e], BidCapture, user) == Tally(ledger, BidCapture, user) + if e.kind == BidCapture && e.user == user then 1 else 0
    ensures Tally(ledger + [e], Refund, user) == Tally(ledger, Refund, user) + if e.kind == Refund && e.user == user then 1 else 0
    ensures Kept(ledger + [e], bid) ==
            Kept(ledger, bid) + if (e.kind == BidCapture || e.kind == Refund) && e.bid == bid then e.amount else 0
  {
    assert (ledger + [e])[..|ledger|] == ledger;
  }

  // ----- the invariant -----

  /** A snapshot repeats its bid, belongs to a payment the provider captured, and has all fee data or none. */
  ghost predicate CaptureOk(bids: map<BidId, Bid>, b: Books, id: BidId)
    requires id in b.captures
  {
    var c := b.captures[id];
    && id in bids && c.gross == bids[id].amount
    && c.intent.owner == id && c.intent in b.collected
    && (c.available <==> c.fee.Some?) && (c.available <==> c.net.Some?)
    && HasEntry(b.ledger, BidCapture, id)
  }

  /** The refund entry of a bid gives back everything but the provider's fee. */
  ghost predicate EntryOk(bids: map<BidId, Bid>, b: Books, i: nat)
    requires i < |b.ledger|
  {
    var e := b.ledger[i];
    && e.bid in bids && e.user == bids[e.bid].bidder && e.entity == bids[e.bid].entity
    && (e.kind == BidCapture ==> e.bid in b.captures && e.amount == bids[e.bid].amount)
    && (e.kind == Refund ==>
          && e.bid in b.captures && b.captures[e.bid].available
          && RefundAmount(b, e.bid, bids[e.bid].amount) == Some(-e.amount))
  }

  /** No bid has two entries of one kind. */
  ghost predicate Single(b: Books, i: nat, j: nat)
    requires i < |b.ledger| && j < |b.ledger|
  {
    b.ledger[i].kind == b.ledger[j].kind && b.ledger[i].bid == b.ledger[j].bid ==> i == j
  }

  ghost predicate AccountOk(b: Books, u: UserId)
    requires u in b.accounts
  {
    var a := b.accounts[u];
    && a.spend == Spend(b.ledger, u)
    && a.successes == Tally(b.ledger, BidCapture, u)
    && a.refunds == Tally(b.ledger, Refund, u)
  }

  /** Expected balance of a bid: its amount once captured, only the fee once refunded. */
  function Expected(b: Books, bid: BidId): int {
    if bid !in b.captures then 0
    else if HasEntry(b.ledger, Refund, bid) && b.captures[bid].fee.Some? then b.captures[bid].fee.value
    else b.captures[bid].gross
  }

  ghost predicate KeptOk(b: Books, bid: BidId) {
    Kept(b.ledger, bid) == Expected(b, bid)
  }

  ghost predicate BooksInv(bids: map<BidId, Bid>, b: Books) {
    && (forall id {:trigger CaptureOk(bids, b, id)} | id in b.captures :: CaptureOk(bids, b, id))
    && (forall i {:trigger EntryOk(bids, b, i)} | 0 <= i < |b.ledger| :: EntryOk(bids, b, i))
    && (forall i, j {:trigger Single(b, i, j)} | 0 <= i < |b.ledger| && 0 <= j < |b.ledger| :: Single(b, i, j))
    && (forall u {:trigger AccountOk(b, u)} | u in b.accounts :: AccountOk(b, u))
    && (forall bid: BidId {:trigger KeptOk(b, bid)} :: KeptOk(b, bid))
  }

  /** Two bid tables that agree on what accounting reads. */
  ghost predicate SameForBooks(bids: map<BidId, Bid>, bids': map<BidId, Bid>) {
    && bids.Keys <= bids'.Keys
    && forall p {:trigger bids'[p]} | p in bids ::
         bids'[p].amount == bids[p].amount && bids'[p].bidder == bids[p].bidder && bids'[p].entity == bids[p].entity
  }

  lemma BooksIgnoreGame(bids: map<BidId, Bid>, bids': map<BidId, Bid>, b: Books)
    requires BooksInv(bids, b) && SameForBooks(bids, bids')
    ensures BooksInv(bids', b)
  {
    forall id | id in b.captures ensures CaptureOk(bids', b, id) { assert CaptureOk(bids, b, id); }
    forall i | 0 <= i < |b.ledger| ensures EntryOk(bids', b, i) { assert EntryOk(bids, b, i); }
  }

  /** The provider being asked more, and capturing more, disturbs nothing. */
  lemma CollectingKeepsInv(bids: map<BidId, Bid>, b: Books, more: set<IntentId>, requests: seq<CaptureRequest>)
    requires BooksInv(bids, b) && b.collected <= more
    ensures BooksInv(bids, b.(collected := more, requests := requests))
  {
    var b' := b.(collected := more, requests := requests);
    forall id | id in b'.captures ensures CaptureOk(bids, b', id) { assert CaptureOk(bids, b, id); }
    forall i | 0 <= i < |b'.ledger| ensures EntryOk(bids, b', i) { assert EntryOk(bids, b, i); }
    forall i, j | 0 <= i < |b'.ledger| && 0 <= j < |b'.ledger| ensures Single(b', i, j) { assert Single(b, i, j); }
    forall u | u in b'.accounts ensures AccountOk(b', u) { assert AccountOk(b, u); }
    forall bid: BidId ensures KeptOk(b', bid) { assert KeptOk(b, bid); }
  }

  // ----- rewriting one snapshot -----

  /** Identifiers and fee data are written once. */
  predicate Extends(c: Capture, c': Capture) {
    && c'.intent == c.intent && c'.gross == c.gross && c'.currency == c.currency
    && (c.charge.Some? ==> c'.charge == c.charge)
    && (c.balanceTransaction.Some? ==> c'.balanceTransaction == c.balanceTransaction)
    && (c.available ==> c'.available && c'.fee == c.fee && c'.net == c.net && c'.availableAt == c.availableAt)
  }

  lemma SnapshotKeepsInv(bids: map<BidId, Bid>, b: Books, id: BidId, c: Capture)
    requires BooksInv(bids, b) && id in b.captures && Extends(b.captures[id], c)
    requires (c.available <==> c.fee.Some?) && (c.available <==> c.net.Some?)
    ensures BooksInv(bids, b.(captures := b.captures[id := c]))
  {
    var b' := b.(captures := b.captures[id := c]);
    forall o | o in b'.captures ensures CaptureOk(bids, b', o) { assert CaptureOk(bids, b, o); }
    forall i | 0 <= i < |b'.ledger| ensures EntryOk(bids, b', i) { assert EntryOk(bids, b, i); }
    forall i, j | 0 <= i < |b'.ledger| && 0 <= j < |b'.ledger| ensures Single(b', i, j) { assert Single(b, i, j); }
    forall u | u in b'.accounts ensures AccountOk(b', u) { assert AccountOk(b, u); }
    forall bid: BidId ensures KeptOk(b', bid) {
      assert KeptOk(b, bid);
      if bid == id && HasEntry(b.ledger, Refund, id) {
        var i :| 0 <= i < |b.ledger| && b.ledger[i].kind == Refund && b.ledger[i].bid == id;
        assert EntryOk(bids, b, i);
      }
    }
  }
}
