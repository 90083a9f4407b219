// The accounting tables: capture snapshots, the ledger and the per-account counters.
module Books {
  import opened Base
  import opened Rows

  datatype Tier = New | Established | Trusted | Restricted | Suspended

  datatype Account = Account(
    banned: bool,
    named: bool,
    ageConfirmed: bool,
    tier: Tier,
    successes: nat,
    disputes: nat,
    refunds: nat,
    spend: int,
    openDispute: bool,
    suspended: bool,
    lastDisputeAt: Option<Time>,
    createdAt: Time)

  datatype EntryKind = BidCapture | Refund | Chargeback | Adjustment

  datatype Entry = Entry(kind: EntryKind, amount: int, user: UserId, entity: EntityId, bid: BidId)

  datatype Capture = Capture(
    intent: IntentId,
    charge: Option<nat>,
    balanceTransaction: Option<nat>,
    gross: nat,
    currency: string,
    fee: Option<nat>,
    net: Option<int>,
    available: bool,
    availableAt: Option<Time>,
    attempts: nat,
    attemptedAt: Option<Time>)

  /** What the provider was asked to capture, whatever it answered. */
  datatype CaptureRequest = CaptureRequest(bid: BidId, intent: IntentId)

  /** `collected` is the provider's side: the payment intents it has captured; `requests` is what it was asked. */
  datatype Books = Books(
    accounts: map<UserId, Account>,
    captures: map<BidId, Capture>,
    ledger: seq<Entry>,
    collected: set<IntentId>,
    requests: seq<CaptureRequest>)

  // ----- what the provider reports -----

  datatype BalanceTransaction = BalanceTransaction(
    id: Option<nat>, fee: Option<int>, net: Option<int>, gross: Option<int>, currency: string)

  datatype Charge = Charge(id: Option<nat>, balance: Option<BalanceTransaction>)

  datatype PaymentIntent = PaymentIntent(
    id: Option<IntentId>, succeeded: bool, received: Option<int>, currency: string, charge: Charge)

  // ----- ledger -----

  predicate HasEntry(ledger: seq<Entry>, kind: EntryKind, bid: BidId) {
    exists i | 0 <= i < |ledger| :: ledger[i].kind == kind && ledger[i].bid == bid
  }

  function GetOrCreateEntry(ledger: seq<Entry>, e: Entry): seq<Entry> {
    if HasEntry(ledger, e.kind, e.bid) then ledger else ledger + [e]
  }

  // ----- capture snapshots -----

  /** Fill identifiers that are still unknown. */
  function AttachIds(c: Capture, charge: Charge): Capture {
    c.(charge := if c.charge.None? then charge.id else c.charge,
       balanceTransaction :=
         if charge.balance.Some? && c.balanceTransaction.None? then charge.balance.value.id else c.balanceTransaction)
  }

  /** Whether the charge carries fee data that this snapshot still needs and agrees with. */
  predicate CompletesFee(c: Capture, charge: Charge) {
    && charge.balance.Some?
    && var b := charge.balance.value;
    && b.fee.Some? && b.net.Some? && !c.available
    && (b.gross.Some? ==> b.gross.value == c.gross)
    && (b.currency == "" || b.currency == c.currency)
  }

  /** Fill previously unknown identifiers and fee data; says whether the fee data became complete. */
  function ApplyChargeDetails(c: Capture, charge: Charge, now: Time): Tx<(Capture, bool)> {
    var named := AttachIds(c, charge);
    if !CompletesFee(c, charge) then Commit((named, false))
    else
      var b := charge.balance.value;
      if b.fee.value < 0 then Abort(ConstraintViolated)
      else Commit((named.(fee := Some(b.fee.value), net := b.net, available := true, availableAt := Some(now)), true))
  }

  /** Provider identifiers are unique across snapshots. */
  predicate IdsTaken(captures: map<BidId, Capture>, bid: BidId, c: Capture) {
    exists o | o in captures && o != bid ::
      || (c.charge.Some? && captures[o].charge == c.charge)
      || (c.balanceTransaction.Some? && captures[o].balanceTransaction == c.balanceTransaction)
  }

  function SaveCharge(b: Books, bid: BidId, charge: Charge, now: Time): Tx<(Books, bool)>
    requires bid in b.captures
  {
    var applied :- ApplyChargeDetails(b.captures[bid], charge, now);
    if IdsTaken(b.captures, bid, applied.0) then Abort(ConstraintViolated)
    else Commit((b.(captures := b.captures[bid := applied.0]), applied.1))
  }

  function NewCapture(b: Books, id: BidId, bid: Bid, intent: IntentId, currency: string): (r: Tx<Books>)
    ensures r.Commit? ==> id in r.value.captures
  {
    if exists o | o in b.captures && o != id :: b.captures[o].intent == intent then Abort(ConstraintViolated)
    else
      var entry := Entry(BidCapture, bid.amount, bid.bidder, bid.entity, id);
      var credited :=
        if bid.bidder in b.accounts then
          var a := b.accounts[bid.bidder];
          b.accounts[bid.bidder := a.(successes := a.successes + 1, spend := a.spend + bid.amount)]
        else b.accounts;
      Commit(b.(
             captures := b.captures[id := Capture(intent, None, None, bid.amount, currency, None, None, false, None, 0, None)],
             ledger := GetOrCreateEntry(b.ledger, entry),
             accounts := credited))
  }

  function GrossOf(pi: PaymentIntent, bid: Bid): int {
    if pi.received.Some? && pi.received.value != 0 then pi.received.value else bid.amount
  }

  /** Whether the reported payment is a success that belongs to this bid. */
  predicate Recordable(b: Books, id: BidId, bid: Bid, pi: PaymentIntent) {
    && pi.id.Some? && pi.succeeded
    && (bid.intent.Some? ==> pi.id == bid.intent)
    && GrossOf(pi, bid) == bid.amount
    && (id in b.captures ==> Some(b.captures[id].intent) == pi.id)
  }

  /** Create the gross snapshot, entry and counters once, then add whatever fee data is known. */
  function RecordCapture(b: Books, id: BidId, bid: Bid, pi: PaymentIntent, now: Time): Tx<(Books, bool)> {
    if !Recordable(b, id, bid, pi) then Commit((b, false))
    else
      var b1 :- if id in b.captures then Commit(b) else NewCapture(b, id, bid, pi.id.value, pi.currency);
      var b2 :- SaveCharge(b1, id, pi.charge, now);
      Commit((b2.0, true))
  }

  /** The charge webhook finds its snapshot by payment intent; an intent names the bid it was created for. */
  function UpdateFromCharge(b: Books, intent: Option<IntentId>, charge: Charge, now: Time): Tx<(Books, bool)> {
    if intent.Some? && intent.value.owner in b.captures && b.captures[intent.value.owner].intent == intent.value
    then SaveCharge(b, intent.value.owner, charge, now)
    else Commit((b, false))
  }

  /** One row of the reconciliation pass: count the attempt, then apply what the provider returned. */
  function ReconcileRow(b: Books, bid: BidId, reply: Option<PaymentIntent>, now: Time): Tx<(Books, bool)>
    requires bid in b.captures
  {
    var c := b.captures[bid];
    if c.available then Commit((b, false))
    else
      var tried := b.(captures := b.captures[bid := c.(attempts := c.attempts + 1, attemptedAt := Some(now))]);
      if reply.Some? && reply.value.succeeded then SaveCharge(tried, bid, reply.value.charge, now)
      else Commit((tried, false))
  }

  /** The net refund, once the provider's actual fee is known and consistent. */
  function RefundAmount(b: Books, bid: BidId, amount: nat): Option<int> {
    if bid !in b.captures then None
    else
      var c := b.captures[bid];
      if !c.available || c.fee.None? || c.net.None? then None
      else if c.gross != amount then None
      else if c.net.value != c.gross - c.fee.value then None
      else c.net
  }

  function RecordRefund(b: Books, id: BidId, bid: Bid, amount: nat): Books {
    var entry := Entry(Refund, -(amount as int), bid.bidder, bid.entity, id);
    var counted :=
      if bid.bidder in b.accounts then
        b.accounts[bid.bidder := b.accounts[bid.bidder].(refunds := b.accounts[bid.bidder].refunds + 1)]
      else b.accounts;
    b.(ledger := GetOrCreateEntry(b.ledger, entry), accounts := counted)
  }

  function RecordDispute(b: Books, id: BidId, bid: Bid, amount: int, now: Time): Books {
    var entry := Entry(Chargeback, -amount, bid.bidder, bid.entity, id);
    var suspended :=
      if bid.bidder in b.accounts then
        var a := b.accounts[bid.bidder];
        b.accounts[bid.bidder := a.(disputes := a.disputes + 1, openDispute := true, suspended := true,
                                    lastDisputeAt := Some(now), tier := Suspended)]
      else b.accounts;
    b.(ledger := GetOrCreateEntry(b.ledger, entry), accounts := suspended)
  }
}
