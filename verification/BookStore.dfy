// The accounting tables as the services update them in place, proved against the transactions of `Books`.
module BookStore {
  import opened Base
  import opened Rows
  import opened Books
  import opened BooksInvariant
  import opened BooksSteps
  import opened Events

  class BookTables {
    var accounts: map<UserId, Account>
    var captures: map<BidId, Capture>
    var ledger: seq<Entry>
    var collected: set<IntentId>
    var requests: seq<CaptureRequest>

    function Rows(): Books
      reads this
    {
      Books(accounts, captures, ledger, collected, requests)
    }

    constructor (b: Books)
      ensures Rows() == b
    {
      accounts, captures, ledger := b.accounts, b.captures, b.ledger;
      collected, requests := b.collected, b.requests;
    }

    /** What the database does when a transaction is refused. */
    method Restore(b: Books)
      modifies this
      ensures Rows() == b
    {
      accounts, captures, ledger := b.accounts, b.captures, b.ledger;
      collected, requests := b.collected, b.requests;
    }

    method AddEntryOnce(e: Entry)
      modifies this`ledger
      ensures ledger == GetOrCreateEntry(old(ledger), e)
    {
      var found := false;
      for i := 0 to |ledger|
        invariant found <==> exists k | 0 <= k < i :: ledger[k].kind == e.kind && ledger[k].bid == e.bid
      {
        if ledger[i].kind == e.kind && ledger[i].bid == e.bid { found := true; }
      }
      if !found { ledger := ledger + [e]; }
    }

    /** Save a snapshot unless one of its provider identifiers belongs to another one. */
    method Save(bid: BidId, c: Capture) returns (r: Tx<()>)
      requires bid in captures
      modifies this`captures
      ensures if IdsTaken(old(captures), bid, c) then r == Abort(ConstraintViolated)
              else r.Commit? && captures == old(captures)[bid := c]
    {
      if IdsTaken(captures, bid, c) { return Abort(ConstraintViolated); }
      captures := captures[bid := c];
      return Commit(());
    }

    /** Fill what is still unknown; each early exit saves the identifiers found so far. */
    method ApplyChargeDetails(bid: BidId, charge: Charge, now: Time) returns (r: Tx<bool>)
      requires bid in captures
      modifies this`captures
      ensures var spec := SaveCharge(old(Rows()), bid, charge, now);
              if spec.Commit? then r == Commit(spec.value.1) && Rows() == spec.value.0 else r == Abort(spec.error)
    {
      var c := captures[bid];
      if c.charge.None? { c := c.(charge := charge.id); }
      if charge.balance.None? {
        var saved := Save(bid, c);
        return if saved.Abort? then Abort(saved.error) else Commit(false);
      }
      var balance := charge.balance.value;
      if c.balanceTransaction.None? { c := c.(balanceTransaction := balance.id); }
      var mismatch := (balance.gross.Some? && balance.gross.value != c.gross) || (balance.currency != "" && balance.currency != c.currency);
      if balance.fee.None? || balance.net.None? || c.available || mismatch {
        var saved := Save(bid, c);
        return if saved.Abort? then Abort(saved.error) else Commit(false);
      }
      if balance.fee.value < 0 { return Abort(ConstraintViolated); }
      c := c.(fee := Some(balance.fee.value));
      c := c.(net := balance.net);
      c := c.(available := true);
      c := c.(availableAt := Some(now));
      var saved := Save(bid, c);
      return if saved.Abort? then Abort(saved.error) else Commit(true);
    }

    method CreateCapture(id: BidId, bid: Bid, intent: IntentId, currency: string) returns (r: Tx<()>)
      modifies this`captures, this`ledger, this`accounts
      ensures var spec := NewCapture(old(Rows()), id, bid, intent, currency);
              if spec.Commit? then r.Commit? && Rows() == spec.value else r == Abort(spec.error)
    {
      if exists o | o in captures && o != id :: captures[o].intent == intent { return Abort(ConstraintViolated); }
      captures := captures[id := Capture(intent, None, None, bid.amount, currency, None, None, false, None, 0, None)];
      AddEntryOnce(Entry(BidCapture, bid.amount, bid.bidder, bid.entity, id));
      if bid.bidder in accounts {
        var a := accounts[bid.bidder];
        a := a.(successes := a.successes + 1);
        a := a.(spend := a.spend + bid.amount);
        accounts := accounts[bid.bidder := a];
      }
      return Commit(());
    }

    /** Recording is the same whether the direct capture, a webhook or a backfill asks for it. */
    method RecordCaptureFromPaymentIntent(id: BidId, bid: Bid, pi: PaymentIntent, now: Time) returns (r: Tx<bool>)
      modifies this`captures, this`ledger, this`accounts
      ensures var spec := RecordCapture(old(Rows()), id, bid, pi, now);
              if spec.Commit? then r == Commit(spec.value.1) && Rows() == spec.value.0 else r == Abort(spec.error)
    {
      if pi.id.None? || !pi.succeeded { return Commit(false); }
      if bid.intent.Some? && pi.id != bid.intent { return Commit(false); }
      if GrossOf(pi, bid) != bid.amount { return Commit(false); }
      if id in captures {
        if captures[id].intent != pi.id.value { return Commit(false); }
      } else {
        var created := CreateCapture(id, bid, pi.id.value, pi.currency);
        if created.Abort? { return Abort(created.error); }
      }
      var applied := ApplyChargeDetails(id, pi.charge, now);
      return if applied.Abort? then Abort(applied.error) else Commit(true);
    }

    method UpdateCaptureFromCharge(intent: Option<IntentId>, charge: Charge, now: Time) returns (r: Tx<bool>)
      modifies this`captures
      ensures var spec := UpdateFromCharge(old(Rows()), intent, charge, now);
              if spec.Commit? then r == Commit(spec.value.1) && Rows() == spec.value.0 else r == Abort(spec.error)
    {
      if intent.None? { return Commit(false); }
      var bid := intent.value.owner;
      if bid !in captures || captures[bid].intent != intent.value { return Commit(false); }
      r := ApplyChargeDetails(bid, charge, now);
    }

    /** One row, in a transaction of its own. */
    method ReconcileOne(bid: BidId, reply: Option<PaymentIntent>, now: Time) returns (r: Tx<bool>)
      requires bid in captures
      modifies this`captures
      ensures var spec := ReconcileRow(old(Rows()), bid, reply, now);
              if spec.Commit? then r == Commit(spec.value.1) && Rows() == spec.value.0
              else r == Abort(spec.error) && Rows() == old(Rows())
    {
      var saved := captures;
      var c := captures[bid];
      if c.available { return Commit(false); }
      c := c.(attemptedAt := Some(now));
      c := c.(attempts := c.attempts + 1);
      captures := captures[bid := c];
      if reply.None? || !reply.value.succeeded { return Commit(false); }
      r := ApplyChargeDetails(bid, reply.value.charge, now);
      if r.Abort? { captures := saved; }
    }

    /**
     One reconciliation pass over the snapshots that were pending. Each row is a transaction of its own; one whose answer
     cannot be stored ends the pass, and `handled` says how many rows came before it. Each of them counts its attempt and
     has what the provider told, no other row changes, no entry is written, and the pass reports how many snapshots became
     complete.
     */
    method ReconcilePendingCaptureFees(ghost bids: map<BidId, Bid>, due: seq<BidId>, replies: map<BidId, PaymentIntent>, now: Time)
      returns (reconciled: nat, ghost handled: nat)
      requires BooksInv(bids, Rows()) && forall i | 0 <= i < |due| :: due[i] in captures
      requires forall i, j | 0 <= i < j < |due| :: due[i] != due[j]
      modifies this`captures
      ensures BooksInv(bids, Rows()) && Grows(old(Rows()), Rows())
      ensures reconciled == |Completed(old(captures), captures)|
      ensures handled <= |due| && AllTried(old(captures), captures, due[..handled], replies, now)
      ensures handled < |due| ==> due[handled] in replies && !Storable(captures, due[handled], replies[due[handled]].charge)
    {
      ghost var before := Rows();
      assert Completed(captures, captures) == {};
      reconciled, handled := 0, 0;
      for i := 0 to |due|
        invariant handled == i && BooksInv(bids, Rows()) && Grows(before, Rows())
        invariant reconciled == |Completed(before.captures, captures)|
        invariant AllTried(before.captures, captures, due[..i], replies, now)
      {
        ghost var mid := Rows();
        var reply := Reply(replies, due[i]);
        ReconcileCounts(bids, before, mid, due[i], reply, now);
        TriedOutcome(mid, due[i], reply, now);
        var done := ReconcileOne(due[i], reply, now);
        if done.Abort? { return; }
        if done.value { reconciled := reconciled + 1; }
        handled := handled + 1;
        OneMoreTried(before.captures, mid.captures, due, i, replies, now);
      }
    }

    /** One historical bid, in a transaction of its own. */
    method BackfillOne(id: BidId, bid: Bid, pi: PaymentIntent, now: Time) returns (r: Tx<bool>)
      modifies this`captures, this`ledger, this`accounts
      ensures var spec := RecordCapture(old(Rows()), id, bid, pi, now);
              if spec.Commit? then r == Commit(spec.value.1) && Rows() == spec.value.0
              else r == Abort(spec.error) && Rows() == old(Rows())
    {
      var saved := Rows();
      r := RecordCaptureFromPaymentIntent(id, bid, pi, now);
      if r.Abort? {
        captures, ledger, accounts := saved.captures, saved.ledger, saved.accounts;
      }
    }

    /**
     One backfill pass over published bids without a snapshot; a row whose answer cannot be stored ends it, and `handled`
     says how many rows came before. Each of them has a snapshot exactly if the provider's answer pays for its bid, with
     what the answer told, its entry and its counts; no other snapshot changes, and the pass reports those it created.
     */
    method BackfillMissingCaptureRecords(bids: map<BidId, Bid>, missing: seq<BidId>, replies: map<BidId, PaymentIntent>, now: Time)
      returns (recorded: nat, ghost handled: nat)
      requires BooksInv(bids, Rows())
      requires forall i | 0 <= i < |missing| :: missing[i] in bids && missing[i] !in captures
      requires forall i, j | 0 <= i < j < |missing| :: missing[i] != missing[j]
      requires forall p {:trigger replies[p]} | p in replies && replies[p].succeeded && replies[p].id.Some? ::
                 replies[p].id.value.owner == p && replies[p].id.value in collected
      modifies this`captures, this`ledger, this`accounts
      ensures BooksInv(bids, Rows()) && Grows(old(Rows()), Rows())
      ensures recorded == |captures.Keys - old(captures).Keys|
      ensures handled <= |missing|
      ensures AllBackfilled(bids, old(captures), captures, missing[..handled], replies, now)
      ensures handled < |missing| ==> missing[handled] in replies && PaysFor(bids[missing[handled]], replies[missing[handled]])
    {
      ghost var before := Rows();
      assert captures.Keys - before.captures.Keys == {};
      recorded, handled := 0, 0;
      for i := 0 to |missing|
        invariant handled == i && BooksInv(bids, Rows()) && Grows(before, Rows()) && collected == before.collected
        invariant recorded == |captures.Keys - before.captures.Keys|
        invariant AllBackfilled(bids, before.captures, captures, missing[..i], replies, now)
      {
        var id := missing[i];
        BackfillAdvances(bids, before, Rows(), missing, i, replies, now);
        if id in replies {
          var done := BackfillOne(id, bids[id], replies[id], now);
          if done.Abort? { return; }
          if done.value { recorded := recorded + 1; }
        }
        handled := handled + 1;
      }
    }

    // ----- refunds and disputes -----

    method WriteRefund(id: BidId, bid: Bid, amount: nat)
      modifies this`ledger, this`accounts
      ensures Rows() == RecordRefund(old(Rows()), id, bid, amount)
    {
      AddEntryOnce(Entry(Refund, -(amount as int), bid.bidder, bid.entity, id));
      if bid.bidder in accounts {
        accounts := accounts[bid.bidder := accounts[bid.bidder].(refunds := accounts[bid.bidder].refunds + 1)];
      }
    }

    method WriteDispute(id: BidId, bid: Bid, amount: int, now: Time)
      modifies this`ledger, this`accounts
      ensures Rows() == RecordDispute(old(Rows()), id, bid, amount, now)
    {
      if bid.bidder in accounts {
        var a := accounts[bid.bidder];
        a := a.(disputes := a.disputes + 1, openDispute := true, suspended := true);
        a := a.(lastDisputeAt := Some(now), tier := Suspended);
        accounts := accounts[bid.bidder := a];
      }
      AddEntryOnce(Entry(Chargeback, -amount, bid.bidder, bid.entity, id));
    }
  }

  lemma RecordAddsAtMostOne(b: Books, id: BidId, bid: Bid, pi: PaymentIntent, now: Time)
    requires id !in b.captures
    ensures var r := RecordCapture(b, id, bid, pi, now);
            r.Commit? ==>
              && r.value.0.collected == b.collected
              && r.value.0.captures.Keys == b.captures.Keys + if r.value.1 then {id} else {}
  {
  }

  lemma BackfillCounts(bids: map<BidId, Bid>, before: Books, mid: Books, id: BidId, pi: PaymentIntent, now: Time)
    requires BooksInv(bids, mid) && Grows(before, mid) && id in bids && id !in mid.captures
    requires pi.succeeded && pi.id.Some? ==> pi.id.value.owner == id && pi.id.value in mid.collected
    ensures var r := RecordCapture(mid, id, bids[id], pi, now);
            r.Commit? ==>
              && BooksInv(bids, r.value.0) && Grows(before, r.value.0) && r.value.0.collected == mid.collected
              && r.value.0.captures.Keys == mid.captures.Keys + (if r.value.1 then {id} else {})
              && |r.value.0.captures.Keys - before.captures.Keys| ==
                 |mid.captures.Keys - before.captures.Keys| + if r.value.1 then 1 else 0
  {
    var r := RecordCapture(mid, id, bids[id], pi, now);
    RecordKeepsInv(bids, mid, id, pi, now);
    if r.Commit? {
      GrowsTransitive(before, mid, r.value.0);
      RecordAddsAtMostOne(mid, id, bids[id], pi, now);
      OneMore(before.captures.Keys, mid.captures.Keys, id, r.value.1);
    }
  }

  /** Bid `p` has a snapshot exactly if the answer pays for it, and then one with what the answer told. */
  predicate Backfilled(bids: map<BidId, Bid>, captures: map<BidId, Capture>, p: BidId, reply: Option<PaymentIntent>, now: Time) {
    && p in bids && (p in captures <==> reply.Some? && PaysFor(bids[p], reply.value))
    && (p in captures ==>
          var first := FirstSnapshot(bids[p], reply.value);
          && (Brings(first, reply.value.charge) ==> reply.value.charge.balance.value.fee.value >= 0)
          && captures[p] == Filled(first, reply.value.charge, now))
  }

  /** The snapshots after each of `tried` has been looked up. */
  ghost predicate AllBackfilled(bids: map<BidId, Bid>, was: map<BidId, Capture>, captures: map<BidId, Capture>, tried: seq<BidId>,
                                replies: map<BidId, PaymentIntent>, now: Time) {
    && was.Keys <= captures.Keys && (forall p {:trigger captures[p]} | p in was :: captures[p] == was[p])
    && (forall p | p in captures.Keys - was.Keys :: p in tried)
    && (forall p {:trigger Backfilled(bids, captures, p, Reply(replies, p), now)} | p in tried :: Backfilled(bids, captures, p, Reply(replies, p), now))
  }

  lemma StillMissing(bids: map<BidId, Bid>, was: map<BidId, Capture>, captures: map<BidId, Capture>, missing: seq<BidId>, i: nat,
                     replies: map<BidId, PaymentIntent>, now: Time)
    requires i < |missing| && missing[i] !in was && AllBackfilled(bids, was, captures, missing[..i], replies, now)
    requires forall j, k | 0 <= j < k < |missing| :: missing[j] != missing[k]
    ensures missing[i] !in captures
  {
    assert missing[i] !in captures.Keys - was.Keys;
  }

  lemma OneMoreBackfilled(bids: map<BidId, Bid>, was: map<BidId, Capture>, mid: map<BidId, Capture>, captures: map<BidId, Capture>,
                          missing: seq<BidId>, i: nat, replies: map<BidId, PaymentIntent>, now: Time)
    requires i < |missing| && missing[i] !in was && missing[i] !in mid && AllBackfilled(bids, was, mid, missing[..i], replies, now)
    requires mid.Keys <= captures.Keys <= mid.Keys + {missing[i]} && Backfilled(bids, captures, missing[i], Reply(replies, missing[i]), now)
    requires forall p {:trigger captures[p]} | p in mid :: captures[p] == mid[p]
    requires forall j, k | 0 <= j < k < |missing| :: missing[j] != missing[k]
    ensures AllBackfilled(bids, was, captures, missing[..i + 1], replies, now)
  {
    forall p | p in was ensures captures[p] == was[p] { assert mid[p] == was[p]; }
    assert missing[..i + 1] == missing[..i] + [missing[i]];
    forall p | p in missing[..i + 1] ensures Backfilled(bids, captures, p, Reply(replies, p), now) {
      if p in missing[..i] { assert Backfilled(bids, mid, p, Reply(replies, p), now); }
    }
  }

  lemma BackfillOutcome(bids: map<BidId, Bid>, b: Books, p: BidId, pi: PaymentIntent, now: Time)
    requires BooksInv(bids, b) && p in bids && p !in b.captures
    ensures var r := RecordCapture(b, p, bids[p], pi, now);
            if r.Commit? then
              && Backfilled(bids, r.value.0.captures, p, Some(pi), now)
              && forall o | o in b.captures :: o in r.value.0.captures && r.value.0.captures[o] == b.captures[o]
            else PaysFor(bids[p], pi)
  {
    RecordOutcome(bids, b, p, pi, now);
  }

  /** One turn of the backfill pass. */
  lemma BackfillAdvances(bids: map<BidId, Bid>, before: Books, mid: Books, missing: seq<BidId>, i: nat, replies: map<BidId, PaymentIntent>, now: Time)
    requires i < |missing| && missing[i] in bids && missing[i] !in before.captures
    requires BooksInv(bids, mid) && Grows(before, mid) && AllBackfilled(bids, before.captures, mid.captures, missing[..i], replies, now)
    requires forall j, k | 0 <= j < k < |missing| :: missing[j] != missing[k]
    requires missing[i] in replies && replies[missing[i]].succeeded && replies[missing[i]].id.Some? ==>
               replies[missing[i]].id.value.owner == missing[i] && replies[missing[i]].id.value in mid.collected
    ensures missing[i] !in replies ==> AllBackfilled(bids, before.captures, mid.captures, missing[..i + 1], replies, now)
    ensures missing[i] in replies ==>
              var r := RecordCapture(mid, missing[i], bids[missing[i]], replies[missing[i]], now);
              if r.Commit? then
                && BooksInv(bids, r.value.0) && Grows(before, r.value.0) && r.value.0.collected == mid.collected
                && |r.value.0.captures.Keys - before.captures.Keys| == |mid.captures.Keys - before.captures.Keys| + (if r.value.1 then 1 else 0)
                && AllBackfilled(bids, before.captures, r.value.0.captures, missing[..i + 1], replies, now)
              else PaysFor(bids[missing[i]], replies[missing[i]])
  {
    var id := missing[i];
    StillMissing(bids, before.captures, mid.captures, missing, i, replies, now);
    if id in replies {
      BackfillCounts(bids, before, mid, id, replies[id], now);
      BackfillOutcome(bids, mid, id, replies[id], now);
      var r := RecordCapture(mid, id, bids[id], replies[id], now);
      if r.Commit? { OneMoreBackfilled(bids, before.captures, mid.captures, r.value.0.captures, missing, i, replies, now); }
    } else {
      OneMoreBackfilled(bids, before.captures, mid.captures, mid.captures, missing, i, replies, now);
    }
  }

  lemma OneMore(before: set<BidId>, mid: set<BidId>, id: BidId, added: bool)
    requires before <= mid && id !in mid
    ensures |mid + (if added then {id} else {}) - before| == |mid - before| + if added then 1 else 0
  {
    assert mid + {id} - before == (mid - before) + {id};
    assert mid + {} - before == mid - before;
  }

  function Reply(replies: map<BidId, PaymentIntent>, p: BidId): Option<PaymentIntent> {
    if p in replies then Some(replies[p]) else None
  }

  /** The snapshot after an attempt to complete it. */
  function Tried(c: Capture, reply: Option<PaymentIntent>, now: Time): Capture {
    if c.available then c
    else
      var tried := c.(attempts := c.attempts + 1, attemptedAt := Some(now));
      if reply.None? || !reply.value.succeeded then tried
      else if Brings(c, reply.value.charge) && reply.value.charge.balance.value.fee.value < 0 then tried
      else Filled(tried, reply.value.charge, now)
  }

  lemma TriedOutcome(b: Books, p: BidId, reply: Option<PaymentIntent>, now: Time)
    requires p in b.captures
    ensures var r := ReconcileRow(b, p, reply, now);
            if r.Commit? then r.value.0 == b.(captures := b.captures[p := Tried(b.captures[p], reply, now)])
            else reply.Some? && !Storable(b.captures, p, reply.value.charge)
  {
    ReconcileOutcome(b, p, reply, now);
    var c := b.captures[p];
    assert b.captures[p := c] == b.captures;
    var tried := c.(attempts := c.attempts + 1, attemptedAt := Some(now));
    if reply.Some? && (Brings(c, reply.value.charge) ==> reply.value.charge.balance.value.fee.value >= 0) {
      var x := reply.value.charge;
      SameClashes(b.captures, p, tried, Filled(tried, x, 0), Filled(c, x, 0));
    }
  }

  lemma SameClashes(captures: map<BidId, Capture>, p: BidId, mine: Capture, c: Capture, d: Capture)
    requires p in captures && c.charge == d.charge && c.balanceTransaction == d.balanceTransaction
    ensures Clashes(captures[p := mine], p, c) <==> Clashes(captures, p, d)
  {
    forall o | o in captures && o != p ensures captures[p := mine][o] == captures[o] {}
  }

  /** The snapshots after an attempt on each of `tried`. */
  ghost predicate AllTried(was: map<BidId, Capture>, captures: map<BidId, Capture>, tried: seq<BidId>, replies: map<BidId, PaymentIntent>, now: Time) {
    && captures.Keys == was.Keys
    && forall p {:trigger captures[p]} | p in captures ::
         captures[p] == if p in tried then Tried(was[p], Reply(replies, p), now) else was[p]
  }

  lemma OneMoreTried(was: map<BidId, Capture>, mid: map<BidId, Capture>, due: seq<BidId>, i: nat, replies: map<BidId, PaymentIntent>, now: Time)
    requires i < |due| && due[i] in mid && due[i] !in due[..i] && AllTried(was, mid, due[..i], replies, now)
    ensures AllTried(was, mid[due[i] := Tried(mid[due[i]], Reply(replies, due[i]), now)], due[..i + 1], replies, now)
  {
    assert due[..i + 1] == due[..i] + [due[i]];
  }

  /** The snapshots whose fee data became available. */
  function Completed(was: map<BidId, Capture>, now: map<BidId, Capture>): set<BidId> {
    set b | b in was && b in now && now[b].available && !was[b].available
  }

  lemma ReconcileCounts(bids: map<BidId, Bid>, before: Books, mid: Books, bid: BidId, reply: Option<PaymentIntent>, now: Time)
    requires BooksInv(bids, mid) && Grows(before, mid) && mid.captures.Keys == before.captures.Keys && bid in mid.captures
    ensures var r := ReconcileRow(mid, bid, reply, now);
            r.Commit? ==>
              && BooksInv(bids, r.value.0) && Grows(before, r.value.0) && r.value.0.captures.Keys == before.captures.Keys
              && |Completed(before.captures, r.value.0.captures)| ==
                 |Completed(before.captures, mid.captures)| + if r.value.1 then 1 else 0
  {
    ReconcileKeepsInv(bids, mid, bid, reply, now);
    var r := ReconcileRow(mid, bid, reply, now);
    if r.Commit? {
      GrowsTransitive(before, mid, r.value.0);
      assert Extends(before.captures[bid], mid.captures[bid]);
      CompletedGrows(before.captures, mid.captures, r.value.0.captures, bid, r.value.1);
    }
  }

  lemma CompletedGrows(was: map<BidId, Capture>, mid: map<BidId, Capture>, now: map<BidId, Capture>, bid: BidId, done: bool)
    requires was.Keys == mid.Keys == now.Keys && bid in was
    requires forall b | b in mid && b != bid :: now[b] == mid[b]
    requires was[bid].available ==> mid[bid].available
    requires mid[bid].available ==> now[bid].available
    requires done <==> now[bid].available && !mid[bid].available
    ensures |Completed(was, now)| == |Completed(was, mid)| + if done then 1 else 0
  {
    if done {
      assert Completed(was, now) == Completed(was, mid) + {bid};
    } else {
      assert Completed(was, now) == Completed(was, mid);
    }
  }
}
