// What the books know comes from what the provider reported: identifiers, fees, and accounts under dispute.
module Reports {
  import opened Base
  import opened Pricing
  import opened Rows
  import opened Takeovers
  import opened Books
  import opened BooksInvariant
  import opened Desk
  import opened Intake
  import opened Risk
  import opened Protocol
  import opened Safety
  import opened EventSteps
  import opened Machine

  // ----- reports -----

  /** The provider tells the charge of a payment intent. */
  datatype ChargeReport = ChargeReport(intent: IntentId, charge: Charge)

  function FromIntent(pi: PaymentIntent): set<ChargeReport> {
    if pi.id.Some? then {ChargeReport(pi.id.value, pi.charge)} else {}
  }

  function FromReply(reply: CaptureReply): set<ChargeReport> {
    if reply.Captured? then FromIntent(reply.pi) else {}
  }

  /** Everything a step hears from the provider about charges. */
  function Heard(w: World, step: Step): set<ChargeReport> {
    match step
    case Checkout(_, _, _, due) => FromReply(due)
    case Authorization(_, due, own, _) => FromReply(due) + FromReply(own)
    case FinalizeDue(_, _, mode) => if mode.Some? then FromReply(mode.value) else {}
    case PaymentSuccess(_, pi) => FromIntent(pi)
    case ChargeUpdate(intent, charge) => if intent.Some? then {ChargeReport(intent.value, charge)} else {}
    case Reconcile(p, reply) =>
      if reply.Some? && p in w.books.captures then {ChargeReport(w.books.captures[p].intent, reply.value.charge)} else {}
    case _ => {}
  }

  // ----- snapshots -----

  /** Two snapshots name different charges and different balance transactions. */
  ghost predicate OwnIds(captures: map<BidId, Capture>, p: BidId, q: BidId)
    requires p in captures && q in captures
  {
    p != q ==>
      && (captures[p].charge.Some? ==> captures[p].charge != captures[q].charge)
      && (captures[p].balanceTransaction.Some? ==> captures[p].balanceTransaction != captures[q].balanceTransaction)
  }

  ghost predicate Distinct(captures: map<BidId, Capture>) {
    forall p, q {:trigger OwnIds(captures, p, q)} | p in captures && q in captures :: OwnIds(captures, p, q)
  }

  /** A report that gives snapshot `c` its charge, its balance transaction, or its fee and net. */
  predicate GivesCharge(r: ChargeReport, c: Capture) {
    r.intent == c.intent && r.charge.id == c.charge
  }

  predicate GivesBalance(r: ChargeReport, c: Capture) {
    r.intent == c.intent && r.charge.balance.Some? && r.charge.balance.value.id == c.balanceTransaction
  }

  predicate GivesFee(r: ChargeReport, c: Capture) {
    && r.intent == c.intent && r.charge.balance.Some?
    && var b := r.charge.balance.value;
    && c.fee.Some? && b.fee == Some(c.fee.value) && c.net.Some? && b.net == c.net
    && (b.gross.Some? ==> b.gross.value == c.gross) && (b.currency == "" || b.currency == c.currency)
  }

  /** Whatever snapshot `id` knows, it knew before or has just been told. */
  ghost predicate Told(before: map<BidId, Capture>, after: map<BidId, Capture>, reports: set<ChargeReport>, id: BidId)
    requires id in after
  {
    var c := after[id];
    && (id in before ==> before[id].intent == c.intent && before[id].gross == c.gross && before[id].currency == c.currency)
    && (c.charge.None? || (id in before && before[id].charge == c.charge)
        || exists r {:trigger GivesCharge(r, c)} | r in reports :: GivesCharge(r, c))
    && (c.balanceTransaction.None? || (id in before && before[id].balanceTransaction == c.balanceTransaction)
        || exists r {:trigger GivesBalance(r, c)} | r in reports :: GivesBalance(r, c))
    && (!c.available || (id in before && before[id].available && before[id].fee == c.fee && before[id].net == c.net)
        || exists r {:trigger GivesFee(r, c)} | r in reports :: GivesFee(r, c))
  }

  ghost predicate Learns(before: map<BidId, Capture>, after: map<BidId, Capture>, reports: set<ChargeReport>) {
    && before.Keys <= after.Keys && (Distinct(before) ==> Distinct(after))
    && forall id {:trigger Told(before, after, reports, id)} | id in after :: Told(before, after, reports, id)
  }

  // ----- accounts under dispute -----

  predicate UnderDispute(b: Books, u: UserId) {
    u in b.accounts ==> b.accounts[u].suspended && b.accounts[u].openDispute
  }

  /** Whoever has a chargeback is suspended with an open dispute. */
  ghost predicate ChargedBack(b: Books, i: nat)
    requires i < |b.ledger|
  {
    b.ledger[i].kind == Chargeback ==> UnderDispute(b, b.ledger[i].user)
  }

  ghost predicate AllChargedBack(b: Books) {
    forall i {:trigger ChargedBack(b, i)} | 0 <= i < |b.ledger| :: ChargedBack(b, i)
  }

  /** No account leaves its dispute, and chargebacks come with one. */
  ghost predicate KeepsDisputes(b: Books, b': Books) {
    && (forall u {:trigger UnderDispute(b', u)} | u in b.accounts :: UnderDispute(b, u) ==> UnderDispute(b', u))
    && b'.accounts.Keys == b.accounts.Keys
    && (AllChargedBack(b) ==> AllChargedBack(b'))
  }

  /** What a change of the books may be, given what was reported. */
  ghost predicate Accounts(b: Books, b': Books, reports: set<ChargeReport>) {
    Learns(b.captures, b'.captures, reports) && KeepsDisputes(b, b')
  }

  lemma LearnsTwice(a: map<BidId, Capture>, b: map<BidId, Capture>, c: map<BidId, Capture>, early: set<ChargeReport>, late: set<ChargeReport>)
    requires Learns(a, b, early) && Learns(b, c, late)
    ensures Learns(a, c, early + late)
  {
    forall id | id in c ensures Told(a, c, early + late, id) {
      assert Told(b, c, late, id);
      if id in b {
        assert Told(a, b, early, id);
        ToldTwice(a, b, c, early, late, id);
      }
    }
  }

  lemma ToldTwice(a: map<BidId, Capture>, b: map<BidId, Capture>, c: map<BidId, Capture>, early: set<ChargeReport>, late: set<ChargeReport>, id: BidId)
    requires id in b && id in c && Told(a, b, early, id) && Told(b, c, late, id)
    ensures Told(a, c, early + late, id)
  {
    if r :| r in early && GivesCharge(r, b[id]) { assert b[id].charge == c[id].charge ==> GivesCharge(r, c[id]); }
    if r :| r in early && GivesBalance(r, b[id]) { assert b[id].balanceTransaction == c[id].balanceTransaction ==> GivesBalance(r, c[id]); }
    if r :| r in early && GivesFee(r, b[id]) { assert b[id].fee == c[id].fee && b[id].net == c[id].net ==> GivesFee(r, c[id]); }
  }

  lemma AccountsTwice(a: Books, b: Books, c: Books, early: set<ChargeReport>, late: set<ChargeReport>)
    requires Accounts(a, b, early) && Accounts(b, c, late)
    ensures Accounts(a, c, early + late)
  {
    LearnsTwice(a.captures, b.captures, c.captures, early, late);
    forall u | u in a.accounts && UnderDispute(a, u) ensures UnderDispute(c, u) { assert UnderDispute(b, u); }
  }

  lemma NothingLearnt(b: Books, reports: set<ChargeReport>)
    ensures Accounts(b, b, reports)
  {
  }

  lemma MoreReports(b: Books, b': Books, few: set<ChargeReport>, many: set<ChargeReport>)
    requires Accounts(b, b', few) && few <= many
    ensures Accounts(b, b', many)
  {
    forall id | id in b'.captures ensures Told(b.captures, b'.captures, many, id) { assert Told(b.captures, b'.captures, few, id); }
  }

  // ----- single changes -----

  /** At most one entry is added, no account leaves its dispute, and a chargeback is written only against a suspended account. */
  lemma OneEntryKeepsDisputes(b: Books, b': Books, e: Entry)
    requires (b'.ledger == b.ledger || b'.ledger == b.ledger + [e]) && (e.kind == Chargeback ==> UnderDispute(b', e.user))
    requires b'.accounts.Keys == b.accounts.Keys
    requires forall u {:trigger b'.accounts[u]} | u in b.accounts ::
               (b.accounts[u].suspended ==> b'.accounts[u].suspended) && (b.accounts[u].openDispute ==> b'.accounts[u].openDispute)
    ensures KeepsDisputes(b, b')
  {
    if AllChargedBack(b) {
      forall i | 0 <= i < |b'.ledger| ensures ChargedBack(b', i) {
        if i < |b.ledger| { assert ChargedBack(b, i); }
      }
    }
  }

  lemma SavingAccounts(b: Books, id: BidId, charge: Charge, now: Time)
    requires id in b.captures
    ensures var r := SaveCharge(b, id, charge, now); r.Commit? ==> Accounts(b, r.value.0, {ChargeReport(b.captures[id].intent, charge)})
  {
    var r := SaveCharge(b, id, charge, now);
    if r.Commit? {
      var before, after, told := b.captures, r.value.0.captures, {ChargeReport(b.captures[id].intent, charge)};
      if Distinct(before) {
        forall p, q | p in after && q in after ensures OwnIds(after, p, q) { assert OwnIds(before, p, q); }
      }
      forall p | p in after ensures Told(before, after, told, p) {
        if p == id { SnapshotTold(before, after, ChargeReport(b.captures[id].intent, charge), id, now); }
      }
      OneEntryKeepsDisputes(b, r.value.0, Entry(Adjustment, 0, 0, 0, 0));
    }
  }

  lemma SnapshotTold(before: map<BidId, Capture>, after: map<BidId, Capture>, r: ChargeReport, id: BidId, now: Time)
    requires id in before && id in after && r.intent == before[id].intent
    requires var applied := ApplyChargeDetails(before[id], r.charge, now); applied.Commit? && after[id] == applied.value.0
    ensures Told(before, after, {r}, id)
  {
    var c, c' := before[id], after[id];
    if c'.charge.Some? && c'.charge != c.charge { assert GivesCharge(r, c'); }
    if c'.balanceTransaction.Some? && c'.balanceTransaction != c.balanceTransaction { assert GivesBalance(r, c'); }
    if c'.available && !c.available { assert GivesFee(r, c'); }
  }

  lemma NewAccounts(b: Books, id: BidId, row: Bid, intent: IntentId, currency: string)
    requires id !in b.captures
    ensures var r := NewCapture(b, id, row, intent, currency);
            r.Commit? ==> Accounts(b, r.value, {}) && id in r.value.captures && r.value.captures[id].intent == intent
  {
    var r := NewCapture(b, id, row, intent, currency);
    if r.Commit? {
      var after := r.value.captures;
      if Distinct(b.captures) {
        forall p, q | p in after && q in after ensures OwnIds(after, p, q) {
          if p in b.captures && q in b.captures { assert OwnIds(b.captures, p, q); }
        }
      }
      forall p | p in after ensures Told(b.captures, after, {}, p) {}
      OneEntryKeepsDisputes(b, r.value, Entry(BidCapture, row.amount, row.bidder, row.entity, id));
    }
  }

  lemma RecordingAccounts(b: Books, id: BidId, row: Bid, pi: PaymentIntent, now: Time)
    ensures var r := RecordCapture(b, id, row, pi, now); r.Commit? ==> Accounts(b, r.value.0, FromIntent(pi))
  {
    NothingLearnt(b, FromIntent(pi));
    if Recordable(b, id, row, pi) {
      if id in b.captures {
        SavingAccounts(b, id, pi.charge, now);
      } else {
        NewAccounts(b, id, row, pi.id.value, pi.currency);
        var created := NewCapture(b, id, row, pi.id.value, pi.currency);
        if created.Commit? {
          SavingAccounts(created.value, id, pi.charge, now);
          var r := SaveCharge(created.value, id, pi.charge, now);
          if r.Commit? {
            AccountsTwice(b, created.value, r.value.0, {}, FromIntent(pi));
            assert {} + FromIntent(pi) == FromIntent(pi);
          }
        }
      }
    }
  }

  lemma AskingAccounts(b: Books, b': Books)
    requires b' == b.(requests := b'.requests, collected := b'.collected)
    ensures Accounts(b, b', {})
  {
    NothingLearnt(b, {});
    OneEntryKeepsDisputes(b, b', Entry(Adjustment, 0, 0, 0, 0));
  }

  lemma CollectingAccounts(b: Books, id: BidId, row: Bid, reply: CaptureReply, now: Time)
    ensures Accounts(b, Collect(b, id, row, reply, now).1, FromReply(reply))
  {
    NothingLearnt(b, FromReply(reply));
    if row.intent.Some? {
      var asked := b.(requests := b.requests + [CaptureRequest(id, row.intent.value)]);
      AskingAccounts(b, asked);
      MoreReports(b, asked, {}, FromReply(reply));
      if reply.Captured? {
        var paid := asked.(collected := b.collected + {row.intent.value});
        AskingAccounts(b, paid);
        MoreReports(b, paid, {}, FromReply(reply));
        RecordingAccounts(paid, id, row, reply.pi, now);
        var recorded := RecordCapture(paid, id, row, reply.pi, now);
        if recorded.Commit? {
          AccountsTwice(b, paid, recorded.value.0, {}, FromIntent(reply.pi));
          assert {} + FromIntent(reply.pi) == FromReply(reply);
        }
      }
    }
  }

  function FromMode(mode: Option<CaptureReply>): set<ChargeReport> {
    if mode.Some? then FromReply(mode.value) else {}
  }

  lemma SettlingAccounts(w: World, at: BoardId, rules: BoardRules, now: Time, mode: Option<CaptureReply>)
    requires Linked(w.game) && at in w.game.boards
    ensures var r := Settle(w, at, rules, now, mode); r.Commit? ==> Accounts(w.books, r.value.0.books, FromMode(mode))
  {
    assert BoardLinked(w.game, at);
    NothingLearnt(w.books, FromMode(mode));
    if mode.Some? && IsDue(w.game.boards[at], now) {
      var p := w.game.boards[at].pending.value;
      CollectingAccounts(w.books, p, w.game.bids[p], mode.value, now);
    }
  }

  // ----- steps -----

  lemma PlacingAccounts(w: World, bid: BidId, intent: IntentId, rules: BoardRules, now: Time, own: CaptureReply, queueUp: bool)
    requires Linked(w.game) && bid in w.game.bids
    ensures var r := PlaceChallenger(w, bid, intent, rules, now, own, queueUp); r.Commit? ==> Accounts(w.books, r.value.0.books, FromReply(own))
  {
    NothingLearnt(w.books, FromReply(own));
    ChallengeLinks(w.game, bid, Some(intent), now);
    SettlingAccounts(w.(game := Challenge(w.game, bid, Some(intent), now)), w.game.bids[bid].board, rules, now, Some(own));
  }

  lemma AuthorizingAccounts(w: World, e: EventObject, rules: BoardRules, now: Time, due: CaptureReply, own: CaptureReply, queueUp: bool)
    requires Linked(w.game)
    ensures var r := AuthorizationEvent(w, e, rules, now, due, own, queueUp);
            r.Commit? ==> Accounts(w.books, r.value.0.books, FromReply(due) + FromReply(own))
  {
    NothingLearnt(w.books, FromReply(due) + FromReply(own));
    if KnownBid(w.game, e) && e.intent.Some? {
      assert BidLinked(w.game, e.bid.value);
      var id := w.game.bids[e.bid.value].board;
      SettlingAccounts(w, id, rules, now, Some(due));
      SettleLinks(w, id, rules, now, Some(due));
      var settled := SettlePaid(w, id, rules, now, due);
      if settled.Commit? {
        PlacingAccounts(settled.value.0, e.bid.value, e.intent.value, rules, now, own, queueUp);
        var r := PlaceChallenger(settled.value.0, e.bid.value, e.intent.value, rules, now, own, queueUp);
        if r.Commit? { AccountsTwice(w.books, settled.value.0.books, r.value.0.books, FromReply(due), FromReply(own)); }
      }
    }
  }

  lemma PlacingKeepsBooks(w: World, bid: BidId, o: Offer, rules: BoardRules, now: Time)
    requires Linked(w.game) && o.board in w.game.boards && bid !in w.game.bids
    ensures var r := PlaceBid(w, bid, o, rules, now); r.Commit? ==> r.value.0.books == w.books
  {
  }

  lemma StoringTierAccounts(w: World, id: BidId, o: Offer, x: Session, s: Settings, now: Time)
    requires Linked(w.game) && o.board in w.game.boards && id !in w.game.bids
    ensures var r := PlaceCheckout(w, id, o, x, s, now); r.Commit? ==> Accounts(w.books, r.value.books, {})
  {
    NothingLearnt(w.books, {});
    var r := PlaceCheckout(w, id, o, x, s, now);
    if r.Commit? { OneEntryKeepsDisputes(w.books, r.value.books, Entry(Adjustment, 0, 0, 0, 0)); }
  }

  lemma CheckoutAccounts(s: Settings, w: World, id: BidId, o: Offer, x: Session, now: Time, due: CaptureReply)
    requires Linked(w.game) && o.board in w.game.boards && id !in w.game.bids
    ensures var r := CreateCheckout(w, id, o, x, s, now, due); r.Commit? ==> Accounts(w.books, r.value.books, FromReply(due))
  {
    SettlingAccounts(w, o.board, s.rules, now, Some(due));
    SettleLinks(w, o.board, s.rules, now, Some(due));
    var settled := SettlePaid(w, o.board, s.rules, now, due);
    if settled.Commit? {
      StoringTierAccounts(settled.value.0, id, o, x, s, now);
      var r := PlaceCheckout(settled.value.0, id, o, x, s, now);
      if r.Commit? {
        AccountsTwice(w.books, settled.value.0.books, r.value.books, FromReply(due), {});
        assert FromReply(due) + {} == FromReply(due);
      }
    }
  }

  lemma BiddingAccounts(s: Settings, w: World, step: Step, now: Time)
    requires Enabled(w, step) && (step.Checkout? || step.FreePlay? || step.FinalizeDue?)
    ensures Accounts(w.books, Apply(s, w, step, now).books, Heard(w, step))
  {
    NothingLearnt(w.books, Heard(w, step));
    match step
    case Checkout(bid, o, x, due) => CheckoutAccounts(s, w, bid, o, x, now, due);
    case FreePlay(bid, o) =>
      SettlingAccounts(w, o.board, s.rules, now, None);
      SettleLinks(w, o.board, s.rules, now, None);
      var settled := Settle(w, o.board, s.rules, now, None);
      if settled.Commit? { PlacingKeepsBooks(settled.value.0, bid, o, s.rules, now); }
    case FinalizeDue(b, expected, mode) => SettlingAccounts(w, b, s.rules, now, mode);
  }

  lemma ReconcilingAccounts(b: Books, id: BidId, reply: Option<PaymentIntent>, now: Time)
    requires id in b.captures
    ensures var r := ReconcileRow(b, id, reply, now);
            r.Commit? ==> Accounts(b, r.value.0, if reply.Some? then {ChargeReport(b.captures[id].intent, reply.value.charge)} else {})
  {
    var reports: set<ChargeReport> := if reply.Some? then {ChargeReport(b.captures[id].intent, reply.value.charge)} else {};
    NothingLearnt(b, reports);
    var c := b.captures[id];
    var tried := b.(captures := b.captures[id := c.(attempts := c.attempts + 1, attemptedAt := Some(now))]);
    if Distinct(b.captures) {
      forall p, q | p in tried.captures && q in tried.captures ensures OwnIds(tried.captures, p, q) { assert OwnIds(b.captures, p, q); }
    }
    OneEntryKeepsDisputes(b, tried, Entry(Adjustment, 0, 0, 0, 0));
    assert Accounts(b, tried, reports);
    if reply.Some? {
      SavingAccounts(tried, id, reply.value.charge, now);
      var r := SaveCharge(tried, id, reply.value.charge, now);
      if r.Commit? {
        AccountsTwice(b, tried, r.value.0, reports, reports);
        assert reports + reports == reports;
      }
    }
  }

  lemma AccountingAccounts(s: Settings, w: World, step: Step, now: Time)
    requires Enabled(w, step) && (step.PaymentSuccess? || step.ChargeUpdate? || step.Reconcile?)
    ensures Accounts(w.books, Apply(s, w, step, now).books, Heard(w, step))
  {
    NothingLearnt(w.books, Heard(w, step));
    match step
    case PaymentSuccess(bid, pi) =>
      if bid.Some? && bid.value in w.game.bids { RecordingAccounts(w.books, bid.value, w.game.bids[bid.value], pi, now); }
    case ChargeUpdate(intent, charge) =>
      if intent.Some? && intent.value.owner in w.books.captures { SavingAccounts(w.books, intent.value.owner, charge, now); }
    case Reconcile(p, reply) => ReconcilingAccounts(w.books, p, reply, now);
  }

  lemma DisputingAccounts(b: Books, id: BidId, row: Bid, amount: int, now: Time)
    ensures Accounts(b, RecordDispute(b, id, row, amount, now), {})
  {
    NothingLearnt(b, {});
    OneEntryKeepsDisputes(b, RecordDispute(b, id, row, amount, now), Entry(Chargeback, -amount, row.bidder, row.entity, id));
  }

  lemma RefundingAccounts(b: Books, id: BidId, row: Bid, amount: nat)
    ensures Accounts(b, RecordRefund(b, id, row, amount), {})
  {
    NothingLearnt(b, {});
    OneEntryKeepsDisputes(b, RecordRefund(b, id, row, amount), Entry(Refund, -(amount as int), row.bidder, row.entity, id));
  }

  lemma RemedyAccounts(s: Settings, w: World, step: Step, now: Time)
    requires Enabled(w, step) && (step.DisputeOpened? || step.EndPayment?)
    ensures Accounts(w.books, Apply(s, w, step, now).books, {})
  {
    NothingLearnt(w.books, {});
    match step
    case DisputeOpened(d, found) =>
      if found.Some? && found.value in w.game.bids {
        var row := w.game.bids[found.value];
        DisputingAccounts(w.books, found.value, row, if d.amount.Some? && d.amount.value != 0 then d.amount.value else row.amount, now);
      }
    case EndPayment(p, answer) =>
      var a := w.desk.actions[p];
      if a.amount.Some? { RefundingAccounts(w.books, p, w.game.bids[p], a.amount.value); }
  }

  /** Every step changes the books only as it was told to. */
  lemma StepAccounts(s: Settings, w: World, step: Step, now: Time)
    requires Enabled(w, step)
    ensures Accounts(w.books, Apply(s, w, step, now).books, Heard(w, step))
  {
    if step.Checkout? || step.FreePlay? || step.FinalizeDue? {
      BiddingAccounts(s, w, step, now);
    } else if step.Authorization? {
      NothingLearnt(w.books, Heard(w, step));
      AuthorizingAccounts(w, step.event, s.rules, now, step.due, step.own, step.queueUp);
    } else if step.PaymentSuccess? || step.ChargeUpdate? || step.Reconcile? {
      AccountingAccounts(s, w, step, now);
    } else if step.DisputeOpened? || step.EndPayment? {
      RemedyAccounts(s, w, step, now);
    } else {
      NothingLearnt(w.books, Heard(w, step));
    }
  }

  /**
   A snapshot becomes complete in a step only with the fee and net that the step heard for its intent, and its other
   identifiers come from what was heard as well.
   */
  lemma FeesAreAsHeard(s: Settings, w: World, step: Step, now: Time, id: BidId)
    requires Enabled(w, step) && id in Apply(s, w, step, now).books.captures
    ensures var c := Apply(s, w, step, now).books.captures[id];
            && (c.available && !(id in w.books.captures && w.books.captures[id].available) ==>
                  exists r {:trigger GivesFee(r, c)} | r in Heard(w, step) :: GivesFee(r, c))
            && (c.charge.Some? && !(id in w.books.captures && w.books.captures[id].charge == c.charge) ==>
                  exists r {:trigger GivesCharge(r, c)} | r in Heard(w, step) :: GivesCharge(r, c))
            && (c.balanceTransaction.Some? && !(id in w.books.captures && w.books.captures[id].balanceTransaction == c.balanceTransaction) ==>
                  exists r {:trigger GivesBalance(r, c)} | r in Heard(w, step) :: GivesBalance(r, c))
  {
    StepAccounts(s, w, step, now);
    assert Told(w.books.captures, Apply(s, w, step, now).books.captures, Heard(w, step), id);
  }

  // ----- runs -----

  /** In every state of every run each charge and each balance transaction belongs to one snapshot at most. */
  lemma {:induction false} IdentifiersStayDistinct(s: Settings, ws: seq<World>, ms: seq<Moment>, i: nat)
    requires IsRun(s, ws, ms) && i < |ws|
    ensures Distinct(ws[i].books.captures)
    decreases i
  {
    if i > 0 {
      IdentifiersStayDistinct(s, ws, ms, i - 1);
      assert Connects(s, ws, ms, i - 1);
      StepAccounts(s, ws[i - 1], ms[i - 1].step, ms[i - 1].at);
    }
  }

  /** Report `r` was heard in one of the first `i` steps. */
  ghost predicate HeardBefore(ws: seq<World>, ms: seq<Moment>, i: nat, r: ChargeReport) {
    exists k {:trigger ms[k]} | 0 <= k < i && k < |ms| && k < |ws| :: r in Heard(ws[k], ms[k].step)
  }

  ghost predicate FeeHeard(ws: seq<World>, ms: seq<Moment>, i: nat, c: Capture) {
    exists r {:trigger GivesFee(r, c)} :: GivesFee(r, c) && HeardBefore(ws, ms, i, r)
  }

  /** Along any run a complete snapshot carries the fee and net that the provider reported for its intent in that run. */
  lemma {:induction false} FeesWereReported(s: Settings, ws: seq<World>, ms: seq<Moment>, i: nat, id: BidId)
    requires IsRun(s, ws, ms) && i < |ws| && id in ws[i].books.captures && ws[i].books.captures[id].available
    ensures FeeHeard(ws, ms, i, ws[i].books.captures[id])
    decreases i
  {
    if i > 0 {
      assert Connects(s, ws, ms, i - 1);
      var m, before := ms[i - 1], ws[i - 1].books.captures;
      StepAccounts(s, ws[i - 1], m.step, m.at);
      assert Told(before, ws[i].books.captures, Heard(ws[i - 1], m.step), id);
      if id in before && before[id].available && before[id].fee == ws[i].books.captures[id].fee && before[id].net == ws[i].books.captures[id].net {
        FeesWereReported(s, ws, ms, i - 1, id);
        HeardEarlier(ws, ms, i, before[id], ws[i].books.captures[id]);
      } else {
        var r :| r in Heard(ws[i - 1], m.step) && GivesFee(r, ws[i].books.captures[id]);
        assert ms[i - 1] == m && HeardBefore(ws, ms, i, r);
      }
    }
  }

  lemma HeardEarlier(ws: seq<World>, ms: seq<Moment>, i: nat, c: Capture, c': Capture)
    requires i > 0 && FeeHeard(ws, ms, i - 1, c) && c'.intent == c.intent && c'.fee == c.fee && c'.net == c.net
    requires c'.gross == c.gross && c'.currency == c.currency
    ensures FeeHeard(ws, ms, i, c')
  {
    var r :| GivesFee(r, c) && HeardBefore(ws, ms, i - 1, r);
    var k :| 0 <= k < i - 1 && k < |ms| && k < |ws| && r in Heard(ws[k], ms[k].step);
    assert ms[k] == ms[k] && HeardBefore(ws, ms, i, r) && GivesFee(r, c');
  }

  /** An account under dispute stays so for the rest of the run. */
  lemma {:induction false} DisputesStayOpen(s: Settings, ws: seq<World>, ms: seq<Moment>, i: nat, j: nat, u: UserId)
    requires Follows(s, ws, ms) && i <= j < |ws| && u in ws[i].books.accounts && UnderDispute(ws[i].books, u)
    ensures u in ws[j].books.accounts && UnderDispute(ws[j].books, u)
    decreases j
  {
    if i < j {
      DisputesStayOpen(s, ws, ms, i, j - 1, u);
      assert Connects(s, ws, ms, j - 1);
      StepAccounts(s, ws[j - 1], ms[j - 1].step, ms[j - 1].at);
    }
  }

  lemma {:induction false} RunsChargeBack(s: Settings, ws: seq<World>, ms: seq<Moment>, i: nat)
    requires IsRun(s, ws, ms) && i < |ws|
    ensures AllChargedBack(ws[i].books)
    decreases i
  {
    if i > 0 {
      RunsChargeBack(s, ws, ms, i - 1);
      assert Connects(s, ws, ms, i - 1);
      StepAccounts(s, ws[i - 1], ms[i - 1].step, ms[i - 1].at);
    }
  }

  /** In every state of every run, whoever a chargeback was written against is suspended with an open dispute. */
  lemma ChargebacksSuspend(s: Settings, ws: seq<World>, ms: seq<Moment>, i: nat, k: nat)
    requires IsRun(s, ws, ms) && i < |ws| && k < |ws[i].books.ledger| && ws[i].books.ledger[k].kind == Chargeback
    ensures var b := ws[i].books;
            && b.ledger[k].user in b.accounts && b.accounts[b.ledger[k].user].suspended && b.accounts[b.ledger[k].user].openDispute
  {
    RunsChargeBack(s, ws, ms, i);
    RunsStayInOrder(s, ws, ms, i);
    var w := ws[i];
    assert ChargedBack(w.books, k) && EntryOk(w.game.bids, w.books, k) && BidLinked(w.game, w.books.ledger[k].bid);
  }
}
