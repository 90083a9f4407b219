// One concrete run, from a fresh deployment to a dispute that a refund hides, and back again.
module Scenario {
  import opened Base
  import opened Pricing
  import opened Rows
  import opened Takeovers
  import opened GameInvariant
  import opened Books
  import opened BooksInvariant
  import opened Desk
  import opened DeskInvariant
  import opened Intake
  import opened Risk
  import opened Protocol
  import opened Safety
  import opened Machine
  import opened History
  import opened Leases
  import opened Disputes
  import DeskSteps

  const INTENT := IntentId(0, 0)

  const RISK := RiskConfig(1000, 1000, 1000, 1000, 1000, 1000, 1000, 1000, 1000, 1000, 1000, 1000, true, true, 1)

  const SETTINGS := Settings(BoardRules(100, 3600, true), RISK, MailSettings(300, 60, 3600))

  const FRESH_BOARD := Board(0, None, None, 0, DEFAULT_MESSAGE, None, None, 0, true)

  const FRESH_ACCOUNT := Account(false, true, true, New, 0, 0, 0, 0, false, false, None, 0)

  /** One board, one player, one entity, nothing else. */
  const FRESH: World :=
    World(Game(map[0 := FRESH_BOARD], map[], map[], map[], map[], map[0 := Email("player", true)]),
          Books(map[0 := FRESH_ACCOUNT], map[], [], {}, []),
          Desk(map[], map[], [], [], []),
          Intake(map[], map[], map[0 := Entity(0, true)], map[]))

  const APPROVAL := Approval(0, 0, 0, "HELLO", true, 10, None)

  const OFFER := Offer(0, 0, 0, "HELLO", 1.0)

  const SESSION := Session(0, None, RiskFacts(0, 0, 0, 0), true, Some(INTENT))

  const EVENT := EventObject(Some(0), Some(INTENT))

  /** The provider captures one dollar and keeps ten cents. */
  const PAYMENT := PaymentIntent(Some(INTENT), true, None, "usd", Charge(None, Some(BalanceTransaction(None, Some(10), Some(90), Some(100), "usd"))))

  const GRANT := GrantApproval(0, APPROVAL)

  const CHECKOUT := Checkout(0, OFFER, SESSION, Declined)

  const AUTHORIZATION := Authorization(EVENT, Declined, Captured(PAYMENT), true)

  lemma FreshIsInitial()
    ensures Initial(SETTINGS, FRESH) && WorldInv(SETTINGS, FRESH)
  {
    InitialIsInOrder(SETTINGS, FRESH);
  }

  lemma Granted()
    ensures Enabled(FRESH, GRANT)
    ensures Apply(SETTINGS, FRESH, GRANT, 0) == FRESH.(intake := FRESH.intake.(approvals := map[0 := APPROVAL]))
  {
    FreshIsInitial();
  }

  const APPROVED: World := FRESH.(intake := FRESH.intake.(approvals := map[0 := APPROVAL]))

  const BID := NewBid(OFFER, 100, Some(0), None, CheckoutCreated, Some(INTENT))

  lemma Placed()
    requires WorldInv(SETTINGS, APPROVED)
    ensures var r := PlaceCheckout(APPROVED, 0, OFFER, SESSION, SETTINGS, 1);
            r.Commit? && r.value.game == APPROVED.game.(bids := map[0 := BID]) && r.value.books.captures == map[]
  {
    assert (1.0 as real).Floor == 1;
    assert UsableApproval(APPROVED.intake, 0, 0, 0, 0, "HELLO", 1);
    AllowedBidsStayWithinLimits(FRESH_ACCOUNT, RISK, 100, SESSION.facts, 1);
  }

  lemma CheckedOut()
    requires WorldInv(SETTINGS, APPROVED)
    ensures Enabled(APPROVED, CHECKOUT)
    ensures var w := Apply(SETTINGS, APPROVED, CHECKOUT, 1);
            w.game == APPROVED.game.(bids := map[0 := BID]) && w.books.captures == map[]
  {
    Placed();
  }

  /** A captured takeover whose net is known and positive. */
  predicate Refundable(w: World, p: BidId) {
    && p in w.game.bids && w.game.bids[p].intent.Some?
    && p in w.game.takeovers && w.game.takeovers[p].board == w.game.bids[p].board
    && p in w.books.captures && w.books.captures[p].available
    && NetRefund(w.game, w.books, p).Some? && NetRefund(w.game, w.books, p).value > 0
  }

  /** The board is open, so the payment is captured and the bid published at once. */
  lemma Published(w: World)
    requires Linked(w.game) && w.game == APPROVED.game.(bids := map[0 := BID]) && w.books.captures == map[]
    ensures Enabled(w, AUTHORIZATION)
    ensures var w' := Apply(SETTINGS, w, AUTHORIZATION, 2);
            Refundable(w', 0) && w'.game.bids[0].status.Won? && w'.game.cases == map[]
               && 0 in w'.game.evidence && w'.game.evidence[0].email.wellFormed
  {
    var g1 := Challenge(w.game, 0, Some(INTENT), 2);
    ChallengeLinks(w.game, 0, Some(INTENT), 2);
    var w1 := w.(game := g1);
    Settled(w1);
  }

  lemma Settled(w: World)
    requires Linked(w.game) && w.books.captures == map[] && w.game.cases == map[]
    requires w.game.boards == map[0 := FRESH_BOARD.(pending := Some(0))] && w.game.takeovers == map[] && w.game.evidence == map[]
    requires w.game.contacts == FRESH.game.contacts
    requires w.game.bids == map[0 := BID.(status := Authorized, authorizedAt := Some(2))]
    ensures var r := SettlePaid(w, 0, SETTINGS.rules, 2, Captured(PAYMENT));
            && r.Commit?
            && var w' := r.value.0;
               Refundable(w', 0) && w'.game.bids[0].status.Won? && w'.game.cases == map[]
               && 0 in w'.game.evidence && w'.game.evidence[0].email.wellFormed
  {
    var row := w.game.bids[0];
    var paid := w.books.(requests := w.books.requests + [CaptureRequest(0, INTENT)], collected := w.books.collected + {INTENT});
    var r := RecordCapture(paid, 0, row, PAYMENT, 2);
    assert r.Commit? && r.value.0.captures[0].net == Some(90);
  }

  // ----- from a takeover to a hidden dispute, whichever takeover it is -----

  lemma Reported(s: Settings, w: World, p: BidId, now: Time)
    requires Linked(w.game) && Refundable(w, p) && w.game.bids[p].status.Won? && p !in w.game.cases
    ensures Enabled(w, Report(p))
    ensures Apply(s, w, Report(p), now) == w.(game := w.game.(cases := w.game.cases[p := Case(Open, None)]))
  {
  }

  lemma Removed(s: Settings, w: World, p: BidId, now: Time)
    requires WorldInv(s, w) && Refundable(w, p) && w.game.bids[p].status.Won? && p in w.game.cases && w.game.cases[p].status.Open?
    ensures Enabled(w, Remove(p, "SPAM"))
    ensures var w' := Apply(s, w, Remove(p, "SPAM"), now);
            && Refundable(w', p) && w'.game.bids[p].status.Won? && w'.books == w.books
            && p in w'.desk.actions && w'.desk.actions[p].op.IssueRefund? && w'.desk.actions[p].status.ActionPending?
  {
    assert TakeoverLinked(w.game, p) && BidLinked(w.game, p) && BoardLinked(w.game, w.game.takeovers[p].board);
    assert BoardOk(s.rules.increment, w.game, w.game.takeovers[p].board);
    DeskSteps.QueueWorkCommits(s.rules.increment, w.game, w.books, w.desk, p, now);
  }

  lemma Disputed(s: Settings, w: World, p: BidId, n: nat, now: Time)
    requires WorldInv(s, w) && Refundable(w, p) && forall q | q in w.game.bids :: w.game.bids[q].dispute != Some(n)
    ensures var step := DisputeOpened(Dispute(Some(n), Some(w.books.captures[p].intent), None, None), Some(p));
            && Enabled(w, step) && Contests(w.game, step, p)
            && var w' := Apply(s, w, step, now);
               w'.desk == w.desk && p in w'.game.bids && w'.game.bids[p].status.Disputed? && p in w'.books.captures
               && w'.books.captures == w.books.captures && w'.game.bids[p].amount == w.game.bids[p].amount
  {
    assert CaptureOk(w.game.bids, w.books, p);
  }

  /** No mail worker has been at work. */
  predicate Unmailed(ms: seq<Moment>) {
    forall k | 0 <= k < |ms| :: !MovesMail(ms[k].step)
  }

  /** One more step. */
  lemma Onward(s: Settings, ws: seq<World>, ms: seq<Moment>, m: Moment) returns (vs: seq<World>, ns: seq<Moment>)
    requires IsRun(s, ws, ms) && Enabled(ws[|ms|], m.step)
    ensures Unmailed(ms) && !MovesMail(m.step) ==> Unmailed(ns)
    ensures vs == ws + [Apply(s, ws[|ms|], m.step, m.at)] && ns == ms + [m] && IsRun(s, vs, ns)
  {
    Extended(s, ws, ms, m);
    vs, ns := ws + [Apply(s, ws[|ms|], m.step, m.at)], ms + [m];
  }

  lemma CheckoutRun() returns (ws: seq<World>, ms: seq<Moment>)
    ensures IsRun(SETTINGS, ws, ms) && |ms| == 2 && Unmailed(ms)
    ensures ws[2].game == APPROVED.game.(bids := map[0 := BID]) && ws[2].books.captures == map[]
  {
    FreshIsInitial();
    ws, ms := [FRESH], [];
    Granted();
    ws, ms := Onward(SETTINGS, ws, ms, Moment(GRANT, 0));
    RunsStayInOrder(SETTINGS, ws, ms, 1);
    CheckedOut();
    ws, ms := Onward(SETTINGS, ws, ms, Moment(CHECKOUT, 1));
  }

  lemma TakeoverRun() returns (ws: seq<World>, ms: seq<Moment>)
    ensures IsRun(SETTINGS, ws, ms) && |ms| == 3 && Unmailed(ms)
    ensures Refundable(ws[3], 0) && ws[3].game.bids[0].status.Won? && ws[3].game.cases == map[]
    ensures 0 in ws[3].game.evidence && ws[3].game.evidence[0].email.wellFormed
  {
    ws, ms := CheckoutRun();
    assert Linked(ws[2].game) by { RunsStayInOrder(SETTINGS, ws, ms, 2); }
    Published(ws[2]);
    ws, ms := Onward(SETTINGS, ws, ms, Moment(AUTHORIZATION, 2));
  }

  lemma ReportedRun(s: Settings, ws: seq<World>, ms: seq<Moment>, p: BidId, now: Time) returns (vs: seq<World>, ns: seq<Moment>)
    requires IsRun(s, ws, ms) && Refundable(ws[|ms|], p) && ws[|ms|].game.bids[p].status.Won? && p !in ws[|ms|].game.cases
    ensures IsRun(s, vs, ns) && |ns| == |ms| + 1 && ws <= vs && (Unmailed(ms) ==> Unmailed(ns))
    ensures Refundable(vs[|ns|], p) && vs[|ns|].game.bids[p].status.Won?
    ensures p in vs[|ns|].game.cases && vs[|ns|].game.cases[p].status.Open?
  {
    assert Linked(ws[|ms|].game) by { RunsStayInOrder(s, ws, ms, |ms|); }
    Reported(s, ws[|ms|], p, now);
    vs, ns := Onward(s, ws, ms, Moment(Report(p), now));
  }

  lemma RemovedRun(s: Settings, ws: seq<World>, ms: seq<Moment>, p: BidId, now: Time) returns (vs: seq<World>, ns: seq<Moment>)
    requires IsRun(s, ws, ms) && Refundable(ws[|ms|], p) && ws[|ms|].game.bids[p].status.Won? && p !in ws[|ms|].game.cases
    ensures IsRun(s, vs, ns) && |ns| == |ms| + 2 && ws <= vs && (Unmailed(ms) ==> Unmailed(ns))
    ensures Refundable(vs[|ns|], p) && p in vs[|ns|].desk.actions
    ensures vs[|ns|].desk.actions[p].op.IssueRefund? && vs[|ns|].desk.actions[p].status.ActionPending?
  {
    vs, ns := ReportedRun(s, ws, ms, p, now);
    RunsStayInOrder(s, vs, ns, |ns|);
    Removed(s, vs[|ns|], p, now);
    vs, ns := Onward(s, vs, ns, Moment(Remove(p, "SPAM"), now));
  }

  lemma DisputedRun(s: Settings, ws: seq<World>, ms: seq<Moment>, p: BidId, now: Time) returns (vs: seq<World>, ns: seq<Moment>)
    requires IsRun(s, ws, ms) && Refundable(ws[|ms|], p) && ws[|ms|].game.bids[p].status.Won? && p !in ws[|ms|].game.cases
    ensures IsRun(s, vs, ns) && |ns| == |ms| + 3 && ws <= vs && (Unmailed(ms) ==> Unmailed(ns))
    ensures Contested(vs[|ns|], p) && Hideable(vs[|ns|], p) && vs[|ns|].books.captures[p].available
    ensures vs[|ns|].desk.actions[p].status.ActionPending?
  {
    vs, ns := RemovedRun(s, ws, ms, p, now);
    var w := vs[|ns|];
    var n := UnusedDispute(w.game.bids);
    RunsStayInOrder(s, vs, ns, |ns|);
    Disputed(s, w, p, n, now);
    vs, ns := Onward(s, vs, ns, Moment(DisputeOpened(Dispute(Some(n), Some(w.books.captures[p].intent), None, None), Some(p)), now));
  }

  lemma BegunRun(s: Settings, ws: seq<World>, ms: seq<Moment>, p: BidId, now: Time) returns (vs: seq<World>, ns: seq<Moment>)
    requires IsRun(s, ws, ms) && Contested(ws[|ms|], p) && Hideable(ws[|ms|], p) && ws[|ms|].books.captures[p].available
    requires ws[|ms|].desk.actions[p].status.ActionPending?
    ensures IsRun(s, vs, ns) && |ns| == |ms| + 1 && ws <= vs && (Unmailed(ms) ==> Unmailed(ns))
    ensures p in vs[|ns|].game.bids && p in vs[|ns|].desk.actions
    ensures vs[|ns|].desk.actions[p].op.IssueRefund? && vs[|ns|].desk.actions[p].status.ActionProcessing?
  {
    RunsStayInOrder(s, ws, ms, |ms|);
    RefundBegins(s, ws[|ms|], p, now);
    vs, ns := Onward(s, ws, ms, Moment(BeginPayment(p), now));
  }

  lemma HiddenRun(s: Settings, ws: seq<World>, ms: seq<Moment>, p: BidId, now: Time) returns (vs: seq<World>, ns: seq<Moment>)
    requires IsRun(s, ws, ms) && Contested(ws[|ms|], p) && Hideable(ws[|ms|], p) && ws[|ms|].books.captures[p].available
    requires ws[|ms|].desk.actions[p].status.ActionPending?
    ensures IsRun(s, vs, ns) && |ns| == |ms| + 2 && ws <= vs && (Unmailed(ms) ==> Unmailed(ns))
    ensures p in vs[|ns|].game.bids && vs[|ns|].game.bids[p].status.Refunded?
    ensures p in vs[|ns|].desk.actions && vs[|ns|].desk.actions[p].op.IssueRefund? && vs[|ns|].desk.actions[p].status.ActionSucceeded?
  {
    vs, ns := BegunRun(s, ws, ms, p, now);
    RunsStayInOrder(s, vs, ns, |ns|);
    RefundEnds(s, vs[|ns|], p, "REFUND", now);
    vs, ns := Onward(s, vs, ns, Moment(EndPayment(p, Some("REFUND")), now));
  }

  /**
   A run of nine steps from a fresh deployment: a board is taken, reported, removed and disputed; the refund that
   was promised at the removal is paid out on the disputed bid; and a second dispute raises it again.
   */
  lemma RefundAndDisputeAlternate() returns (ws: seq<World>, ms: seq<Moment>)
    ensures IsRun(SETTINGS, ws, ms) && |ms| == 9
    ensures 0 in ws[6].game.bids && ws[6].game.bids[0].status.Disputed?
    ensures 0 in ws[8].game.bids && ws[8].game.bids[0].status.Refunded?
    ensures 0 in ws[9].game.bids && ws[9].game.bids[0].status.Disputed?
  {
    ws, ms := TakeoverRun();
    ws, ms := DisputedRun(SETTINGS, ws, ms, 0, 3);
    ws, ms := HiddenRun(SETTINGS, ws, ms, 0, 4);
    var step := RefundCanBeContested(SETTINGS, ws, ms, |ms|, 0, 5);
    ws, ms := Onward(SETTINGS, ws, ms, Moment(step, 5));
  }

  // ----- a lost delivery -----

  lemma {:induction false} NobodyMailed(s: Settings, ws: seq<World>, ms: seq<Moment>, i: nat)
    requires IsRun(s, ws, ms) && i < |ws| && Unmailed(ms)
    ensures ws[i].desk.mail == [] && ws[i].desk.sends == []
    ensures forall c | c in ws[i].desk.notices :: ws[i].desk.notices[c].status.NoticePending?
    decreases i
  {
    if i > 0 {
      NobodyMailed(s, ws, ms, i - 1);
      RunMovesMail(s, ws, ms, i);
    }
  }

  /** The notice of a refunded takeover whose owner can be written to may go out. */
  lemma NoticeIsReady(s: Settings, ws: seq<World>, ms: seq<Moment>, p: BidId)
    requires IsRun(s, ws, ms) && Unmailed(ms)
    requires p in ws[|ms|].desk.actions && ws[|ms|].desk.actions[p].op.IssueRefund? && ws[|ms|].desk.actions[p].status.ActionSucceeded?
    requires p in ws[|ms|].game.evidence && ws[|ms|].game.evidence[p].email.wellFormed
    ensures p in ws[|ms|].desk.notices && Claimable(ws[|ms|].desk.notices[p], s.mail, ws[|ms|].desk.notices[p].availableAt)
  {
    var w := ws[|ms|];
    RunsStayInOrder(s, ws, ms, |ms|);
    NobodyMailed(s, ws, ms, |ms|);
    assert ActionOk(w.game, w.books, w.desk, p) && CaseOk(w.game, w.desk, p);
    assert NoticeOk(w.game, w.books, w.desk, p);
  }

  lemma Joined(s: Settings, ws: seq<World>, ms: seq<Moment>, cs: seq<World>, cms: seq<Moment>)
    requires IsRun(s, ws, ms) && Follows(s, cs, cms) && cs[0] == ws[|ms|]
    ensures IsRun(s, ws + cs[1..], ms + cms)
    ensures forall k | 0 <= k < |cs| :: (ws + cs[1..])[|ms| + k] == cs[k]
  {
    var vs, ns := ws + cs[1..], ms + cms;
    forall i | 0 <= i < |ns| ensures Connects(s, vs, ns, i) {
      if i < |ms| { assert Connects(s, ws, ms, i); } else { assert Connects(s, cs, cms, i - |ms|); }
    }
  }

  lemma RefundedRun() returns (ws: seq<World>, ms: seq<Moment>)
    ensures IsRun(SETTINGS, ws, ms) && |ms| == 8 && Unmailed(ms)
    ensures 0 in ws[8].desk.actions && ws[8].desk.actions[0].op.IssueRefund? && ws[8].desk.actions[0].status.ActionSucceeded?
    ensures 0 in ws[8].game.evidence && ws[8].game.evidence[0].email.wellFormed
  {
    ws, ms := TakeoverRun();
    var w3 := ws[3];
    ws, ms := DisputedRun(SETTINGS, ws, ms, 0, 3);
    ws, ms := HiddenRun(SETTINGS, ws, ms, 0, 4);
    assert ws[3] == w3;
    RunsAge(SETTINGS, ws, ms, 3, 8);
    assert EvidenceAges(ws[3].game, ws[8].game, 0);
  }

  /**
   A run of thirteen steps in which the mail provider accepts a notice and the outbox never learns of it: the
   delivery is answered after a late failure, is not recorded, and the notice is sent a third time.
   */
  lemma ADeliveryIsLost() returns (ws: seq<World>, ms: seq<Moment>)
    ensures IsRun(SETTINGS, ws, ms) && |ms| == 13
    ensures var d := ws[12].desk;
            && |d.mail| == 4 && d.mail[2] == Answered(0, 0, Refused, true, d.mail[2].at)
            && d.mail[3] == Answered(0, 1, Delivered, false, d.mail[3].at)
            && 0 in d.notices && d.notices[0].status.NoticeFailed?
    ensures |ws[13].desk.sends| == 3
  {
    ws, ms := RefundedRun();
    NoticeIsReady(SETTINGS, ws, ms, 0);
    NobodyMailed(SETTINGS, ws, ms, 8);
    RunsStayInOrder(SETTINGS, ws, ms, 8);
    RunsKeepMail(SETTINGS, ws, ms, 8);
    var first := ws[8].desk.notices[0].availableAt;
    var second := first + 301 * SECOND;
    var cs, cms := LateFailureLosesASuccess(SETTINGS, ws[8], 0, first, second, second, second, second + 3600 * SECOND);
    Joined(SETTINGS, ws, ms, cs, cms);
    assert ws[8].desk.mail == [];
    ws, ms := ws + cs[1..], ms + cms;
    assert ws[12] == cs[4] && ws[13] == cs[5];
  }
}
