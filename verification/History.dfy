// What no step ever takes back: bids only move forward, and everything recorded stays recorded.
module History {
  import opened Base
  import opened Pricing
  import opened Rows
  import opened Takeovers
  import opened GameInvariant
  import opened GameSteps
  import opened Books
  import opened BooksInvariant
  import opened BooksSteps
  import opened Desk
  import opened DeskInvariant
  import opened DeskSteps
  import opened Intake
  import opened Risk
  import opened Protocol
  import opened Safety
  import opened SafetySteps
  import opened EventSteps
  import opened Machine
  import opened Display

  // ----- what may follow what -----

  predicate Undecided(s: BidStatus) {
    s.Created? || s.ModerationApproved? || s.CheckoutCreated? || s.Processing?
  }

  /** Refunds and disputes may follow each other in either order; everything else is one way. */
  predicate MovesForward(a: BidStatus, b: BidStatus) {
    a == b || match a {
      case Created | ModerationApproved | CheckoutCreated | Processing => !Undecided(b)
      case Authorized => b.Won? || b.DemoWon? || b.Refunded? || b.Disputed? || b.AuthCanceled? || b.PaymentFailed?
      case Won => b.Refunded? || b.Disputed?
      case Refunded => b.Disputed?
      case Disputed => b.Refunded?
      case _ => false
    }
  }

  ghost predicate BidAges(g: Game, g': Game, p: BidId)
    requires p in g.bids
  {
    p in g'.bids && SameBid(g'.bids[p], g.bids[p]) && MovesForward(g.bids[p].status, g'.bids[p].status)
  }

  ghost predicate TakeoverStays(g: Game, g': Game, t: BidId)
    requires t in g.takeovers
  {
    t in g'.takeovers && g'.takeovers[t] == g.takeovers[t]
  }

  /** The end of a delivery is written once; nothing else in a record changes. */
  ghost predicate EvidenceAges(g: Game, g': Game, e: BidId)
    requires e in g.evidence
  {
    && e in g'.evidence
    && (g'.evidence[e] == g.evidence[e]
        || (g.evidence[e].endedAt.None? && g'.evidence[e] == g.evidence[e].(endedAt := g'.evidence[e].endedAt)))
  }

  /** A decision on a case is final. */
  ghost predicate CaseAges(g: Game, g': Game, c: BidId)
    requires c in g.cases
  {
    c in g'.cases && (g.cases[c].status.Open? || g'.cases[c] == g.cases[c])
  }

  ghost predicate BoardAges(g: Game, g': Game, b: BoardId)
    requires b in g.boards
  {
    && b in g'.boards && g'.boards[b].competition == g.boards[b].competition && g'.boards[b].version >= g.boards[b].version
    && g'.boards[b].biddingEnabled == g.boards[b].biddingEnabled
  }

  ghost predicate GameAges(g: Game, g': Game) {
    && g'.contacts == g.contacts && g'.boards.Keys == g.boards.Keys
    && (forall p {:trigger BidAges(g, g', p)} | p in g.bids :: BidAges(g, g', p))
    && (forall t {:trigger TakeoverStays(g, g', t)} | t in g.takeovers :: TakeoverStays(g, g', t))
    && (forall e {:trigger EvidenceAges(g, g', e)} | e in g.evidence :: EvidenceAges(g, g', e))
    && (forall c {:trigger CaseAges(g, g', c)} | c in g.cases :: CaseAges(g, g', c))
    && (forall b {:trigger BoardAges(g, g', b)} | b in g.boards :: BoardAges(g, g', b))
  }

  lemma GameAgesTransitive(a: Game, b: Game, c: Game)
    requires GameAges(a, b) && GameAges(b, c)
    ensures GameAges(a, c)
  {
    forall p | p in a.bids ensures BidAges(a, c, p) { assert BidAges(a, b, p) && BidAges(b, c, p); }
    forall t | t in a.takeovers ensures TakeoverStays(a, c, t) { assert TakeoverStays(a, b, t) && TakeoverStays(b, c, t); }
    forall e | e in a.evidence ensures EvidenceAges(a, c, e) { assert EvidenceAges(a, b, e) && EvidenceAges(b, c, e); }
    forall x | x in a.cases ensures CaseAges(a, c, x) { assert CaseAges(a, b, x) && CaseAges(b, c, x); }
    forall x | x in a.boards ensures BoardAges(a, c, x) { assert BoardAges(a, b, x) && BoardAges(b, c, x); }
  }

  /** Settled actions and delivered notices are never touched again; requests are never forgotten. */
  ghost predicate ActionAges(d: Desk, d': Desk, a: BidId)
    requires a in d.actions
  {
    && a in d'.actions
    && var row, row' := d.actions[a], d'.actions[a];
    && row'.caseOf == row.caseOf && row'.op == row.op && row'.attempts >= row.attempts
    && (row.status.ActionSucceeded? || row.status.ActionNotRequired? ==> row' == row)
  }

  ghost predicate NoticeAges(d: Desk, d': Desk, c: BidId)
    requires c in d.notices
  {
    && c in d'.notices
    && var row, row' := d.notices[c], d'.notices[c];
    && row'.recipient == row.recipient && row'.attempts >= row.attempts
    && (row.status.Sent? || row.status.Suppressed? ==> row' == row)
  }

  ghost predicate DeskAges(d: Desk, d': Desk) {
    && d.calls <= d'.calls && d.sends <= d'.sends && d.mail <= d'.mail
    && (forall a {:trigger ActionAges(d, d', a)} | a in d.actions :: ActionAges(d, d', a))
    && (forall c {:trigger NoticeAges(d, d', c)} | c in d.notices :: NoticeAges(d, d', c))
  }

  lemma DeskAgesTransitive(a: Desk, b: Desk, c: Desk)
    requires DeskAges(a, b) && DeskAges(b, c)
    ensures DeskAges(a, c)
  {
    forall x | x in a.actions ensures ActionAges(a, c, x) { assert ActionAges(a, b, x) && ActionAges(b, c, x); }
    forall x | x in a.notices ensures NoticeAges(a, c, x) { assert NoticeAges(a, b, x) && NoticeAges(b, c, x); }
  }

  /** One-time inputs are used up once, and the reset of a window is recorded once. */
  ghost predicate ApprovalAges(t: Intake, t': Intake, a: nat)
    requires a in t.approvals
  {
    a in t'.approvals && (t.approvals[a].consumedAt.Some? ==> t'.approvals[a] == t.approvals[a])
  }

  ghost predicate ConfirmationAges(t: Intake, t': Intake, c: nat)
    requires c in t.confirmations
  {
    c in t'.confirmations && (t.confirmations[c].consumedAt.Some? ==> t'.confirmations[c] == t.confirmations[c])
  }

  ghost predicate PeriodAges(t: Intake, t': Intake, k: PeriodKey)
    requires k in t.periods
  {
    && k in t'.periods && t'.periods[k].startsAt == t.periods[k].startsAt && t'.periods[k].endsAt == t.periods[k].endsAt
    && (t.periods[k].resetCompletedAt.Some? ==> t'.periods[k].resetCompletedAt == t.periods[k].resetCompletedAt)
  }

  ghost predicate IntakeAges(t: Intake, t': Intake) {
    && t'.entities == t.entities
    && (forall a {:trigger ApprovalAges(t, t', a)} | a in t.approvals :: ApprovalAges(t, t', a))
    && (forall c {:trigger ConfirmationAges(t, t', c)} | c in t.confirmations :: ConfirmationAges(t, t', c))
    && (forall k {:trigger PeriodAges(t, t', k)} | k in t.periods :: PeriodAges(t, t', k))
  }

  lemma IntakeAgesTransitive(a: Intake, b: Intake, c: Intake)
    requires IntakeAges(a, b) && IntakeAges(b, c)
    ensures IntakeAges(a, c)
  {
    forall x | x in a.approvals ensures ApprovalAges(a, c, x) { assert ApprovalAges(a, b, x) && ApprovalAges(b, c, x); }
    forall x | x in a.confirmations ensures ConfirmationAges(a, c, x) { assert ConfirmationAges(a, b, x) && ConfirmationAges(b, c, x); }
    forall k | k in a.periods ensures PeriodAges(a, c, k) { assert PeriodAges(a, b, k) && PeriodAges(b, c, k); }
  }

  ghost predicate Ages(w: World, w': World) {
    GameAges(w.game, w'.game) && Grows(w.books, w'.books) && DeskAges(w.desk, w'.desk) && IntakeAges(w.intake, w'.intake)
  }

  lemma AgesTransitive(a: World, b: World, c: World)
    requires Ages(a, b) && Ages(b, c)
    ensures Ages(a, c)
  {
    GameAgesTransitive(a.game, b.game, c.game);
    GrowsTransitive(a.books, b.books, c.books);
    DeskAgesTransitive(a.desk, b.desk, c.desk);
    IntakeAgesTransitive(a.intake, b.intake, c.intake);
  }

  lemma NothingAges(w: World)
    ensures Ages(w, w)
  {
  }

  lemma OnlyGameAges(w: World, g': Game)
    requires GameAges(w.game, g')
    ensures Ages(w, w.(game := g'))
  {
    NothingAges(w);
  }

  lemma OnlyDeskAges(w: World, d': Desk)
    requires DeskAges(w.desk, d')
    ensures Ages(w, w.(desk := d'))
  {
    NothingAges(w);
  }

  lemma OnlyIntakeAges(w: World, t': Intake)
    requires IntakeAges(w.intake, t')
    ensures Ages(w, w.(intake := t'))
  {
    NothingAges(w);
  }

  // ----- the game tables -----

  /** Rewriting some bids and boards, with nothing published or decided. */
  lemma RewritingAges(g: Game, bids: map<BidId, Bid>, boards: map<BoardId, Board>)
    requires g.bids.Keys <= bids.Keys && boards.Keys == g.boards.Keys
    requires forall p {:trigger bids[p]} | p in g.bids ::
               SameBid(bids[p], g.bids[p]) && MovesForward(g.bids[p].status, bids[p].status)
    requires forall b {:trigger boards[b]} | b in g.boards ::
               && boards[b].competition == g.boards[b].competition && boards[b].version >= g.boards[b].version
               && boards[b].biddingEnabled == g.boards[b].biddingEnabled
    ensures GameAges(g, g.(bids := bids, boards := boards))
  {
  }

  lemma WinAges(inc: nat, g: Game, id: BoardId, bid: BidId, rules: BoardRules, now: Time, paid: bool)
    requires GameInv(inc, g) && MayWin(inc, g, id, bid, now)
    requires MovesForward(g.bids[bid].status, if paid then Won else DemoWon)
    ensures var r := Win(g, id, bid, rules, now, paid); r.Commit? && GameAges(g, r.value)
  {
    WinCommits(inc, g, id, bid, rules, now, paid);
  }

  lemma FailingAges(inc: nat, g: Game, id: BoardId, rules: BoardRules, now: Time)
    requires GameInv(inc, g) && id in g.boards && IsDue(g.boards[id], now)
    ensures var r := FinalizeLocked(g, id, rules, now, Paid(false)); r.Commit? && GameAges(g, r.value.0)
  {
    assert BoardOk(inc, g, id);
    var g' := FinalizeLocked(g, id, rules, now, Paid(false)).value.0;
    RewritingAges(g, g'.bids, g'.boards);
    assert g.(bids := g'.bids, boards := g'.boards) == g';
  }

  lemma FinalizeAges(inc: nat, g: Game, id: BoardId, rules: BoardRules, now: Time, mode: CaptureMode)
    requires GameInv(inc, g) && id in g.boards
    ensures var r := FinalizeLocked(g, id, rules, now, mode); r.Commit? && GameAges(g, r.value.0)
  {
    assert BoardOk(inc, g, id);
    if IsDue(g.boards[id], now) {
      if mode == Paid(false) {
        FailingAges(inc, g, id, rules, now);
      } else {
        WinAges(inc, g, id, g.boards[id].pending.value, rules, now, mode.Paid?);
      }
    }
  }

  lemma ChallengeAges(inc: nat, g: Game, bid: BidId, intent: Option<IntentId>, now: Time)
    requires GameInv(inc, g) && bid in g.bids && Undecided(g.bids[bid].status)
    ensures GameAges(g, Challenge(g, bid, intent, now))
  {
    assert BidLinked(g, bid) && BoardLinked(g, g.bids[bid].board);
    var g' := Challenge(g, bid, intent, now);
    RewritingAges(g, g'.bids, g'.boards);
    assert g.(bids := g'.bids, boards := g'.boards) == g';
  }

  lemma RemovalAges(g: Game, bid: BidId, now: Time)
    requires Linked(g) && bid in g.cases && g.cases[bid].status.Open?
    ensures GameAges(g, RemoveTakeover(g, bid, now))
  {
    assert TakeoverLinked(g, bid) && BoardLinked(g, g.takeovers[bid].board);
  }

  lemma ResetBoardAges(g: Game, id: BoardId, releases: Releases, now: Time)
    requires Linked(g) && id in g.boards
    ensures var r := ResetBoard(g, id, releases, now); r.Commit? ==> GameAges(g, r.value)
  {
    var r := ResetBoard(g, id, releases, now);
    if r.Commit? {
      assert BoardLinked(g, id);
      RewritingAges(g, r.value.bids, r.value.boards);
      assert g.(bids := r.value.bids, boards := r.value.boards) == r.value;
    }
  }

  lemma {:induction false} ResetAges(g: Game, ids: seq<BoardId>, releases: Releases, now: Time)
    requires Linked(g) && forall i | 0 <= i < |ids| :: ids[i] in g.boards
    ensures var r := ResetBoards(g, ids, releases, now); r.Commit? ==> GameAges(g, r.value)
    decreases |ids|
  {
    if ids != [] && ResetBoards(g, ids, releases, now).Commit? {
      var last := |ids| - 1;
      ResetAges(g, ids[..last], releases, now);
      var g1 := ResetBoards(g, ids[..last], releases, now).value;
      ResetBoardAges(g1, ids[last], releases, now);
      GameAgesTransitive(g, g1, ResetBoard(g1, ids[last], releases, now).value);
    }
  }

  /** A bid whose payment was captured is published, and not as free play. */
  lemma CapturedIsPublished(s: Settings, w: World, p: BidId)
    requires CoreInv(s, w) && p in w.books.captures
    ensures p in w.game.takeovers && p in w.game.bids
    ensures var status := w.game.bids[p].status; status.Won? || status.Refunded? || status.Disputed?
  {
    assert CaptureOk(w.game.bids, w.books, p);
    assert CollectedOk(w.game, w.books.captures[p].intent) && StatusOk(w.game, p);
  }

  // ----- steps -----

  lemma CollectGrows(s: Settings, w: World, bid: BidId, reply: CaptureReply, now: Time)
    requires CoreInv(s, w) && bid in w.game.bids && HonestReply(w.game.bids[bid], reply)
    ensures Grows(w.books, Collect(w.books, bid, w.game.bids[bid], reply, now).1)
  {
    assert OwnIntent(w.game, bid);
    CollectKeepsBooks(w.game.bids, w.books, bid, reply, now);
  }

  lemma SettleAges(s: Settings, w: World, id: BoardId, now: Time, mode: Option<CaptureReply>)
    requires CoreInv(s, w) && id in w.game.boards && (mode.Some? ==> HonestFor(w.game, id, mode.value))
    ensures var r := Settle(w, id, s.rules, now, mode); r.Commit? && Ages(w, r.value.0)
  {
    NothingAges(w);
    assert BoardOk(s.rules.increment, w.game, id);
    if mode.Some? && IsDue(w.game.boards[id], now) {
      var bid := w.game.boards[id].pending.value;
      var captured := Collect(w.books, bid, w.game.bids[bid], mode.value, now).0;
      CollectGrows(s, w, bid, mode.value, now);
      FinalizeAges(s.rules.increment, w.game, id, s.rules, now, Paid(captured));
    } else {
      FinalizeAges(s.rules.increment, w.game, id, s.rules, now, CaptureMode.FreePlay);
    }
  }

  lemma AccountsGrow(b: Books, accounts: map<UserId, Account>)
    requires accounts.Keys == b.accounts.Keys
    ensures Grows(b, b.(accounts := accounts))
  {
  }

  lemma EnsureActiveAges(t: Intake, competition: CompetitionId, now: Time)
    ensures IntakeAges(t, t.(periods := EnsureActive(t.periods, competition, now)))
  {
  }

  lemma ConsumingAges(w: World, o: Offer, x: Session, now: Time)
    requires o.user in w.books.accounts && x.approval in w.intake.approvals && o.board in w.game.boards
    requires w.intake.approvals[x.approval].consumedAt.None?
    requires x.confirmation.Some? ==>
               x.confirmation.value in w.intake.confirmations && w.intake.confirmations[x.confirmation.value].consumedAt.None?
    ensures Ages(w, ConsumeInputs(w, o, x, now))
  {
    var w' := ConsumeInputs(w, o, x, now);
    AccountsGrow(w.books, w'.books.accounts);
    var twice := UsedInputs(w.intake, x, now);
    UsingInputsAges(w.intake, x, now);
    EnsureActiveAges(twice, w.game.boards[o.board].competition, now);
    IntakeAgesTransitive(w.intake, twice, w'.intake);
    NothingAges(w);
  }

  function UsedInputs(t: Intake, x: Session, now: Time): Intake
    requires x.approval in t.approvals && (x.confirmation.Some? ==> x.confirmation.value in t.confirmations)
  {
    var once := ConsumeApproval(t, x.approval, now);
    if x.confirmation.Some? then ConsumeConfirmation(once, x.confirmation.value, now) else once
  }

  lemma UsingInputsAges(t: Intake, x: Session, now: Time)
    requires x.approval in t.approvals && t.approvals[x.approval].consumedAt.None?
    requires x.confirmation.Some? ==> x.confirmation.value in t.confirmations && t.confirmations[x.confirmation.value].consumedAt.None?
    ensures IntakeAges(t, UsedInputs(t, x, now))
  {
  }

  lemma NewBidAges(w: World, id: BidId, row: Bid)
    requires id !in w.game.bids
    ensures Ages(w, w.(game := w.game.(bids := w.game.bids[id := row])))
  {
    RewritingAges(w.game, w.game.bids[id := row], w.game.boards);
    OnlyGameAges(w, w.game.(bids := w.game.bids[id := row]));
  }

  lemma PlaceCheckoutAges(s: Settings, w: World, id: BidId, o: Offer, x: Session, now: Time)
    requires Linked(w.game) && o.board in w.game.boards && id !in w.game.bids
    ensures var r := PlaceCheckout(w, id, o, x, s, now); r.Commit? ==> Ages(w, r.value)
  {
    var r := PlaceCheckout(w, id, o, x, s, now);
    if r.Commit? {
      ConsumingAges(w, o, x, now);
      var w1 := ConsumeInputs(w, o, x, now);
      NewBidAges(w1, id, r.value.game.bids[id]);
      AgesTransitive(w, w1, r.value);
    }
  }

  lemma CheckoutAges(s: Settings, w: World, id: BidId, o: Offer, x: Session, now: Time, due: CaptureReply)
    requires WorldInv(s, w) && o.board in w.game.boards && id !in w.game.bids && HonestFor(w.game, o.board, due)
    ensures var r := CreateCheckout(w, id, o, x, s, now, due); r.Commit? ==> Ages(w, r.value)
  {
    SettleAges(s, w, o.board, now, Some(due));
    SettlePaidKeepsCore(s, w, o.board, now, due);
    SettleLinks(w, o.board, s.rules, now, Some(due));
    var w1 := SettlePaid(w, o.board, s.rules, now, due).value.0;
    PlaceCheckoutAges(s, w1, id, o, x, now);
    var r := CreateCheckout(w, id, o, x, s, now, due);
    if r.Commit? { AgesTransitive(w, w1, r.value); }
  }

  lemma PlaceFreePlayAges(s: Settings, w: World, id: BidId, now: Time)
    requires WorldInv(s, w) && MayCompete(s, w.game, id) && Undecided(w.game.bids[id].status)
    requires !IsDue(w.game.boards[w.game.bids[id].board], now)
    ensures var r := PlaceFreePlay(w, id, s.rules, now); r.Commit? ==> Ages(w, r.value.0)
  {
    var b := w.game.bids[id].board;
    if Protected(w.game.boards[b], now) {
      ChallengeAges(s.rules.increment, w.game, id, None, now);
      OnlyGameAges(w, Challenge(w.game, id, None, now));
    } else {
      assert BoardOk(s.rules.increment, w.game, b) && WaitsBehind(w.game, b);
      WinAges(s.rules.increment, w.game, b, id, s.rules, now, false);
      OnlyGameAges(w, Win(w.game, b, id, s.rules, now, false).value);
    }
  }

  lemma AddedBidAges(s: Settings, w: World, id: BidId, row: Bid, competition: CompetitionId, now: Time)
    requires id !in w.game.bids
    ensures Ages(w, w.(game := w.game.(bids := w.game.bids[id := row]),
                       intake := w.intake.(periods := EnsureActive(w.intake.periods, competition, now))))
  {
    var w1 := w.(game := w.game.(bids := w.game.bids[id := row]));
    NewBidAges(w, id, row);
    EnsureActiveAges(w1.intake, competition, now);
    OnlyIntakeAges(w1, w1.intake.(periods := EnsureActive(w1.intake.periods, competition, now)));
    AgesTransitive(w, w1, w1.(intake := w1.intake.(periods := EnsureActive(w1.intake.periods, competition, now))));
  }

  lemma PlaceBidAges(s: Settings, w: World, id: BidId, o: Offer, now: Time)
    requires WorldInv(s, w) && o.board in w.game.boards && id !in w.game.bids && !IsDue(w.game.boards[o.board], now)
    ensures var r := PlaceBid(w, id, o, s.rules, now); r.Commit? ==> Ages(w, r.value.0)
  {
    var priced := PriceOffer(w, o, s.rules);
    if priced.Commit? && CheckPlayer(w, o.user).Commit? {
      var row := NewBid(o, priced.value, None, None, Created, None);
      var competition := w.game.boards[o.board].competition;
      ClearsPriceIffBeatsBoth(priced.value, w.game.boards[o.board].amount, s.rules, PendingAmount(w.game, o.board));
      AddFreePlayKeepsInv(s, w, id, row, competition, now);
      AddedBidAges(s, w, id, row, competition, now);
      PlaceAddedBidAges(s, w, id, o, row, now);
    }
  }

  lemma PlaceAddedBidAges(s: Settings, w: World, id: BidId, o: Offer, row: Bid, now: Time)
    requires Linked(w.game) && o.board in w.game.boards && id !in w.game.bids && !IsDue(w.game.boards[o.board], now)
    requires PriceOffer(w, o, s.rules).Commit? && CheckPlayer(w, o.user).Commit?
    requires row == NewBid(o, PriceOffer(w, o, s.rules).value, None, None, Created, None)
    requires var w2 := w.(game := w.game.(bids := w.game.bids[id := row]),
                          intake := w.intake.(periods := EnsureActive(w.intake.periods, w.game.boards[o.board].competition, now)));
             WorldInv(s, w2) && Ages(w, w2) && MayCompete(s, w2.game, id)
    ensures var r := PlaceBid(w, id, o, s.rules, now); r.Commit? ==> Ages(w, r.value.0)
  {
    var w2 := w.(game := w.game.(bids := w.game.bids[id := row]),
                 intake := w.intake.(periods := EnsureActive(w.intake.periods, w.game.boards[o.board].competition, now)));
    PlaceFreePlayAges(s, w2, id, now);
    var r := PlaceBid(w, id, o, s.rules, now);
    if r.Commit? { AgesTransitive(w, w2, r.value.0); }
  }

  lemma FreePlayAges(s: Settings, w: World, id: BidId, o: Offer, now: Time)
    requires WorldInv(s, w) && o.board in w.game.boards && id !in w.game.bids
    ensures var r := CreateBid(w, id, o, s.rules, now); r.Commit? ==> Ages(w, r.value.0)
  {
    SettleAges(s, w, o.board, now, None);
    FreeSettleKeepsInv(s, w, o.board, now);
    var w1 := Settle(w, o.board, s.rules, now, None).value.0;
    assert !IsDue(w1.game.boards[o.board], now);
    PlaceBidAfterSettlingAges(s, w, w1, id, o, now);
  }

  lemma PlaceBidAfterSettlingAges(s: Settings, w: World, w1: World, id: BidId, o: Offer, now: Time)
    requires Ages(w, w1) && WorldInv(s, w1) && o.board in w1.game.boards && id !in w1.game.bids && !IsDue(w1.game.boards[o.board], now)
    ensures var r := PlaceBid(w1, id, o, s.rules, now); r.Commit? ==> Ages(w, r.value.0)
  {
    PlaceBidAges(s, w1, id, o, now);
    var r := PlaceBid(w1, id, o, s.rules, now);
    if r.Commit? { AgesTransitive(w, w1, r.value.0); }
  }

  lemma AcceptAges(s: Settings, w: World, bid: BidId, intent: IntentId, now: Time, own: CaptureReply)
    requires WorldInv(s, w) && MayCompete(s, w.game, bid) && intent.owner == bid && Undecided(w.game.bids[bid].status)
    requires own.Captured? ==> own.pi.succeeded && own.pi.id == Some(intent)
    ensures var w1 := w.(game := Challenge(w.game, bid, Some(intent), now));
            var id := w.game.bids[bid].board;
            && Linked(w1.game) && id in w1.game.boards && Ages(w, w1)
            && (!Protected(w.game.boards[id], now) ==>
                  var r := SettlePaid(w1, id, s.rules, now, own); r.Commit? && Ages(w, r.value.0))
  {
    var id := w.game.bids[bid].board;
    var w1 := w.(game := Challenge(w.game, bid, Some(intent), now));
    ChallengeAges(s.rules.increment, w.game, bid, Some(intent), now);
    OnlyGameAges(w, w1.game);
    ChallengeKeepsWorld(s, w, bid, Some(intent), now);
    assert BidLinked(w.game, bid);
    if !Protected(w.game.boards[id], now) {
      ChallengeIsDue(s, w, bid, intent, now);
      SettleAges(s, w1, id, now, Some(own));
      AgesTransitive(w, w1, SettlePaid(w1, id, s.rules, now, own).value.0);
    }
  }

  lemma RejectAges(w: World, bid: BidId, row: Bid)
    requires bid in w.game.bids && SameBid(row, w.game.bids[bid]) && MovesForward(w.game.bids[bid].status, row.status)
    ensures Ages(w, w.(game := w.game.(bids := w.game.bids[bid := row])))
  {
    RewritingAges(w.game, w.game.bids[bid := row], w.game.boards);
    OnlyGameAges(w, w.game.(bids := w.game.bids[bid := row]));
  }

  lemma PlaceChallengerAges(s: Settings, w: World, bid: BidId, intent: IntentId, now: Time, own: CaptureReply, queueUp: bool)
    requires WorldInv(s, w) && bid in w.game.bids && intent.owner == bid && AwaitingAuthorization(w.game.bids[bid].status)
    requires w.game.bids[bid].board in w.game.boards
    requires own.Captured? ==> own.pi.succeeded && own.pi.id == Some(intent)
    ensures var r := PlaceChallenger(w, bid, intent, s.rules, now, own, queueUp); r.Commit? ==> Ages(w, r.value.0)
  {
    var row := w.game.bids[bid];
    var id := row.board;
    ClearsPriceIffBeatsBoth(row.amount, w.game.boards[id].amount, s.rules, PendingAmount(w.game, id));
    if row.amount < RequiredCents(w.game, id, s.rules) {
      RejectAges(w, bid, row.(intent := Some(intent), status := AuthCanceled, canceledAt := Some(now)));
    } else {
      AcceptAges(s, w, bid, intent, now, own);
    }
  }

  lemma NewcomerAges(s: Settings, w: World, bid: BidId, now: Time, due: CaptureReply)
    requires WorldInv(s, w) && bid in w.game.bids && AwaitingAuthorization(w.game.bids[bid].status)
    requires w.game.bids[bid].board in w.game.boards && HonestFor(w.game, w.game.bids[bid].board, due)
    ensures var r := SettlePaid(w, w.game.bids[bid].board, s.rules, now, due);
            && r.Commit? && WorldInv(s, r.value.0) && Ages(w, r.value.0)
            && bid in r.value.0.game.bids && r.value.0.game.bids[bid] == w.game.bids[bid]
            && w.game.bids[bid].board in r.value.0.game.boards
  {
    SettleSparesNewcomer(s, w, bid, now, due);
    SettleAges(s, w, w.game.bids[bid].board, now, Some(due));
  }

  lemma AuthorizationAges(s: Settings, w: World, bid: BidId, intent: IntentId, now: Time,
                          due: CaptureReply, own: CaptureReply, queueUp: bool)
    requires WorldInv(s, w) && bid in w.game.bids && intent.owner == bid
    requires w.game.bids[bid].board in w.game.boards && HonestFor(w.game, w.game.bids[bid].board, due)
    requires own.Captured? ==> own.pi.succeeded && own.pi.id == Some(intent)
    ensures var r := AuthorizeBid(w, bid, intent, s.rules, now, due, own, queueUp); r.Commit? ==> Ages(w, r.value.0)
  {
    NothingAges(w);
    if AwaitingAuthorization(w.game.bids[bid].status) {
      NewcomerAges(s, w, bid, now, due);
      var w1 := SettlePaid(w, w.game.bids[bid].board, s.rules, now, due).value.0;
      PlaceAfterSettlingAges(s, w, w1, bid, intent, now, own, queueUp);
    }
  }

  lemma PlaceAfterSettlingAges(s: Settings, w: World, w1: World, bid: BidId, intent: IntentId, now: Time, own: CaptureReply, queueUp: bool)
    requires Ages(w, w1) && WorldInv(s, w1) && bid in w1.game.bids && w1.game.bids[bid].board in w1.game.boards
    requires intent.owner == bid && AwaitingAuthorization(w1.game.bids[bid].status)
    requires own.Captured? ==> own.pi.succeeded && own.pi.id == Some(intent)
    ensures var r := PlaceChallenger(w1, bid, intent, s.rules, now, own, queueUp); r.Commit? ==> Ages(w, r.value.0)
  {
    PlaceChallengerAges(s, w1, bid, intent, now, own, queueUp);
    var r := PlaceChallenger(w1, bid, intent, s.rules, now, own, queueUp);
    if r.Commit? { AgesTransitive(w, w1, r.value.0); }
  }

  lemma RewritesAge(s: Settings, w: World, step: Step, now: Time)
    requires WorldInv(s, w) && Enabled(w, step) && RewritesRows(step) && !step.DisputeOpened?
    ensures Ages(w, Apply(s, w, step, now))
  {
    var g' := Apply(s, w, step, now).game;
    RewritesGame(w.game, step, now);
    OnlyGameAges(w, g');
  }

  /** The game table half of an event or decision. */
  ghost function Rewritten(g: Game, step: Step, now: Time): Game
    requires Linked(g) && RewritesRows(step) && !step.DisputeOpened?
  {
    match step
    case CheckoutCompleted(e) =>
      if !KnownBid(g, e) || e.intent.None? then g else g.(bids := g.bids[e.bid.value := g.bids[e.bid.value].(intent := e.intent)])
    case PaymentFailure(e) => if !KnownBid(g, e) then g else FailPayment(g, e.bid.value, e.intent, now)
    case PaymentCancellation(e) => if !KnownBid(g, e) then g else CancelPayment(g, e.bid.value, e.intent, now)
    case Report(p) => var r := SubmitReport(g, p); if r.Commit? then r.value else g
    case Approve(p, reason) => if ReasonGiven(reason) && p in g.cases then ApproveCase(g, p, now) else g
  }

  lemma OneBidAges(g: Game, p: BidId, row: Bid)
    requires p in g.bids && SameBid(row, g.bids[p]) && MovesForward(g.bids[p].status, row.status)
    ensures GameAges(g, g.(bids := g.bids[p := row]))
  {
  }

  lemma OneBoardAges(g: Game, id: BoardId, board: Board)
    requires id in g.boards && board.competition == g.boards[id].competition && board.version >= g.boards[id].version
    requires board.biddingEnabled == g.boards[id].biddingEnabled
    ensures GameAges(g, g.(boards := g.boards[id := board]))
  {
  }

  lemma CancellationAges(g: Game, bid: BidId, intent: Option<IntentId>, now: Time)
    requires Linked(g) && bid in g.bids
    ensures GameAges(g, CancelPayment(g, bid, intent, now))
  {
    assert BidLinked(g, bid);
    var g' := CancelPayment(g, bid, intent, now);
    var id := g.bids[bid].board;
    if g' != g {
      OneBidAges(g, bid, g'.bids[bid]);
      var g1 := g.(bids := g'.bids);
      OneBoardAges(g1, id, g'.boards[id]);
      assert g1.(boards := g1.boards[id := g'.boards[id]]) == g';
      GameAgesTransitive(g, g1, g');
    } else {
      OneBoardAges(g, id, g.boards[id]);
      assert g.boards[id := g.boards[id]] == g.boards;
    }
  }

  lemma SameGameAges(g: Game)
    ensures GameAges(g, g)
  {
  }

  lemma OneCaseAges(g: Game, c: BidId, row: Case)
    requires c in g.cases ==> g.cases[c].status.Open?
    ensures GameAges(g, g.(cases := g.cases[c := row]))
  {
  }

  lemma RewritesGame(g: Game, step: Step, now: Time)
    requires Linked(g) && RewritesRows(step) && !step.DisputeOpened?
    ensures GameAges(g, Rewritten(g, step, now))
  {
    SameGameAges(g);
    match step
    case CheckoutCompleted(e) =>
      if KnownBid(g, e) { OneBidAges(g, e.bid.value, Rewritten(g, step, now).bids[e.bid.value]); }
    case PaymentFailure(e) =>
      if KnownBid(g, e) { OneBidAges(g, e.bid.value, Rewritten(g, step, now).bids[e.bid.value]); }
    case PaymentCancellation(e) =>
      if KnownBid(g, e) { CancellationAges(g, e.bid.value, e.intent, now); }
    case Report(p) =>
      if p !in g.cases { OneCaseAges(g, p, Case(Open, None)); }
    case Approve(p, reason) =>
      if p in g.cases && g.cases[p].status.Open? { OneCaseAges(g, p, Case(Approved, Some(now))); }
  }

  lemma DisputeAges(s: Settings, w: World, d: Dispute, found: Option<BidId>, now: Time)
    requires WorldInv(s, w) && FindsDisputed(w.books, d, found)
    ensures var r := DisputeEvent(w, d, found, now); r.Commit? ==> Ages(w, r.value)
  {
    NothingAges(w);
    var r := DisputeEvent(w, d, found, now);
    if r.Commit? && r.value != w {
      CapturedIsPublished(s, w, found.value);
      var amount := if d.amount.Some? && d.amount.value != 0 then d.amount.value else w.game.bids[found.value].amount;
      RecordDisputeKeepsInv(w.game.bids, w.books, found.value, amount, now);
      RejectAges(w, found.value, w.game.bids[found.value].(status := Disputed, dispute := d.id));
    }
  }

  lemma PaymentActionAges(d: Desk, caseOf: BidId, id: BidId, bid: Bid, now: Time)
    ensures var r := PaymentActionFor(d, caseOf, id, bid, now); r.Commit? ==> DeskAges(d, r.value)
  {
  }

  lemma EnqueueAges(d: Desk, bid: BidId, to: Email, context: Context, waiting: bool, now: Time)
    ensures DeskAges(d, EnqueueNotice(d, bid, to, context, waiting, now))
  {
  }

  lemma QueueAges(g: Game, d: Desk, bid: BidId, now: Time)
    requires Linked(g) && bid in g.cases
    ensures var r := QueueWork(g, d, bid, now); r.Commit? ==> DeskAges(d, r.value)
  {
    assert TakeoverLinked(g, bid) && BidLinked(g, bid) && BoardLinked(g, g.takeovers[bid].board);
    var pending := g.boards[g.takeovers[bid].board].pending;
    var r := QueueWork(g, d, bid, now);
    if r.Commit? {
      PaymentActionAges(d, bid, bid, g.bids[bid], now);
      if g.boards[g.takeovers[bid].board].current == Some(bid) && pending.Some? {
        var d1 := PaymentActionFor(d, bid, pending.value, g.bids[pending.value], now).value;
        PaymentActionAges(d, bid, pending.value, g.bids[pending.value], now);
        PaymentActionAges(d1, bid, bid, g.bids[bid], now);
        DeskAgesTransitive(d, d1, r.value);
      }
    }
  }

  lemma RemoveCaseAges(g: Game, d: Desk, bid: BidId, now: Time)
    requires Linked(g) && bid in g.cases
    ensures var r := RemoveCase(g, d, bid, now); r.Commit? ==> GameAges(g, r.value.0) && DeskAges(d, r.value.1)
  {
    var r := RemoveCase(g, d, bid, now);
    if r.Commit? && g.cases[bid].status.Open? {
      assert TakeoverLinked(g, bid) && BidLinked(g, bid);
      RemovalAges(g, bid, now);
      QueueAges(g, d, bid, now);
      var d1 := QueueWork(g, d, bid, now).value;
      var waiting := d1.actions[bid].op.IssueRefund? && d1.actions[bid].status.ActionPending?;
      EnqueueAges(d1, bid, Recipient(g, bid), Context(g.takeovers[bid].board, now, bid, None), waiting, now);
      DeskAgesTransitive(d, d1, r.value.1);
    }
  }

  lemma RemoveAges(s: Settings, w: World, p: BidId, reason: string, now: Time)
    requires WorldInv(s, w)
    ensures var r := RemoveCaseStep(w, p, reason, now); r.Commit? ==> Ages(w, r.value)
  {
    NothingAges(w);
    if p in w.game.cases { RemoveCaseAges(w.game, w.desk, p, now); }
  }

  lemma ActionMoves(d: Desk, id: BidId, a: Action)
    requires id in d.actions && a.caseOf == d.actions[id].caseOf && a.op == d.actions[id].op && a.attempts >= d.actions[id].attempts
    requires !d.actions[id].status.ActionSucceeded? && !d.actions[id].status.ActionNotRequired?
    ensures DeskAges(d, d.(actions := d.actions[id := a]))
  {
  }

  lemma BeginAges(g: Game, b: Books, d: Desk, id: BidId, now: Time)
    requires Linked(g) && id in d.actions && id in g.bids && d.actions[id].caseOf in g.cases
    ensures DeskAges(d, BeginAction(g, b, d, id, now))
  {
    var d', a := BeginAction(g, b, d, id, now), d.actions[id];
    if !(a.status.ActionSucceeded? || a.status.ActionNotRequired? || a.status.ActionProcessing?) {
      ActionMoves(d, id, d'.actions[id]);
      var d1 := d.(actions := d.actions[id := d'.actions[id]]);
      if d'.calls == d.calls && d'.notices != d.notices {
        assert TakeoverLinked(g, a.caseOf) && BidLinked(g, a.caseOf);
        EnqueueAges(d1, a.caseOf, Recipient(g, a.caseOf), RemovalContext(g, a.caseOf, None, now), false, now);
        DeskAgesTransitive(d, d1, d');
      }
    }
  }

  lemma RefundAges(g: Game, b: Books, d: Desk, id: BidId, reference: string, now: Time)
    requires Linked(g) && id in d.actions && id in g.bids && d.actions[id].caseOf in g.cases
    requires d.actions[id].status.ActionProcessing?
    ensures var r := EndAction(g, b, d, id, Some(reference), now); r.Commit? ==> DeskAges(d, r.value.2)
  {
    var a := d.actions[id];
    var d1 := d.(actions := d.actions[id := a.(status := ActionSucceeded, reference := Some(reference), completedAt := Some(now))]);
    ActionMoves(d, id, d1.actions[id]);
    var r := EndAction(g, b, d, id, Some(reference), now);
    if r.Commit? && a.op.IssueRefund? {
      assert DeskAges(d1, r.value.2);
      DeskAgesTransitive(d, d1, r.value.2);
    }
  }

  lemma EndAges(s: Settings, w: World, p: BidId, answer: Option<string>, now: Time)
    requires WorldInv(s, w) && p in w.desk.actions
    ensures ActionOk(w.game, w.books, w.desk, p)
    ensures var r := EndAction(w.game, w.books, w.desk, p, answer, now);
            r.Commit? ==> Ages(w, w.(game := r.value.0, books := r.value.1, desk := r.value.2))
  {
    NothingAges(w);
    assert ActionOk(w.game, w.books, w.desk, p);
    var a := w.desk.actions[p];
    if a.status.ActionProcessing? {
      if answer.None? {
        ActionMoves(w.desk, p, a.(status := ActionFailed));
      } else {
        RefundAges(w.game, w.books, w.desk, p, answer.value, now);
        if a.op.IssueRefund? {
          CapturedIsPublished(s, w, p);
          RecordRefundKeepsInv(w.game.bids, w.books, p, a.amount.value);
          RejectAges(w, p, w.game.bids[p].(status := Refunded));
        }
      }
    }
  }

  lemma BooksStepAges(s: Settings, w: World, step: Step, now: Time)
    requires WorldInv(s, w) && Enabled(w, step) && (step.PaymentSuccess? || step.ChargeUpdate? || step.Reconcile?)
    ensures Ages(w, Apply(s, w, step, now))
  {
    NothingAges(w);
    match step
    case PaymentSuccess(bid, pi) =>
      if bid.Some? && bid.value in w.game.bids { RecordKeepsInv(w.game.bids, w.books, bid.value, pi, now); }
    case ChargeUpdate(intent, charge) => UpdateKeepsInv(w.game.bids, w.books, intent, charge, now);
    case Reconcile(p, reply) => ReconcileKeepsInv(w.game.bids, w.books, p, reply, now);
  }

  lemma ClaimAges(d: Desk, c: BidId, mail: MailSettings, now: Time)
    requires c in d.notices
    ensures DeskAges(d, ClaimNotice(d, c, mail, now))
  {
  }

  lemma FinishAges(d: Desk, claim: nat, mail: MailSettings, answer: Delivery, now: Time)
    requires claim < |d.sends| && d.sends[claim].eventKey in d.notices
    ensures DeskAges(d, FinishNotice(d, claim, mail, answer, now))
  {
  }

  lemma DeskStepAges(s: Settings, w: World, step: Step, now: Time)
    requires Enabled(w, step) && (step.BeginPayment? || step.ClaimMail? || step.FinishMail?)
    ensures Ages(w, Apply(s, w, step, now))
  {
    match step
    case BeginPayment(p) =>
      BeginAges(w.game, w.books, w.desk, p, now);
      OnlyDeskAges(w, BeginAction(w.game, w.books, w.desk, p, now));
    case ClaimMail(c) =>
      ClaimAges(w.desk, c, s.mail, now);
      OnlyDeskAges(w, ClaimNotice(w.desk, c, s.mail, now));
    case FinishMail(claim, answer) =>
      FinishAges(w.desk, claim, s.mail, answer, now);
      OnlyDeskAges(w, FinishNotice(w.desk, claim, s.mail, answer, now));
  }

  lemma GrantAges(s: Settings, w: World, step: Step, now: Time)
    requires Enabled(w, step) && (step.GrantApproval? || step.ShowConfirmation?)
    ensures Ages(w, Apply(s, w, step, now))
  {
    OnlyIntakeAges(w, Apply(s, w, step, now).intake);
  }

  lemma RollOverAges(t: Intake, competition: CompetitionId, now: Time)
    requires !AlreadyReset(t.periods, competition, now)
    ensures IntakeAges(t, t.(periods := RollOver(t.periods, competition, now)))
  {
  }

  lemma ResetStepAges(s: Settings, w: World, competition: CompetitionId, ids: seq<BoardId>, releases: Releases, now: Time)
    requires WorldInv(s, w) && forall i | 0 <= i < |ids| :: ids[i] in w.game.boards
    ensures var r := ResetStep(w, competition, ids, releases, now); r.Commit? ==> Ages(w, r.value.0)
  {
    NothingAges(w);
    if !AlreadyReset(w.intake.periods, competition, now) {
      ResetAges(w.game, ids, releases, now);
      RollOverAges(w.intake, competition, now);
    }
  }

  lemma BiddingAges(s: Settings, w: World, step: Step, now: Time)
    requires WorldInv(s, w) && Enabled(w, step)
    requires step.Checkout? || step.FreePlay? || step.FinalizeDue?
    ensures Ages(w, Apply(s, w, step, now))
  {
    NothingAges(w);
    match step
    case Checkout(p, o, x, due) => CheckoutAges(s, w, p, o, x, now, due);
    case FreePlay(p, o) => FreePlayAges(s, w, p, o, now);
    case FinalizeDue(b, expected, mode) => SettleAges(s, w, b, now, mode);
  }

  lemma AuthorizationStepAges(s: Settings, w: World, step: Step, now: Time)
    requires WorldInv(s, w) && Enabled(w, step) && step.Authorization?
    ensures Ages(w, Apply(s, w, step, now))
  {
    NothingAges(w);
    var e := step.event;
    if KnownBid(w.game, e) && e.intent.Some? {
      AuthorizationAges(s, w, e.bid.value, e.intent.value, now, step.due, step.own, step.queueUp);
    }
  }

  lemma DecisionAges(s: Settings, w: World, step: Step, now: Time)
    requires WorldInv(s, w) && Enabled(w, step) && (step.Remove? || step.EndPayment? || step.Reset? || step.DisputeOpened?)
    ensures Ages(w, Apply(s, w, step, now))
  {
    NothingAges(w);
    match step
    case DisputeOpened(d, found) => DisputeAges(s, w, d, found, now);
    case Reset(competition, ids, releases) => ResetStepAges(s, w, competition, ids, releases, now);
    case Remove(p, reason) => RemoveAges(s, w, p, reason, now);
    case EndPayment(p, answer) => EndAges(s, w, p, answer, now);
  }

  /** No step takes anything back. */
  lemma StepAges(s: Settings, w: World, step: Step, now: Time)
    requires WorldInv(s, w) && Enabled(w, step)
    ensures Ages(w, Apply(s, w, step, now))
  {
    if step.Checkout? || step.FreePlay? || step.FinalizeDue? {
      BiddingAges(s, w, step, now);
    } else if step.Authorization? {
      AuthorizationStepAges(s, w, step, now);
    } else if step.Remove? || step.EndPayment? || step.Reset? || step.DisputeOpened? {
      DecisionAges(s, w, step, now);
    } else if RewritesRows(step) {
      RewritesAge(s, w, step, now);
    } else if step.PaymentSuccess? || step.ChargeUpdate? || step.Reconcile? {
      BooksStepAges(s, w, step, now);
    } else if step.GrantApproval? || step.ShowConfirmation? {
      GrantAges(s, w, step, now);
    } else {
      DeskStepAges(s, w, step, now);
    }
  }

  lemma OneMoreStepAges(s: Settings, ws: seq<World>, ms: seq<Moment>, k: nat)
    requires |ws| == |ms| + 1 && k < |ms| && Connects(s, ws, ms, k) && WorldInv(s, ws[k]) && Ages(ws[0], ws[k])
    ensures WorldInv(s, ws[k + 1]) && Ages(ws[0], ws[k + 1])
  {
    StepKeepsInv(s, ws[k], ms[k].step, ms[k].at);
    StepAges(s, ws[k], ms[k].step, ms[k].at);
    AgesTransitive(ws[0], ws[k], ws[k + 1]);
  }

  /** Nothing is taken back in any continuation of a state that is in order. */
  lemma {:induction false} ContinuationAges(s: Settings, ws: seq<World>, ms: seq<Moment>, j: nat)
    requires Follows(s, ws, ms) && WorldInv(s, ws[0]) && j < |ws|
    ensures WorldInv(s, ws[j]) && Ages(ws[0], ws[j])
    decreases j
  {
    if j > 0 {
      ContinuationAges(s, ws, ms, j - 1);
      assert Connects(s, ws, ms, j - 1);
      OneMoreStepAges(s, ws, ms, j - 1);
    } else {
      NothingAges(ws[0]);
    }
  }

  lemma RunStepAges(s: Settings, ws: seq<World>, ms: seq<Moment>, j: nat)
    requires IsRun(s, ws, ms) && 0 < j < |ws|
    ensures Ages(ws[j - 1], ws[j])
  {
    RunsStayInOrder(s, ws, ms, j - 1);
    assert Connects(s, ws, ms, j - 1);
    StepAges(s, ws[j - 1], ms[j - 1].step, ms[j - 1].at);
  }

  /** Nothing is taken back along a run. */
  lemma {:induction false} RunsAge(s: Settings, ws: seq<World>, ms: seq<Moment>, i: nat, j: nat)
    requires IsRun(s, ws, ms) && i <= j < |ws|
    ensures Ages(ws[i], ws[j])
    decreases j
  {
    if i < j {
      RunsAge(s, ws, ms, i, j - 1);
      RunStepAges(s, ws, ms, j);
      AgesTransitive(ws[i], ws[j - 1], ws[j]);
    } else {
      NothingAges(ws[i]);
    }
  }
}
