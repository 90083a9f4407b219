// Each transaction keeps the invariant of the whole system and never runs into a database constraint it should avoid.
module SafetySteps {
  import opened Base
  import opened Pricing
  import opened Rows
  import opened Takeovers
  import opened GameInvariant
  import opened GameSteps
  import opened Books
  import opened BooksInvariant
  import opened BooksSteps
  import opened Desk
  import opened DeskInvariant
  import opened DeskSteps
  import opened Intake
  import opened Risk
  import opened Protocol
  import opened Safety

  // ----- settlement -----

  /** The provider answers a capture request truthfully: success is about the very intent it was asked to capture. */
  ghost predicate HonestReply(bid: Bid, reply: CaptureReply) {
    reply.Captured? ==> reply.pi.succeeded && reply.pi.id == bid.intent
  }

  ghost predicate HonestFor(g: Game, id: BoardId, reply: CaptureReply)
    requires id in g.boards
  {
    g.boards[id].pending.Some? && g.boards[id].pending.value in g.bids ==>
      HonestReply(g.bids[g.boards[id].pending.value], reply)
  }

  /** Publishing a bid that was never published or canceled is quiet for the other tables. */
  lemma PublishIsQuiet(g: Game, g': Game, bid: BidId, row: Bid)
    requires bid in g.bids && bid !in g.takeovers && bid !in g.evidence && !g.bids[bid].status.AuthCanceled?
    requires SameBid(row, g.bids[bid]) && row.intent == g.bids[bid].intent && g'.bids == g.bids[bid := row]
    requires g'.takeovers.Keys == g.takeovers.Keys + {bid} && g'.contacts == g.contacts && g'.cases == g.cases
    requires forall p {:trigger p in g'.evidence} | p in g.takeovers ::
               (p in g'.evidence <==> p in g.evidence) && (p in g.evidence ==> g'.evidence[p].email == g.evidence[p].email)
    ensures Quiet(g, g')
  {
  }

  lemma WinIsQuiet(inc: nat, g: Game, id: BoardId, bid: BidId, rules: BoardRules, now: Time, paid: bool)
    requires GameInv(inc, g) && MayWin(inc, g, id, bid, now) && !g.bids[bid].status.AuthCanceled?
    ensures var r := Win(g, id, bid, rules, now, paid);
            && r.Commit? && Quiet(g, r.value)
            && bid in r.value.takeovers && (r.value.bids[bid].status.DemoWon? <==> !paid)
            && (forall b {:trigger r.value.boards[b]} | b in g.boards && b != id :: r.value.boards[b] == g.boards[b])
  {
    WinCommits(inc, g, id, bid, rules, now, paid);
    var g' := Win(g, id, bid, rules, now, paid).value;
    PublishIsQuiet(g, g', bid, g'.bids[bid]);
  }

  lemma FinalizeIsQuiet(inc: nat, g: Game, id: BoardId, rules: BoardRules, now: Time, mode: CaptureMode)
    requires GameInv(inc, g) && id in g.boards
    ensures var r := FinalizeLocked(g, id, rules, now, mode);
            && r.Commit? && Quiet(g, r.value.0)
            && (forall b {:trigger r.value.0.boards[b]} | b in g.boards && b != id :: r.value.0.boards[b] == g.boards[b])
            && (IsDue(g.boards[id], now) && mode == Paid(true) ==>
                  && g.boards[id].pending.value in r.value.0.takeovers
                  && g.boards[id].pending.value in r.value.0.bids
                  && !r.value.0.bids[g.boards[id].pending.value].status.DemoWon?)
  {
    FinalizeKeepsInv(inc, g, id, rules, now, mode);
    if IsDue(g.boards[id], now) && mode != Paid(false) {
      assert BoardOk(inc, g, id);
      WinIsQuiet(inc, g, id, g.boards[id].pending.value, rules, now, mode.Paid?);
    } else if IsDue(g.boards[id], now) {
      assert BoardOk(inc, g, id);
    }
  }

  lemma FinalizeKeepsWaiting(inc: nat, g: Game, id: BoardId, rules: BoardRules, now: Time, mode: CaptureMode)
    requires GameInv(inc, g) && id in g.boards
    requires forall b {:trigger WaitsBehind(g, b)} | b in g.boards && b != id :: WaitsBehind(g, b)
    requires IsDue(g.boards[id], now) || WaitsBehind(g, id)
    ensures FinalizeLocked(g, id, rules, now, mode).Commit? && NobodyWaitsForNothing(FinalizeLocked(g, id, rules, now, mode).value.0)
  {
    FinalizeKeepsInv(inc, g, id, rules, now, mode);
    FinalizeIsQuiet(inc, g, id, rules, now, mode);
    var g' := FinalizeLocked(g, id, rules, now, mode).value.0;
    forall b | b in g'.boards ensures WaitsBehind(g', b) {
      if b != id { assert WaitsBehind(g, b); }
    }
  }

  /** A truthful success is recorded, or left for later, without disturbing the books. */
  lemma CollectKeepsBooks(bids: map<BidId, Bid>, b: Books, id: BidId, reply: CaptureReply, now: Time)
    requires BooksInv(bids, b) && id in bids && HonestReply(bids[id], reply)
    requires bids[id].intent.Some? ==> bids[id].intent.value.owner == id
    ensures var (captured, b') := Collect(b, id, bids[id], reply, now);
            && BooksInv(bids, b') && Grows(b, b') && RefundsNothing(b, b')
            && (captured <==> bids[id].intent.Some? && reply.Captured?)
            && b'.collected == b.collected + (if captured then {bids[id].intent.value} else {})
            && b'.requests == b.requests + if bids[id].intent.Some? then [CaptureRequest(id, bids[id].intent.value)] else []
  {
    var row := bids[id];
    if row.intent.Some? {
      var requests := b.requests + [CaptureRequest(id, row.intent.value)];
      CollectingKeepsInv(bids, b, b.collected, requests);
      if reply.Captured? {
        var paid := b.(collected := b.collected + {row.intent.value}, requests := requests);
        CollectingKeepsInv(bids, b, paid.collected, requests);
        RecordKeepsInv(bids, paid, id, reply.pi, now);
        var recorded := RecordCapture(paid, id, row, reply.pi, now);
        RecordingAsksNothing(paid, id, row, reply.pi, now);
        if recorded.Commit? { assert Grows(paid, recorded.value.0); }
      }
    }
  }

  lemma RecordingAsksNothing(b: Books, id: BidId, bid: Bid, pi: PaymentIntent, now: Time)
    ensures var r := RecordCapture(b, id, bid, pi, now);
            r.Commit? ==> r.value.0.requests == b.requests && r.value.0.collected == b.collected
  {
  }

  /** Collecting a payment for a bid that wins in the same transaction. */
  lemma CollectKeepsCore(s: Settings, w: World, g': Game, bid: BidId, reply: CaptureReply, now: Time)
    requires CoreInv(s, w) && CoreInv(s, w.(game := g')) && Quiet(w.game, g')
    requires bid in w.game.bids && HonestReply(w.game.bids[bid], reply)
    requires Collect(w.books, bid, w.game.bids[bid], reply, now).0 ==>
               bid in g'.takeovers && bid in g'.bids && !g'.bids[bid].status.DemoWon?
    ensures CoreInv(s, w.(game := g', books := Collect(w.books, bid, w.game.bids[bid], reply, now).1))
  {
    var row, b := w.game.bids[bid], w.books;
    assert OwnIntent(w.game, bid);
    CollectKeepsBooks(w.game.bids, b, bid, reply, now);
    var (captured, b') := Collect(b, bid, row, reply, now);
    BooksIgnoreGame(w.game.bids, g'.bids, b');
    DeskFrame(g', b, w.desk, g', b');
    if captured { CollectedGrows(g', b, b', row.intent.value); }
  }

  lemma CollectedGrows(g: Game, b: Books, b': Books, i: IntentId)
    requires PaidInv(g, b) && b'.collected == b.collected + {i} && b'.accounts.Keys == b.accounts.Keys && CollectedOk(g, i)
    ensures PaidInv(g, b')
  {
    forall j | j in b'.collected ensures CollectedOk(g, j) { if j != i { assert CollectedOk(g, j); } }
  }

  lemma SettlePaidKeepsCore(s: Settings, w: World, id: BoardId, now: Time, reply: CaptureReply)
    requires CoreInv(s, w) && id in w.game.boards && HonestFor(w.game, id, reply)
    ensures var r := SettlePaid(w, id, s.rules, now, reply); r.Commit? && CoreInv(s, r.value.0)
  {
    var inc, g := s.rules.increment, w.game;
    var board := g.boards[id];
    assert BoardOk(inc, g, id);
    if IsDue(board, now) {
      var bid := board.pending.value;
      var captured := Collect(w.books, bid, g.bids[bid], reply, now).0;
      FinalizeKeepsInv(inc, g, id, s.rules, now, Paid(captured));
      FinalizeIsQuiet(inc, g, id, s.rules, now, Paid(captured));
      var g' := FinalizeLocked(g, id, s.rules, now, Paid(captured)).value.0;
      QuietKeepsOthers(s, w, g');
      CollectKeepsCore(s, w, g', bid, reply, now);
    }
  }

  lemma SettlePaidBoards(s: Settings, w: World, id: BoardId, now: Time, reply: CaptureReply)
    requires CoreInv(s, w) && id in w.game.boards
    requires forall b {:trigger WaitsBehind(w.game, b)} | b in w.game.boards && b != id :: WaitsBehind(w.game, b)
    requires IsDue(w.game.boards[id], now) || WaitsBehind(w.game, id)
    ensures var r := SettlePaid(w, id, s.rules, now, reply);
            && r.Commit? && NobodyWaitsForNothing(r.value.0.game)
            && r.value.0.game.boards.Keys == w.game.boards.Keys
            && r.value.0.game.bids.Keys == w.game.bids.Keys
            && Quiet(w.game, r.value.0.game)
            && (forall b {:trigger r.value.0.game.boards[b]} | b in w.game.boards && b != id :: r.value.0.game.boards[b] == w.game.boards[b])
            && (if IsDue(w.game.boards[id], now) then r.value.0.game.boards[id].pending.None?
                else r.value.0 == w)
  {
    var inc := s.rules.increment;
    assert BoardOk(inc, w.game, id);
    var board := w.game.boards[id];
    var captured := if IsDue(board, now) then Collect(w.books, board.pending.value, w.game.bids[board.pending.value], reply, now).0 else false;
    FinalizeKeepsInv(inc, w.game, id, s.rules, now, Paid(captured));
    FinalizeIsQuiet(inc, w.game, id, s.rules, now, Paid(captured));
    FinalizeKeepsWaiting(inc, w.game, id, s.rules, now, Paid(captured));
  }

  // ----- new bids -----

  /** A fresh bid whose one-time inputs are consumed and used by nobody else. */
  ghost predicate FreshBid(s: Settings, w: World, id: BidId, row: Bid) {
    && id !in w.game.bids && row.board in w.game.boards && row.bidder in w.game.contacts
    && !row.status.Authorized? && !Published(row.status)
    && (row.intent.Some? ==> row.intent.value.owner == id)
    && (row.approval.Some? ==>
          && row.amount <= s.risk.globalMax
          && row.approval.value in w.intake.approvals && w.intake.approvals[row.approval.value].consumedAt.Some?
          && forall q {:trigger w.game.bids[q]} | q in w.game.bids :: w.game.bids[q].approval != row.approval)
    && (row.confirmation.Some? ==>
          && row.confirmation.value in w.intake.confirmations && w.intake.confirmations[row.confirmation.value].consumedAt.Some?
          && forall q {:trigger w.game.bids[q]} | q in w.game.bids :: w.game.bids[q].confirmation != row.confirmation)
  }

  lemma NewBidKeepsIntake(s: Settings, w: World, id: BidId, row: Bid)
    requires CoreInv(s, w) && FreshBid(s, w, id, row)
    ensures var g' := w.game.(bids := w.game.bids[id := row]);
            PaidInv(g', w.books) && IntakeInv(s.risk.globalMax, g', w.intake)
  {
    var g, b, t, cap := w.game, w.books, w.intake, s.risk.globalMax;
    var g' := g.(bids := g.bids[id := row]);
    TakeoversAreBids(g);
    forall i | i in b.collected ensures CollectedOk(g', i) { assert CollectedOk(g, i); }
    forall p | p in g'.bids ensures OwnIntent(g', p) && InputsOk(cap, g', t, p) {
      if p != id { assert OwnIntent(g, p) && InputsOk(cap, g, t, p); }
    }
    forall p, q | p in g'.bids && q in g'.bids ensures OwnApproval(g', p, q) {
      if p != id && q != id {
        assert OwnApproval(g, p, q);
      } else {
        assert p == id || g'.bids[p] == g.bids[p];
        assert q == id || g'.bids[q] == g.bids[q];
      }
    }
  }

  lemma NewBidKeepsCore(s: Settings, w: World, id: BidId, row: Bid)
    requires CoreInv(s, w) && FreshBid(s, w, id, row)
    ensures CoreInv(s, w.(game := w.game.(bids := w.game.bids[id := row])))
  {
    var g, b := w.game, w.books;
    var g' := g.(bids := g.bids[id := row]);
    TakeoversAreBids(g);
    NewBidKeepsInv(s.rules.increment, g, id, row);
    BooksIgnoreGame(g.bids, g'.bids, b);
    DeskFrame(g, b, w.desk, g', b);
    NewBidKeepsIntake(s, w, id, row);
  }

  /** Consuming inputs, storing a tier and opening a period disturb no bid. */
  ghost predicate ConsumesInputs(s: Settings, w: World, w': World) {
    && w'.game == w.game && w'.desk == w.desk
    && w'.books.captures == w.books.captures && w'.books.ledger == w.books.ledger
    && w'.books.collected == w.books.collected && w'.books.requests == w.books.requests
    && w'.books.accounts.Keys == w.books.accounts.Keys
    && (forall u {:trigger w'.books.accounts[u]} | u in w.books.accounts ::
          var a, a' := w.books.accounts[u], w'.books.accounts[u];
          a'.spend == a.spend && a'.successes == a.successes && a'.refunds == a.refunds)
    && w.intake.approvals.Keys <= w'.intake.approvals.Keys
    && (forall a {:trigger w'.intake.approvals[a]} | a in w.intake.approvals && w.intake.approvals[a].consumedAt.Some? ::
          w'.intake.approvals[a].consumedAt.Some?)
    && w.intake.confirmations.Keys <= w'.intake.confirmations.Keys
    && (forall c {:trigger w'.intake.confirmations[c]} | c in w.intake.confirmations && w.intake.confirmations[c].consumedAt.Some? ::
          w'.intake.confirmations[c].consumedAt.Some?)
    && (forall k, l {:trigger SameActive(w'.intake.periods, k, l)} | k in w'.intake.periods && l in w'.intake.periods ::
          SameActive(w'.intake.periods, k, l))
  }

  lemma ConsumingKeepsCore(s: Settings, w: World, w': World)
    requires CoreInv(s, w) && ConsumesInputs(s, w, w')
    ensures CoreInv(s, w')
  {
    AccountsKeepBooks(w.game.bids, w.books, w'.books);
    BooksStepKeepsOthers(s, w, w'.books);
    forall p | p in w.game.bids ensures InputsOk(s.risk.globalMax, w.game, w'.intake, p) {
      assert InputsOk(s.risk.globalMax, w.game, w.intake, p);
    }
    forall p, q | p in w.game.bids && q in w.game.bids ensures OwnApproval(w.game, p, q) { assert OwnApproval(w.game, p, q); }
  }

  lemma EnsureActiveKeepsOne(periods: Periods, competition: CompetitionId, now: Time)
    requires forall k, l {:trigger SameActive(periods, k, l)} | k in periods && l in periods :: SameActive(periods, k, l)
    ensures var after := EnsureActive(periods, competition, now);
            && HasActive(after, competition)
            && forall k, l {:trigger SameActive(after, k, l)} | k in after && l in after :: SameActive(after, k, l)
  {
    var after := EnsureActive(periods, competition, now);
    var key := KeyAt(competition, now);
    if !HasActive(periods, competition) {
      assert after[key].active && key.competition == competition;
      forall k, l | k in after && l in after ensures SameActive(after, k, l) {
        if k != key && l != key { assert SameActive(periods, k, l); }
      }
    }
  }

  lemma InputsAreConsumed(s: Settings, w: World, o: Offer, x: Session, now: Time)
    requires o.board in w.game.boards && o.user in w.books.accounts && x.approval in w.intake.approvals
    requires x.confirmation.Some? ==> x.confirmation.value in w.intake.confirmations
    requires forall k, l {:trigger SameActive(w.intake.periods, k, l)} | k in w.intake.periods && l in w.intake.periods ::
               SameActive(w.intake.periods, k, l)
    ensures ConsumesInputs(s, w, ConsumeInputs(w, o, x, now))
  {
    EnsureActiveKeepsOne(w.intake.periods, w.game.boards[o.board].competition, now);
  }

  lemma ConsumeInputsKeepsCore(s: Settings, w: World, o: Offer, x: Session, now: Time)
    requires CoreInv(s, w) && o.board in w.game.boards
    requires o.user in w.books.accounts && x.approval in w.intake.approvals
    requires x.confirmation.Some? ==> x.confirmation.value in w.intake.confirmations
    ensures CoreInv(s, ConsumeInputs(w, o, x, now))
  {
    InputsAreConsumed(s, w, o, x, now);
    ConsumingKeepsCore(s, w, ConsumeInputs(w, o, x, now));
  }

  /** A refused checkout is refused for a reason, never by a constraint. */
  lemma PlaceCheckoutRefusals(w: World, id: BidId, o: Offer, x: Session, settings: Settings, now: Time)
    requires Linked(w.game) && o.board in w.game.boards && id !in w.game.bids
    ensures var r := PlaceCheckout(w, id, o, x, settings, now);
            if r.Commit? then r.value.game.boards == w.game.boards else r.error != ConstraintViolated
  {
  }

  lemma PlaceCheckoutKeepsCore(s: Settings, w: World, id: BidId, o: Offer, x: Session, now: Time)
    requires CoreInv(s, w) && o.board in w.game.boards && id !in w.game.bids
    requires x.intent.Some? ==> x.intent.value.owner == id
    ensures var r := PlaceCheckout(w, id, o, x, s, now); r.Commit? ==> CoreInv(s, r.value)
  {
    var r := PlaceCheckout(w, id, o, x, s, now);
    if r.Commit? {
      var row := r.value.game.bids[id];
      UnusedInputs(s, w, x, o, row.amount, now);
      ConsumeInputsKeepsCore(s, w, o, x, now);
      NewBidKeepsCore(s, ConsumeInputs(w, o, x, now), id, row);
    }
  }

  /** Checkout either refuses for a reason the user can act on, or leaves everything in order. */
  lemma CheckoutKeepsInv(s: Settings, w: World, id: BidId, o: Offer, x: Session, now: Time, reply: CaptureReply)
    requires WorldInv(s, w) && o.board in w.game.boards && id !in w.game.bids && HonestFor(w.game, o.board, reply)
    requires x.intent.Some? ==> x.intent.value.owner == id
    ensures var r := CreateCheckout(w, id, o, x, s, now, reply);
            if r.Commit? then WorldInv(s, r.value) else r.error != ConstraintViolated
  {
    assert WaitsBehind(w.game, o.board);
    SettlePaidKeepsCore(s, w, o.board, now, reply);
    SettlePaidBoards(s, w, o.board, now, reply);
    var w1 := SettlePaid(w, o.board, s.rules, now, reply).value.0;
    PlaceCheckoutKeepsCore(s, w1, id, o, x, now);
    PlaceCheckoutRefusals(w1, id, o, x, s, now);
    var r := CreateCheckout(w, id, o, x, s, now, reply);
    if r.Commit? {
      forall b | b in r.value.game.boards ensures WaitsBehind(r.value.game, b) { assert WaitsBehind(w1.game, b); }
    }
  }

  /** Inputs that are still usable have not been used by any bid. */
  lemma UnusedInputs(s: Settings, w: World, x: Session, o: Offer, amount: nat, now: Time)
    requires CoreInv(s, w) && CheckInputs(w, o, amount, x, s.risk, now).Commit?
    ensures amount <= s.risk.globalMax
    ensures forall q {:trigger w.game.bids[q]} | q in w.game.bids ::
              w.game.bids[q].approval != Some(x.approval) && (x.confirmation.Some? ==> w.game.bids[q].confirmation != x.confirmation)
  {
    forall q | q in w.game.bids
      ensures w.game.bids[q].approval != Some(x.approval) && (x.confirmation.Some? ==> w.game.bids[q].confirmation != x.confirmation)
    {
      assert InputsOk(s.risk.globalMax, w.game, w.intake, q);
    }
  }

  // ----- free play -----

  lemma FreeSettleKeepsInv(s: Settings, w: World, id: BoardId, now: Time)
    requires WorldInv(s, w) && id in w.game.boards
    ensures var r := Settle(w, id, s.rules, now, None);
            && r.Commit? && WorldInv(s, r.value.0)
            && r.value.0.game.boards.Keys == w.game.boards.Keys && r.value.0.game.bids.Keys == w.game.bids.Keys
            && (if IsDue(w.game.boards[id], now) then r.value.0.game.boards[id].pending.None? else r.value.0 == w)
  {
    var inc := s.rules.increment;
    assert WaitsBehind(w.game, id);
    FinalizeKeepsInv(inc, w.game, id, s.rules, now, FreePlay);
    FinalizeIsQuiet(inc, w.game, id, s.rules, now, FreePlay);
    FinalizeKeepsWaiting(inc, w.game, id, s.rules, now, FreePlay);
    QuietKeepsOthers(s, w, FinalizeLocked(w.game, id, s.rules, now, FreePlay).value.0);
  }

  /** A newcomer that may compete for its board, once it has been added. */
  ghost predicate MayCompete(s: Settings, g: Game, id: BidId) {
    && id in g.bids && !Published(g.bids[id].status) && !g.bids[id].status.AuthCanceled? && !g.bids[id].status.Authorized?
    && g.bids[id].board in g.boards
    && g.bids[id].amount >= g.boards[g.bids[id].board].amount + s.rules.increment
  }

  lemma ChallengeKeepsWorld(s: Settings, w: World, id: BidId, intent: Option<IntentId>, now: Time)
    requires WorldInv(s, w) && MayCompete(s, w.game, id)
    requires if intent.Some? then intent.value.owner == id else w.game.bids[id].intent.None?
    ensures var g' := Challenge(w.game, id, intent, now);
            && CoreInv(s, w.(game := g'))
            && (forall b {:trigger WaitsBehind(g', b)} | b in g'.boards && b != w.game.bids[id].board :: WaitsBehind(g', b))
            && (Protected(w.game.boards[w.game.bids[id].board], now) ==> WaitsBehind(g', w.game.bids[id].board))
  {
    var g := w.game;
    var g' := Challenge(g, id, intent, now);
    ChallengeKeepsInv(s.rules.increment, g, id, intent, now);
    ChallengeIsQuiet(s.rules.increment, g, id, intent, now);
    QuietKeepsOthers(s, w, g');
    forall b | b in g'.boards && b != g.bids[id].board ensures WaitsBehind(g', b) { assert WaitsBehind(g, b); }
  }

  lemma TakeOpenBoardKeepsWorld(s: Settings, w: World, id: BidId, now: Time)
    requires WorldInv(s, w) && MayCompete(s, w.game, id)
    requires !Protected(w.game.boards[w.game.bids[id].board], now) && !IsDue(w.game.boards[w.game.bids[id].board], now)
    ensures var r := Win(w.game, w.game.bids[id].board, id, s.rules, now, false);
            r.Commit? && WorldInv(s, w.(game := r.value))
  {
    var inc, g := s.rules.increment, w.game;
    var b := g.bids[id].board;
    assert BoardOk(inc, g, b) && WaitsBehind(g, b);
    WinKeepsInv(inc, g, b, id, s.rules, now, false);
    WinIsQuiet(inc, g, b, id, s.rules, now, false);
    var g' := Win(g, b, id, s.rules, now, false).value;
    QuietKeepsOthers(s, w, g');
    forall c | c in g'.boards ensures WaitsBehind(g', c) { if c != b { assert WaitsBehind(g, c); } }
  }

  lemma ChallengeIsQuiet(inc: nat, g: Game, bid: BidId, intent: Option<IntentId>, now: Time)
    requires GameInv(inc, g) && bid in g.bids && !g.bids[bid].status.AuthCanceled?
    requires if intent.Some? then intent.value.owner == bid else g.bids[bid].intent.None?
    ensures Quiet(g, Challenge(g, bid, intent, now))
    ensures g.bids[bid].board in g.boards
    ensures forall b {:trigger Challenge(g, bid, intent, now).boards[b]} | b in g.boards && b != g.bids[bid].board ::
              Challenge(g, bid, intent, now).boards[b] == g.boards[b]
  {
    assert BidLinked(g, bid) && BoardLinked(g, g.bids[bid].board);
  }

  lemma PlaceFreePlayKeepsInv(s: Settings, w: World, id: BidId, now: Time)
    requires WorldInv(s, w) && MayCompete(s, w.game, id) && w.game.bids[id].intent.None?
    requires !IsDue(w.game.boards[w.game.bids[id].board], now)
    ensures var r := PlaceFreePlay(w, id, s.rules, now); r.Commit? && WorldInv(s, r.value.0)
  {
    var b := w.game.bids[id].board;
    if Protected(w.game.boards[b], now) {
      ChallengeKeepsWorld(s, w, id, None, now);
      var g' := Challenge(w.game, id, None, now);
      forall c | c in g'.boards ensures WaitsBehind(g', c) { if c == b { assert WaitsBehind(g', b); } }
    } else {
      TakeOpenBoardKeepsWorld(s, w, id, now);
    }
  }

  lemma AddFreePlayKeepsInv(s: Settings, w: World, id: BidId, bid: Bid, competition: CompetitionId, now: Time)
    requires WorldInv(s, w) && FreshBid(s, w, id, bid) && bid.approval.None? && bid.confirmation.None?
    ensures WorldInv(s, w.(game := w.game.(bids := w.game.bids[id := bid]),
                           intake := w.intake.(periods := EnsureActive(w.intake.periods, competition, now))))
  {
    var mid := w.(intake := w.intake.(periods := EnsureActive(w.intake.periods, competition, now)));
    EnsureActiveKeepsOne(w.intake.periods, competition, now);
    ConsumingKeepsCore(s, w, mid);
    NewBidKeepsCore(s, mid, id, bid);
    var g' := w.game.(bids := w.game.bids[id := bid]);
    forall b | b in g'.boards ensures WaitsBehind(g', b) { assert WaitsBehind(w.game, b); }
  }

  lemma CreateBidKeepsInv(s: Settings, w: World, id: BidId, o: Offer, now: Time)
    requires WorldInv(s, w) && o.board in w.game.boards && id !in w.game.bids
    ensures var r := CreateBid(w, id, o, s.rules, now);
            if r.Commit? then WorldInv(s, r.value.0) else r.error != ConstraintViolated
  {
    FreeSettleKeepsInv(s, w, o.board, now);
    var w1 := Settle(w, o.board, s.rules, now, None).value.0;
    var priced := PriceOffer(w1, o, s.rules);
    if priced.Commit? && CheckPlayer(w1, o.user).Commit? {
      var bid := NewBid(o, priced.value, None, None, Created, None);
      var competition := w1.game.boards[o.board].competition;
      AddFreePlayKeepsInv(s, w1, id, bid, competition, now);
      ClearsPriceIffBeatsBoth(priced.value, w1.game.boards[o.board].amount, s.rules, PendingAmount(w1.game, o.board));
      var w2 := w1.(game := w1.game.(bids := w1.game.bids[id := bid]),
                    intake := w1.intake.(periods := EnsureActive(w1.intake.periods, competition, now)));
      PlaceFreePlayKeepsInv(s, w2, id, now);
    }
  }
}
