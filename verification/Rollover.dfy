// The weekly reset: all boards or none, once per window, and nothing older ever comes back.
module Rollover {
  import opened Base
  import opened Pricing
  import opened Rows
  import opened Takeovers
  import opened GameInvariant
  import opened GameSteps
  import opened Books
  import opened BooksSteps
  import opened Desk
  import opened Intake
  import opened Protocol
  import opened Safety
  import opened SafetySteps
  import opened EventSteps
  import opened Machine
  import opened Display
  import opened History
  import opened Provenance
  import Week

  /** What a completed reset does to one bid: an authorization on one of the boards is released, nothing else. */
  predicate ReleasedOrKept(g: Game, g': Game, ids: seq<BoardId>, now: Time, p: BidId)
    requires p in g.bids
  {
    && p in g'.bids
    && g'.bids[p] == if g.bids[p].status.Authorized? && g.bids[p].board in ids
                     then g.bids[p].(status := AuthCanceled, canceledAt := Some(now)) else g.bids[p]
  }

  /** A board that nobody has taken, one version later. */
  function Reopened(board: Board): Board {
    Board(competition := board.competition, current := None, controller := None, amount := 0, message := DEFAULT_MESSAGE,
          pending := None, guaranteedUntil := None, version := board.version + 1, biddingEnabled := board.biddingEnabled)
  }

  ghost predicate Blanked(g: Game, g': Game, ids: seq<BoardId>, now: Time) {
    && g'.takeovers == g.takeovers && g'.evidence == g.evidence && g'.cases == g.cases && g'.contacts == g.contacts
    && g'.boards.Keys == g.boards.Keys && g'.bids.Keys == g.bids.Keys
    && (forall b {:trigger g'.boards[b]} | b in g.boards :: g'.boards[b] == if b in ids then Reopened(g.boards[b]) else g.boards[b])
    && (forall p {:trigger ReleasedOrKept(g, g', ids, now, p)} | p in g.bids :: ReleasedOrKept(g, g', ids, now, p))
  }

  /** A board whose challenger the provider will not release. */
  predicate Stuck(g: Game, id: BoardId, releases: Releases) {
    && id in g.boards && g.boards[id].pending.Some? && g.boards[id].pending.value in g.bids
    && g.bids[g.boards[id].pending.value].status.Authorized?
    && releases.Some? && g.boards[id].pending.value !in releases.value
  }

  lemma StuckUntilReached(inc: nat, g: Game, g1: Game, ids: seq<BoardId>, id: BoardId, releases: Releases, now: Time)
    requires GameInv(inc, g) && Linked(g1) && Blanked(g, g1, ids, now) && id in g.boards && id !in ids
    ensures ResetBoard(g1, id, releases, now).Abort? <==> Stuck(g, id, releases)
  {
    assert BoardOk(inc, g, id) && BoardLinked(g1, id) && g1.boards[id] == g.boards[id];
    var pending := g.boards[id].pending;
    if pending.Some? { assert ReleasedOrKept(g, g1, ids, now, pending.value); }
  }

  lemma BlankOneBid(inc: nat, g: Game, g1: Game, ids: seq<BoardId>, id: BoardId, releases: Releases, now: Time, p: BidId)
    requires GameInv(inc, g) && Linked(g1) && Blanked(g, g1, ids, now) && id in g.boards && id !in ids
    requires ResetBoard(g1, id, releases, now).Commit? && p in g.bids
    ensures ReleasedOrKept(g, ResetBoard(g1, id, releases, now).value, ids + [id], now, p)
  {
    assert BoardOk(inc, g, id) && BoardLinked(g1, id) && g1.boards[id] == g.boards[id];
    assert ReleasedOrKept(g, g1, ids, now, p) && SoleChallenger(g, p);
  }

  lemma BlankOne(inc: nat, g: Game, g1: Game, ids: seq<BoardId>, id: BoardId, releases: Releases, now: Time)
    requires GameInv(inc, g) && Linked(g1) && Blanked(g, g1, ids, now) && id in g.boards && id !in ids
    ensures var r := ResetBoard(g1, id, releases, now); r.Commit? ==> Blanked(g, r.value, ids + [id], now)
  {
    var r := ResetBoard(g1, id, releases, now);
    if r.Commit? {
      assert BoardLinked(g1, id);
      forall p | p in g.bids ensures ReleasedOrKept(g, r.value, ids + [id], now, p) {
        BlankOneBid(inc, g, g1, ids, id, releases, now, p);
      }
    }
  }

  ghost predicate AnyStuck(g: Game, ids: seq<BoardId>, releases: Releases) {
    exists i | 0 <= i < |ids| :: Stuck(g, ids[i], releases)
  }

  lemma LastOrEarlierStuck(g: Game, ids: seq<BoardId>, releases: Releases)
    requires ids != []
    ensures AnyStuck(g, ids, releases) <==> AnyStuck(g, ids[..|ids| - 1], releases) || Stuck(g, ids[|ids| - 1], releases)
  {
    if AnyStuck(g, ids[..|ids| - 1], releases) {
      var i :| 0 <= i < |ids| - 1 && Stuck(g, ids[..|ids| - 1][i], releases);
      assert Stuck(g, ids[i], releases);
    }
    if AnyStuck(g, ids, releases) {
      var i :| 0 <= i < |ids| && Stuck(g, ids[i], releases);
      assert i < |ids| - 1 ==> ids[..|ids| - 1][i] == ids[i];
    }
  }

  /**
   A reset of distinct boards is refused exactly when some release is refused, and otherwise blanks every
   one of them and releases every authorization on them, touching nothing else.
   */
  lemma {:induction false} ResetBlanksAll(inc: nat, g: Game, ids: seq<BoardId>, releases: Releases, now: Time)
    requires GameInv(inc, g) && forall i | 0 <= i < |ids| :: ids[i] in g.boards
    requires forall i, j | 0 <= i < j < |ids| :: ids[i] != ids[j]
    ensures var r := ResetBoards(g, ids, releases, now);
            if AnyStuck(g, ids, releases) then r.Abort? else r.Commit? && Blanked(g, r.value, ids, now)
    decreases |ids|
  {
    if ids != [] {
      var last := |ids| - 1;
      ResetBlanksAll(inc, g, ids[..last], releases, now);
      LastOrEarlierStuck(g, ids, releases);
      var r := ResetBoards(g, ids[..last], releases, now);
      if r.Commit? {
        StuckUntilReached(inc, g, r.value, ids[..last], ids[last], releases, now);
        BlankOne(inc, g, r.value, ids[..last], ids[last], releases, now);
        assert ids[..last] + [ids[last]] == ids;
      }
    }
  }

  ghost predicate NoAuthorization(g: Game, p: BidId, competition: CompetitionId)
    requires p in g.bids
  {
    g.bids[p].status.Authorized? && g.bids[p].board in g.boards ==> g.boards[g.bids[p].board].competition != competition
  }

  /** No board of the competition shows or awaits anything. */
  ghost predicate AllOpen(g: Game, competition: CompetitionId) {
    && (forall b {:trigger g.boards[b]} | b in g.boards && g.boards[b].competition == competition ::
          g.boards[b].current.None? && g.boards[b].pending.None? && g.boards[b].amount == 0 && g.boards[b].message == DEFAULT_MESSAGE)
    && (forall p {:trigger NoAuthorization(g, p, competition)} | p in g.bids :: NoAuthorization(g, p, competition))
  }

  lemma BlankedIsOpen(g: Game, g': Game, competition: CompetitionId, ids: seq<BoardId>, now: Time)
    requires Blanked(g, g', ids, now) && BoardsOf(g, competition, ids)
    ensures AllOpen(g', competition)
  {
    forall p | p in g'.bids ensures NoAuthorization(g', p, competition) { assert ReleasedOrKept(g, g', ids, now, p); }
  }

  /** All or nothing: a reset is refused exactly when a challenger cannot be released, and then nothing changes. */
  lemma ResetIsAllOrNothing(inc: nat, w: World, competition: CompetitionId, ids: seq<BoardId>, releases: Releases, now: Time)
    requires GameInv(inc, w.game) && BoardsOf(w.game, competition, ids) && !AlreadyReset(w.intake.periods, competition, now)
    ensures var r := ResetStep(w, competition, ids, releases, now);
            && (r.Abort? <==> AnyStuck(w.game, ids, releases))
            && (r.Commit? ==>
                  var w' := r.value.0;
                  && Blanked(w.game, w'.game, ids, now) && AllOpen(w'.game, competition) && r.value.1 == |ids|
                  && w' == w.(game := w'.game, intake := w.intake.(periods := RollOver(w.intake.periods, competition, now))))
  {
    ResetBlanksAll(inc, w.game, ids, releases, now);
    var r := ResetBoards(w.game, ids, releases, now);
    if r.Commit? { BlankedIsOpen(w.game, r.value, competition, ids, now); }
  }

  /**
   After a rollover the period of the current window is the only active one of its competition and counts as reset now;
   it keeps its dates, or gets those of the window when it is new. No other period changes otherwise.
   */
  lemma OnePeriodIsActive(periods: Periods, competition: CompetitionId, now: Time, k: PeriodKey)
    ensures var after, current := RollOver(periods, competition, now), PeriodKey(competition, Week.CurrentWindow(now).name);
            && after.Keys == periods.Keys + {current}
            && (k in after && k.competition == competition ==> (after[k].active <==> k == current))
            && (k in periods && k != current ==> after[k] == periods[k].(active := after[k].active))
            && (k in periods && k.competition != competition ==> after[k] == periods[k])
            && after[current].resetCompletedAt == Some(now)
            && after[current].startsAt == (if current in periods then periods[current].startsAt else Week.CurrentWindow(now).startsAt)
            && after[current].endsAt == (if current in periods then periods[current].endsAt else Week.CurrentWindow(now).endsAt)
  {
  }

  // ----- once per window -----

  /** Only a reset marks a window as reset. */
  predicate MarksNothing(t: Intake, t': Intake) {
    forall k {:trigger t'.periods[k]} | k in t'.periods && t'.periods[k].resetCompletedAt.Some? ::
      k in t.periods && t.periods[k].resetCompletedAt.Some?
  }

  lemma CheckoutMarksNothing(s: Settings, w: World, p: BidId, o: Offer, x: Session, now: Time, due: CaptureReply)
    requires Linked(w.game) && o.board in w.game.boards && p !in w.game.bids
    ensures var r := CreateCheckout(w, p, o, x, s, now, due); r.Commit? ==> MarksNothing(w.intake, r.value.intake)
  {
    SettleLinks(w, o.board, s.rules, now, Some(due));
  }

  lemma FreePlayMarksNothing(s: Settings, w: World, p: BidId, o: Offer, now: Time)
    requires Linked(w.game) && o.board in w.game.boards && p !in w.game.bids
    ensures var r := CreateBid(w, p, o, s.rules, now); r.Commit? ==> MarksNothing(w.intake, r.value.0.intake)
  {
    SettleLinks(w, o.board, s.rules, now, None);
  }

  lemma PlacingMarksNothing(w: World, bid: BidId, intent: IntentId, rules: BoardRules, now: Time, own: CaptureReply, queueUp: bool)
    requires Linked(w.game) && bid in w.game.bids
    ensures var r := PlaceChallenger(w, bid, intent, rules, now, own, queueUp); r.Commit? ==> r.value.0.intake == w.intake
  {
    assert BidLinked(w.game, bid);
  }

  lemma AuthorizationMarksNothing(w: World, bid: BidId, intent: IntentId, rules: BoardRules, now: Time,
                                  due: CaptureReply, own: CaptureReply, queueUp: bool)
    requires Linked(w.game) && bid in w.game.bids
    ensures var r := AuthorizeBid(w, bid, intent, rules, now, due, own, queueUp); r.Commit? ==> r.value.0.intake == w.intake
  {
    assert BidLinked(w.game, bid);
    SettleLinks(w, w.game.bids[bid].board, rules, now, Some(due));
    var settled := SettlePaid(w, w.game.bids[bid].board, rules, now, due);
    if settled.Commit? { PlacingMarksNothing(settled.value.0, bid, intent, rules, now, own, queueUp); }
  }

  lemma RowsMarkNothing(s: Settings, w: World, step: Step, now: Time)
    requires Enabled(w, step) && (RewritesRows(step) || step.Remove? || step.EndPayment?)
    ensures Apply(s, w, step, now).intake == w.intake
  {
  }

  lemma OnlyResetsMark(s: Settings, w: World, step: Step, now: Time)
    requires Enabled(w, step) && !step.Reset?
    ensures MarksNothing(w.intake, Apply(s, w, step, now).intake)
  {
    if RewritesRows(step) || step.Remove? || step.EndPayment? {
      RowsMarkNothing(s, w, step, now);
      return;
    }
    match step
    case Checkout(p, o, x, due) => CheckoutMarksNothing(s, w, p, o, x, now, due);
    case FreePlay(p, o) => FreePlayMarksNothing(s, w, p, o, now);
    case Authorization(e, due, own, queueUp) =>
      if KnownBid(w.game, e) && e.intent.Some? {
        AuthorizationMarksNothing(w, e.bid.value, e.intent.value, s.rules, now, due, own, queueUp);
      }
    case _ =>
  }

  lemma MarkAppears(s: Settings, w: World, m: Moment, competition: CompetitionId, now: Time)
    requires Enabled(w, m.step) && !AlreadyReset(w.intake.periods, competition, now)
    requires AlreadyReset(Apply(s, w, m.step, m.at).intake.periods, competition, now)
    ensures m.step.Reset? && m.step.competition == competition && Week.CurrentWindow(m.at) == Week.CurrentWindow(now)
  {
    if m.step.Reset? {
      Week.NameIdentifiesWindow(m.at, now);
    } else {
      OnlyResetsMark(s, w, m.step, m.at);
    }
  }

  /** Moment `k` of a run is a reset in a window, and changes something. */
  predicate ResetAt(ws: seq<World>, ms: seq<Moment>, k: nat, competition: CompetitionId, window: Week.Window)
    requires k < |ms| && k + 1 < |ws|
  {
    && ms[k].step.Reset? && ms[k].step.competition == competition
    && Week.CurrentWindow(ms[k].at) == window && ws[k + 1] != ws[k]
  }

  /** A window counts as reset only because some earlier reset of it took effect. */
  lemma {:induction false} MarkedWindowsWereReset(s: Settings, ws: seq<World>, ms: seq<Moment>, i: nat, competition: CompetitionId, now: Time)
    requires IsRun(s, ws, ms) && i < |ws| && AlreadyReset(ws[i].intake.periods, competition, now)
    ensures exists k {:trigger ResetAt(ws, ms, k, competition, Week.CurrentWindow(now))} | 0 <= k < i ::
              ResetAt(ws, ms, k, competition, Week.CurrentWindow(now))
    decreases i
  {
    if i > 0 {
      assert Connects(s, ws, ms, i - 1);
      if AlreadyReset(ws[i - 1].intake.periods, competition, now) {
        MarkedWindowsWereReset(s, ws, ms, i - 1, competition, now);
      } else {
        MarkAppears(s, ws[i - 1], ms[i - 1], competition, now);
        assert ResetAt(ws, ms, i - 1, competition, Week.CurrentWindow(now));
      }
    }
  }

  lemma ChangingResetMarks(w: World, competition: CompetitionId, ids: seq<BoardId>, releases: Releases, at: Time, now: Time)
    requires Linked(w.game) && (forall i | 0 <= i < |ids| :: ids[i] in w.game.boards)
    requires Week.CurrentWindow(at) == Week.CurrentWindow(now)
    ensures var r := ResetStep(w, competition, ids, releases, at);
            r.Commit? && r.value.0 != w ==> AlreadyReset(r.value.0.intake.periods, competition, now)
  {
    OnePeriodIsActive(w.intake.periods, competition, at, KeyAt(competition, at));
  }

  lemma AgingKeepsMark(t: Intake, t': Intake, competition: CompetitionId, now: Time)
    requires IntakeAges(t, t') && AlreadyReset(t.periods, competition, now)
    ensures AlreadyReset(t'.periods, competition, now)
  {
    assert PeriodAges(t, t', KeyAt(competition, now));
  }

  lemma IntakeAlongRun(s: Settings, ws: seq<World>, ms: seq<Moment>, i: nat, j: nat)
    requires IsRun(s, ws, ms) && i <= j < |ws|
    ensures IntakeAges(ws[i].intake, ws[j].intake)
  {
    RunsAge(s, ws, ms, i, j);
  }

  lemma MarkedAtOnce(s: Settings, ws: seq<World>, ms: seq<Moment>, k: nat, competition: CompetitionId, now: Time)
    requires Follows(s, ws, ms) && k < |ms| && ResetAt(ws, ms, k, competition, Week.CurrentWindow(now))
    ensures AlreadyReset(ws[k + 1].intake.periods, competition, now)
  {
    assert Connects(s, ws, ms, k);
    var step := ms[k].step;
    ChangingResetMarks(ws[k], competition, step.ids, step.releases, ms[k].at, now);
  }

  /** A mark stays for as long as its window lasts. */
  lemma MarkedStays(s: Settings, ws: seq<World>, ms: seq<Moment>, k: nat, j: nat, competition: CompetitionId, now: Time)
    requires IsRun(s, ws, ms) && k < j < |ws| && ResetAt(ws, ms, k, competition, Week.CurrentWindow(now))
    ensures AlreadyReset(ws[j].intake.periods, competition, now)
  {
    MarkedAtOnce(s, ws, ms, k, competition, now);
    IntakeAlongRun(s, ws, ms, k + 1, j);
    AgingKeepsMark(ws[k + 1].intake, ws[j].intake, competition, now);
  }

  /** Once a reset has taken effect, every later reset of the same competition in the same window changes nothing. */
  lemma SecondResetChangesNothing(s: Settings, ws: seq<World>, ms: seq<Moment>, k: nat, j: nat, competition: CompetitionId)
    requires IsRun(s, ws, ms) && k < j < |ms|
    requires ResetAt(ws, ms, k, competition, Week.CurrentWindow(ms[j].at))
    requires ms[j].step.Reset? && ms[j].step.competition == competition
    ensures ws[j + 1] == ws[j]
  {
    assert Connects(s, ws, ms, j);
    MarkedStays(s, ws, ms, k, j, competition, ms[j].at);
  }

  /** In any run a window of a competition is marked, and further resets refused, exactly when a reset of it took effect. */
  lemma ResetOncePerWindow(s: Settings, ws: seq<World>, ms: seq<Moment>, j: nat, competition: CompetitionId, now: Time)
    requires IsRun(s, ws, ms) && j < |ws|
    ensures AlreadyReset(ws[j].intake.periods, competition, now) <==>
            exists k {:trigger ResetAt(ws, ms, k, competition, Week.CurrentWindow(now))} | 0 <= k < j ::
              ResetAt(ws, ms, k, competition, Week.CurrentWindow(now))
  {
    if AlreadyReset(ws[j].intake.periods, competition, now) {
      MarkedWindowsWereReset(s, ws, ms, j, competition, now);
    }
    forall k | 0 <= k < j && ResetAt(ws, ms, k, competition, Week.CurrentWindow(now))
      ensures AlreadyReset(ws[j].intake.periods, competition, now)
    {
      MarkedStays(s, ws, ms, k, j, competition, now);
    }
  }

  // ----- nothing older comes back -----

  lemma ResetEmpties(inc: nat, g: Game, competition: CompetitionId, ids: seq<BoardId>, releases: Releases, now: Time, id: BoardId)
    requires GameInv(inc, g) && BoardsOf(g, competition, ids) && id in g.boards && g.boards[id].competition == competition
    ensures var r := ResetBoards(g, ids, releases, now);
            r.Commit? ==> r.value.takeovers == g.takeovers && id in r.value.boards && r.value.boards[id].current.None?
  {
    ResetBlanksAll(inc, g, ids, releases, now);
  }

  /** A reset that changes anything blanks every board of its competition. */
  lemma ChangingResetBlanks(s: Settings, w: World, competition: CompetitionId, ids: seq<BoardId>, releases: Releases, now: Time, id: BoardId)
    requires WorldInv(s, w) && BoardsOf(w.game, competition, ids) && id in w.game.boards && w.game.boards[id].competition == competition
    requires var r := ResetStep(w, competition, ids, releases, now); r.Commit? && r.value.0 != w
    ensures var g' := ResetStep(w, competition, ids, releases, now).value.0.game;
            g'.takeovers == w.game.takeovers && id in g'.boards && g'.boards[id].current.None?
  {
    ResetEmpties(s.rules.increment, w.game, competition, ids, releases, now, id);
  }

  lemma BlankAfterReset(s: Settings, ws: seq<World>, ms: seq<Moment>, k: nat, id: BoardId)
    requires IsRun(s, ws, ms) && k < |ms| && ms[k].step.Reset? && ws[k + 1] != ws[k]
    requires id in ws[k].game.boards && ws[k].game.boards[id].competition == ms[k].step.competition
    ensures ws[k + 1].game.takeovers == ws[k].game.takeovers
    ensures id in ws[k + 1].game.boards && ws[k + 1].game.boards[id].current.None?
  {
    RunsStayInOrder(s, ws, ms, k);
    assert Connects(s, ws, ms, k);
    var step := ms[k].step;
    ChangingResetBlanks(s, ws[k], step.competition, step.ids, step.releases, ms[k].at, id);
  }

  /**
   After a reset that changed anything, no board of its competition ever again shows a takeover that was
   published before it, whatever is reported, removed or restored later.
   */
  lemma ResetsAreFinal(s: Settings, ws: seq<World>, ms: seq<Moment>, k: nat, i: nat, id: BoardId)
    requires IsRun(s, ws, ms) && k < i < |ws| && ms[k].step.Reset? && ws[k + 1] != ws[k]
    requires id in ws[k].game.boards && ws[k].game.boards[id].competition == ms[k].step.competition
    ensures id in ws[i].game.boards && ws[i].game.boards[id].current.Some? ==>
              ws[i].game.boards[id].current.value !in ws[k].game.takeovers
  {
    BlankAfterReset(s, ws, ms, k, id);
    BlankStaysClean(s, ws, ms, k + 1, i, ws[k].game.takeovers.Keys, id);
  }

  /** A blank board with nothing but older takeovers behind it never shows one of them again. */
  lemma BlankStaysClean(s: Settings, ws: seq<World>, ms: seq<Moment>, k: nat, i: nat, older: set<BidId>, id: BoardId)
    requires IsRun(s, ws, ms) && k <= i < |ws| && older == ws[k].game.takeovers.Keys
    requires id in ws[k].game.boards && ws[k].game.boards[id].current.None?
    ensures id in ws[i].game.boards && ws[i].game.boards[id].current.Some? ==> ws[i].game.boards[id].current.value !in older
  {
    EverythingIsPaid(s, ws, ms, k, id);
    EverythingIsOlder(older, ws[k].game, ws[k].books, id);
    RunsStayInOrder(s, ws, ms, k);
    SuffixFollows(s, ws, ms, k);
    RunsStayTraced(s, older, id, ws[k..], ms[k..], i - k);
  }

  lemma EverythingIsPaid(s: Settings, ws: seq<World>, ms: seq<Moment>, k: nat, id: BoardId)
    requires IsRun(s, ws, ms) && k < |ws|
    ensures Traced({}, id, ws[k].game, ws[k].books)
  {
    InitialIsInOrder(s, ws[0]);
    RunsStayTraced(s, {}, id, ws, ms, k);
  }

  lemma EverythingIsOlder(older: set<BidId>, g: Game, b: Books, id: BoardId)
    requires Traced({}, id, g, b) && older == g.takeovers.Keys && (id in g.boards ==> g.boards[id].current.None?)
    ensures Traced(older, id, g, b)
  {
    forall t | t in g.takeovers ensures PaidFor(g, b, t) && IsNewer(older, g, id, t) { assert t in older; }
  }

  lemma SuffixFollows(s: Settings, ws: seq<World>, ms: seq<Moment>, k: nat)
    requires Follows(s, ws, ms) && k <= |ms|
    ensures Follows(s, ws[k..], ms[k..])
  {
    forall i | 0 <= i < |ms[k..]| ensures Connects(s, ws[k..], ms[k..], i) {
      assert Connects(s, ws, ms, k + i);
    }
  }
}
