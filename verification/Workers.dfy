// The worker loops: each pass is a sequence of transactions, and says what it leaves behind.
module Workers {
  import opened Base
  import opened Rows
  import opened Pricing
  import opened Takeovers
  import opened GameInvariant
  import opened GameSteps
  import opened Books
  import opened Desk
  import opened DeskInvariant
  import opened Protocol
  import opened Safety
  import opened SafetySteps
  import opened EventSteps
  import opened Machine
  import opened Outcomes
  import opened Remedies
  import opened Services

  /** How the provider answers a settlement pass; without a provider the game is free play. */
  datatype Provider = Demo | Stripe(replies: map<BoardId, CaptureReply>)

  function Answer(provider: Provider, id: BoardId): Option<CaptureReply> {
    if provider.Demo? then None
    else if id in provider.replies then Some(provider.replies[id])
    else Some(Declined)
  }

  ghost predicate HonestAbout(g: Game, id: BoardId, provider: Provider)
    requires id in g.boards
  {
    Answer(provider, id).Some? ==> HonestFor(g, id, Answer(provider, id).value)
  }

  lemma FinalizingSparesOthers(inc: nat, g: Game, id: BoardId, rules: BoardRules, now: Time, mode: CaptureMode, other: BoardId)
    requires GameInv(inc, g) && id in g.boards && other in g.boards && other != id
    ensures var r := FinalizeLocked(g, id, rules, now, mode);
            && r.Commit? && other in r.value.0.boards && r.value.0.boards[other] == g.boards[other]
            && (g.boards[other].pending.Some? ==>
                  && g.boards[other].pending.value in g.bids && g.boards[other].pending.value in r.value.0.bids
                  && r.value.0.bids[g.boards[other].pending.value] == g.bids[g.boards[other].pending.value])
  {
    FinalizeKeepsInv(inc, g, id, rules, now, mode);
    assert BoardOk(inc, g, id) && BoardOk(inc, g, other);
  }

  /** The board waits for the same bid, and nothing has happened to that. */
  predicate SameChallenger(g: Game, g': Game, id: BoardId)
    requires id in g.boards && id in g'.boards
  {
    && g'.boards[id] == g.boards[id]
    && (g.boards[id].pending.Some? && g.boards[id].pending.value in g.bids ==>
          g.boards[id].pending.value in g'.bids && g'.bids[g.boards[id].pending.value] == g.bids[g.boards[id].pending.value])
  }

  /** Settling one board leaves every other board, its challenger and its answer as they were. */
  lemma SettlingSparesOtherBoards(s: Settings, w: World, id: BoardId, now: Time, provider: Provider, other: BoardId)
    requires WorldInv(s, w) && id in w.game.boards && other in w.game.boards && other != id
    ensures var r := Settle(w, id, s.rules, now, Answer(provider, id));
            && r.Commit? && other in r.value.0.game.boards && r.value.0.game.boards[other] == w.game.boards[other]
            && (HonestAbout(w.game, other, provider) ==> HonestAbout(r.value.0.game, other, provider))
            && SameChallenger(w.game, r.value.0.game, other)
  {
    FinalizingSparesOthers(s.rules.increment, w.game, id, s.rules, now, CaptureMode.FreePlay, other);
    FinalizingSparesOthers(s.rules.increment, w.game, id, s.rules, now, Paid(true), other);
    FinalizingSparesOthers(s.rules.increment, w.game, id, s.rules, now, Paid(false), other);
  }

  /** The board after its settlement: taken over by an overdue challenger that pays, free of one that does not, or as it was. */
  ghost predicate SettledAs(s: Settings, g: Game, id: BoardId, after: Board, now: Time, provider: Provider)
    requires id in g.boards
  {
    var before := g.boards[id];
    if !Overdue(before, now) then after == before
    else
      && before.pending.value in g.bids
      && var p, row := before.pending.value, g.bids[before.pending.value];
      && after == if !Pays(row, Answer(provider, id)) then before.(pending := None)
                  else before.(current := Some(p), controller := Some(row.bidder), amount := row.amount, message := row.message, pending := None,
                               guaranteedUntil := Some(now + s.rules.displaySeconds * SECOND), version := before.version + 1)
  }

  /** What is reported about the listed boards: one result for each challenger that was overdue, and whether it paid. */
  function ResultsFor(g: Game, ids: seq<BoardId>, now: Time, provider: Provider): seq<FinalizationResult>
    decreases |ids|
  {
    if ids == [] then []
    else
      var last := ids[|ids| - 1];
      ResultsFor(g, ids[..|ids| - 1], now, provider)
      + if last in g.boards && Overdue(g.boards[last], now) && g.boards[last].pending.value in g.bids
        then [FinalizationResult(last, g.boards[last].pending.value, Pays(g.bids[g.boards[last].pending.value], Answer(provider, last)))]
        else []
  }

  /** One turn of the settlement pass. */
  lemma SettlingClearsTheBoard(s: Settings, w: World, id: BoardId, now: Time, provider: Provider)
    requires WorldInv(s, w) && id in w.game.boards && HonestAbout(w.game, id, provider)
    ensures var r := Settle(w, id, s.rules, now, Answer(provider, id));
            && r.Commit? && WorldInv(s, r.value.0) && r.value.0.game.boards.Keys == w.game.boards.Keys
            && !IsDue(r.value.0.game.boards[id], now)
  {
    if provider.Demo? {
      FreeSettleKeepsInv(s, w, id, now);
    } else {
      assert WaitsBehind(w.game, id);
      SettlePaidKeepsCore(s, w, id, now, Answer(provider, id).value);
      SettlePaidBoards(s, w, id, now, Answer(provider, id).value);
    }
  }

  lemma SettlingOneBoard(s: Settings, g0: Game, w: World, id: BoardId, now: Time, provider: Provider)
    requires WorldInv(s, w) && id in g0.boards && id in w.game.boards && SameChallenger(g0, w.game, id)
    requires g0.boards[id].pending.Some? ==> g0.boards[id].pending.value in g0.bids
    ensures var r := Settle(w, id, s.rules, now, Answer(provider, id));
            && r.Commit? && id in r.value.0.game.boards && SettledAs(s, g0, id, r.value.0.game.boards[id], now, provider)
            && (if r.value.1.Some? then [r.value.1.value] else []) == ResultsFor(g0, [id], now, provider)
  {
    SettlementOutcome(s, w, id, now, Answer(provider, id));
    assert [id][..0] == [];
  }

  /** Where the pass stands before its turn `i`. */
  ghost predicate PassSoFar(s: Settings, g0: Game, w: World, due: seq<BoardId>, i: nat, now: Time, provider: Provider)
    requires i <= |due|
  {
    && WorldInv(s, w) && w.game.boards.Keys == g0.boards.Keys
    && (forall k | 0 <= k < |due| :: due[k] in g0.boards)
    && (forall k | 0 <= k < i :: !IsDue(w.game.boards[due[k]], now) && SettledAs(s, g0, due[k], w.game.boards[due[k]], now, provider))
    && (forall k | i <= k < |due| :: HonestAbout(w.game, due[k], provider) && SameChallenger(g0, w.game, due[k]))
    && (forall b | b in g0.boards && b !in due :: w.game.boards[b] == g0.boards[b])
  }

  /** What a finished pass leaves behind. */
  ghost predicate PassDone(s: Settings, g0: Game, after: map<BoardId, Board>, due: seq<BoardId>, now: Time, provider: Provider) {
    && after.Keys == g0.boards.Keys
    && (forall i | 0 <= i < |due| && due[i] in after :: !IsDue(after[due[i]], now) && SettledAs(s, g0, due[i], after[due[i]], now, provider))
    && (forall b | b in after && b !in due :: after[b] == g0.boards[b])
  }

  lemma PassAdvances(s: Settings, g0: Game, w: World, due: seq<BoardId>, i: nat, now: Time, provider: Provider)
    requires Linked(g0) && i < |due| && PassSoFar(s, g0, w, due, i, now, provider)
    requires forall j, k | 0 <= j < k < |due| :: due[j] != due[k]
    ensures due[i] in w.game.boards && Linked(w.game)
    ensures var r := Settle(w, due[i], s.rules, now, Answer(provider, due[i]));
            && r.Commit? && PassSoFar(s, g0, r.value.0, due, i + 1, now, provider)
            && (if r.value.1.Some? then [r.value.1.value] else []) == ResultsFor(g0, [due[i]], now, provider)
  {
    assert BoardLinked(g0, due[i]);
    SettlingClearsTheBoard(s, w, due[i], now, provider);
    SettlingOneBoard(s, g0, w, due[i], now, provider);
    PassSparesOthers(s, g0, w, due, i, now, provider);
    TurnCompletes(s, g0, w, Settle(w, due[i], s.rules, now, Answer(provider, due[i])).value.0, due, i, now, provider);
  }

  /** A turn that settles its board and spares the others brings the pass one board further. */
  lemma TurnCompletes(s: Settings, g0: Game, w: World, w': World, due: seq<BoardId>, i: nat, now: Time, provider: Provider)
    requires i < |due| && PassSoFar(s, g0, w, due, i, now, provider) && WorldInv(s, w') && w'.game.boards.Keys == g0.boards.Keys
    requires !IsDue(w'.game.boards[due[i]], now) && SettledAs(s, g0, due[i], w'.game.boards[due[i]], now, provider)
    requires forall k | 0 <= k < |due| && k != i :: w'.game.boards[due[k]] == w.game.boards[due[k]]
    requires forall k | i < k < |due| :: HonestAbout(w'.game, due[k], provider) && SameChallenger(g0, w'.game, due[k])
    requires forall b | b in g0.boards && b !in due :: w'.game.boards[b] == g0.boards[b]
    ensures PassSoFar(s, g0, w', due, i + 1, now, provider)
  {
  }

  lemma PassSparesOthers(s: Settings, g0: Game, w: World, due: seq<BoardId>, i: nat, now: Time, provider: Provider)
    requires Linked(g0) && i < |due| && PassSoFar(s, g0, w, due, i, now, provider)
    requires forall j, k | 0 <= j < k < |due| :: due[j] != due[k]
    ensures var r := Settle(w, due[i], s.rules, now, Answer(provider, due[i]));
            r.Commit? && r.value.0.game.boards.Keys == g0.boards.Keys ==>
              && (forall k | 0 <= k < |due| && k != i :: r.value.0.game.boards[due[k]] == w.game.boards[due[k]])
              && (forall k | i < k < |due| :: HonestAbout(r.value.0.game, due[k], provider) && SameChallenger(g0, r.value.0.game, due[k]))
              && (forall b | b in g0.boards && b !in due :: r.value.0.game.boards[b] == g0.boards[b])
  {
    forall b | b in g0.boards && b != due[i]
      ensures var r := Settle(w, due[i], s.rules, now, Answer(provider, due[i]));
              && r.Commit? && b in r.value.0.game.boards && r.value.0.game.boards[b] == w.game.boards[b]
              && (HonestAbout(w.game, b, provider) ==> HonestAbout(r.value.0.game, b, provider))
              && (SameChallenger(g0, w.game, b) ==> SameChallenger(g0, r.value.0.game, b))
    {
      assert BoardLinked(g0, b);
      SettlingSparesOtherBoards(s, w, due[i], now, provider, b);
    }
  }

  lemma ReportNext(g: Game, due: seq<BoardId>, i: nat, now: Time, provider: Provider)
    requires i < |due|
    ensures ResultsFor(g, due[..i + 1], now, provider) == ResultsFor(g, due[..i], now, provider) + ResultsFor(g, [due[i]], now, provider)
  {
    assert due[..i + 1][..i] == due[..i] && [due[i]][..0] == [];
  }

  /** One turn of the pass. */
  method FinalizeNext(sys: System, ghost g0: Game, due: seq<BoardId>, i: nat, provider: Provider, now: Time,
                      results: seq<FinalizationResult>) returns (more: seq<FinalizationResult>)
    requires Linked(g0) && i < |due| && PassSoFar(sys.settings, g0, sys.Snapshot(), due, i, now, provider)
    requires forall j, k | 0 <= j < k < |due| :: due[j] != due[k]
    requires results == ResultsFor(g0, due[..i], now, provider)
    modifies sys, sys.game, sys.books, sys.desk
    ensures PassSoFar(sys.settings, g0, sys.Snapshot(), due, i + 1, now, provider)
    ensures more == ResultsFor(g0, due[..i + 1], now, provider)
  {
    PassAdvances(sys.settings, g0, sys.Snapshot(), due, i, now, provider);
    ReportNext(g0, due, i, now, provider);
    var r := sys.FinalizeDueBoard(due[i], None, now, Answer(provider, due[i]));
    more := if r.value.Some? then results + [r.value.value] else results;
  }

  /**
   One polling pass over the listed boards. Each of them whose challenger is overdue is taken over by it if the provider
   has its money, and freed of it otherwise; no other board changes, no listed board stays due, and the results name
   every challenger that was overdue and whether it was published.
   */
  method FinalizeDueBoards(sys: System, due: seq<BoardId>, provider: Provider, now: Time) returns (results: seq<FinalizationResult>)
    requires WorldInv(sys.settings, sys.Snapshot())
    requires forall i | 0 <= i < |due| :: due[i] in sys.game.boards && HonestAbout(sys.game.Rows(), due[i], provider)
    requires forall i, j | 0 <= i < j < |due| :: due[i] != due[j]
    modifies sys, sys.game, sys.books, sys.desk
    ensures WorldInv(sys.settings, sys.Snapshot())
    ensures PassDone(sys.settings, old(sys.game.Rows()), sys.game.boards, due, now, provider)
    ensures results == ResultsFor(old(sys.game.Rows()), due, now, provider)
  {
    ghost var g0 := sys.game.Rows();
    results := [];
    for i := 0 to |due|
      invariant PassSoFar(sys.settings, g0, sys.Snapshot(), due, i, now, provider)
      invariant results == ResultsFor(g0, due[..i], now, provider)
    {
      results := FinalizeNext(sys, g0, due, i, provider, now, results);
    }
    assert due[..|due|] == due;
  }

  // ----- one payment action -----

  /** There is something to ask of the provider for bid `p`: a release, or a refund of a known positive amount. */
  predicate Asks(w: World, p: BidId)
    requires p in w.desk.actions && p in w.game.bids
  {
    var a, net := w.desk.actions[p], NetOf(w.game, w.books, p);
    Workable(a) && (a.op.CancelAuthorization? || (net.Some? && net.value > 0))
  }

  /** What the provider is asked for bid `p`. */
  function Asked(w: World, p: BidId): seq<Call>
    requires p in w.desk.actions && p in w.game.bids
  {
    var a, net := w.desk.actions[p], NetOf(w.game, w.books, p);
    if !Asks(w, p) then []
    else [Call(key := Key(a.op, a.caseOf), bid := p, amount := if a.op.IssueRefund? && net.value >= 0 then Some(net.value) else None)]
  }

  /** Two steps, the second only if the provider was asked. */
  ghost function Performed(s: Settings, w: World, p: BidId, answer: Option<string>, begun: Time, ended: Time): World
    requires Enabled(w, BeginPayment(p))
  {
    var w1 := Apply(s, w, BeginPayment(p), begun);
    if Asks(w, p) && Enabled(w1, EndPayment(p, answer)) then Apply(s, w1, EndPayment(p, answer), ended) else w1
  }

  lemma ActionsCanBegin(s: Settings, w: World, p: BidId)
    requires WorldInv(s, w) && p in w.desk.actions
    ensures Enabled(w, BeginPayment(p))
  {
    assert ActionOk(w.game, w.books, w.desk, p);
  }

  lemma BeginAsks(s: Settings, w: World, p: BidId, now: Time)
    requires WorldInv(s, w) && Enabled(w, BeginPayment(p))
    ensures var w1 := Apply(s, w, BeginPayment(p), now);
            && WorldInv(s, w1) && Enabled(w1, EndPayment(p, None)) && w1.game == w.game && w1.books == w.books
            && w1.desk.calls == w.desk.calls + Asked(w, p)
            && (w1.desk.actions[p].status.ActionProcessing? <==> Asks(w, p) || w.desk.actions[p].status.ActionProcessing?)
            && (w1.desk.actions[p].status.ActionSucceeded? <==> w.desk.actions[p].status.ActionSucceeded?)
            && (!Workable(w.desk.actions[p]) ==> w1 == w)
  {
    StepKeepsInv(s, w, BeginPayment(p), now);
    BeginOutcome(s, w, p, now);
    RefundedNoticeWaits(w.game, w.books, w.desk, p);
  }

  lemma EndConcludes(s: Settings, w: World, p: BidId, answer: Option<string>, now: Time)
    requires WorldInv(s, w) && Enabled(w, EndPayment(p, answer)) && w.desk.actions[p].status.ActionProcessing?
    ensures var w2 := Apply(s, w, EndPayment(p, answer), now);
            && WorldInv(s, w2) && p in w2.desk.actions && w2.desk.calls == w.desk.calls
            && (w2.desk.actions[p].status.ActionSucceeded? <==> answer.Some?)
  {
    StepKeepsInv(s, w, EndPayment(p, answer), now);
    EndOutcome(s, w, p, answer, now);
  }

  /**
   One payment action, start to finish, with nobody else at work on it. The provider is asked exactly if there is
   something to ask for, once, and only after the claim commits; the tables move by the two steps of the action, and the
   result says whether it has succeeded.
   */
  method ProcessPaymentAction(sys: System, id: BidId, answer: Option<string>, begun: Time, ended: Time) returns (succeeded: bool)
    requires WorldInv(sys.settings, sys.Snapshot()) && id in sys.desk.actions
    modifies sys, sys.game, sys.books, sys.desk
    ensures WorldInv(sys.settings, sys.Snapshot()) && id in sys.desk.actions && (succeeded <==> sys.desk.actions[id].status.ActionSucceeded?)
    ensures var w := old(sys.Snapshot());
            && Enabled(w, BeginPayment(id)) && sys.Snapshot() == Performed(sys.settings, w, id, answer, begun, ended)
            && sys.desk.calls == w.desk.calls + Asked(w, id)
            && (succeeded <==> (Asks(w, id) && answer.Some?) || w.desk.actions[id].status.ActionSucceeded?)
  {
    ghost var w := sys.Snapshot();
    ActionsCanBegin(sys.settings, w, id);
    BeginAsks(sys.settings, w, id, begun);
    var action := sys.desk.actions[id];
    if action.status.ActionSucceeded? || action.status.ActionNotRequired? || action.status.ActionProcessing? {
      return action.status.ActionSucceeded?;
    }
    sys.BeginPaymentAction(id, begun);
    if !sys.desk.actions[id].status.ActionProcessing? { return false; }
    succeeded := Conclude(sys, id, answer, ended);
  }

  /** The second transaction, for a claimed action. */
  method Conclude(sys: System, id: BidId, answer: Option<string>, now: Time) returns (succeeded: bool)
    requires WorldInv(sys.settings, sys.Snapshot()) && Enabled(sys.Snapshot(), EndPayment(id, answer))
    requires sys.desk.actions[id].status.ActionProcessing?
    modifies sys, sys.game, sys.books, sys.desk
    ensures WorldInv(sys.settings, sys.Snapshot()) && sys.desk.calls == old(sys.desk.calls)
    ensures sys.Snapshot() == Apply(sys.settings, old(sys.Snapshot()), EndPayment(id, answer), now)
    ensures id in sys.desk.actions && (succeeded <==> sys.desk.actions[id].status.ActionSucceeded?) && succeeded == answer.Some?
  {
    EndConcludes(sys.settings, sys.Snapshot(), id, answer, now);
    var _ := sys.EndPaymentAction(id, answer, now);
    return answer.Some?;
  }

  /**
   One notice, with nobody else at work on it: it is handed to the mail provider exactly when it could be
   claimed, and ends as the provider answered.
   */
  method DeliverNotice(sys: System, c: BidId, answer: Delivery, claimedAt: Time, answeredAt: Time) returns (delivered: bool)
    requires c in sys.desk.notices
    modifies sys, sys.game, sys.books, sys.desk
    ensures c in sys.desk.notices && sys.desk.notices == old(sys.desk.notices)[c := sys.desk.notices[c]]
    ensures sys.Snapshot() == old(sys.Snapshot()).(desk := sys.desk.Rows()) && sys.desk.actions == old(sys.desk.actions) && sys.desk.calls == old(sys.desk.calls)
    ensures if Claimable(old(sys.desk.notices[c]), sys.settings.mail, claimedAt)
            then
              var was := old(sys.desk.notices[c]);
              && sys.desk.sends == old(sys.desk.sends) + [Send(c, was.recipient, was.context)]
              && (delivered <==> sys.desk.notices[c].status.Sent?)
              && (answer.Inert? <==> sys.desk.notices[c].status.Suppressed?)
              && (answer.Refused? ==> sys.desk.notices[c].availableAt == answeredAt + RetryDelay(sys.settings.mail, was.attempts + 1) * SECOND)
            else !delivered && sys.Snapshot() == old(sys.Snapshot())
  {
    var claim := |sys.desk.sends|;
    var claimed := sys.desk.Claim(c, sys.settings.mail, claimedAt);
    if claimed.None? { return false; }
    sys.desk.Finish(claim, sys.settings.mail, answer, answeredAt);
    return answer.Delivered?;
  }
}
