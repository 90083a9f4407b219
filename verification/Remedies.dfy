// The payment work of a removal: what is queued, what is asked of the provider, and what the owner is told.
module Remedies {
  import opened Base
  import opened Rows
  import opened Takeovers
  import opened GameInvariant
  import opened Books
  import opened BooksInvariant
  import opened Desk
  import opened DeskInvariant
  import opened DeskSteps
  import opened Protocol
  import opened Safety
  import opened EventSteps
  import opened Machine
  import opened History
  import opened Leases

  // ----- what a removal queues -----

  /** The challenger that goes down with takeover `p`, if that is live. */
  function Dropped(g: Game, p: BidId): Option<BidId>
    requires p in g.takeovers && g.takeovers[p].board in g.boards
  {
    var board := g.boards[g.takeovers[p].board];
    if board.current == Some(p) then board.pending else None
  }

  /** An action that has just been queued: it is pending if there is anything to ask for, and done with otherwise. */
  function Queued(caseOf: BidId, op: Operation, needed: bool, now: Time): Action {
    Action(caseOf := caseOf, op := op, status := if needed then ActionPending else ActionNotRequired, amount := None,
           attempts := 0, reference := None, completedAt := if needed then None else Some(now))
  }

  /** The desk after takeover `p` has been removed. */
  ghost predicate QueuesWork(g: Game, d: Desk, p: BidId, now: Time, d': Desk)
    requires p in g.takeovers && g.takeovers[p].board in g.boards && p in g.bids && g.bids[p].bidder in g.contacts
  {
    var q, owed := Dropped(g, p), g.bids[p].status.Won? && g.bids[p].intent.Some?;
    var to := if p in g.evidence then g.evidence[p].email else g.contacts[g.bids[p].bidder];
    && d'.calls == d.calls && d'.sends == d.sends && d'.mail == d.mail
    && p !in d.actions && p !in d.notices && (q.Some? ==> q.value in g.bids && q.value !in d.actions && q.value != p)
    && d'.actions == (if q.Some? then d.actions[q.value := Queued(p, CancelAuthorization, g.bids[q.value].intent.Some?, now)]
                      else d.actions)[p := Queued(p, IssueRefund, owed, now)]
    && d'.notices == if !to.wellFormed then d.notices
                     else d.notices[p := Notice(recipient := to.address, context := Context(g.takeovers[p].board, now, p, None),
                                                status := NoticePending, attempts := 0, availableAt := now, waiting := owed,
                                                lockedAt := None, sentAt := None)]
  }

  /**
   Removing an open case queues the refund of the takeover, pending exactly if it was won with a payment, and, when the
   takeover is live, the release of its challenger, pending exactly if that has a payment; it writes the one notice, and
   cancels the challenger.
   */
  lemma RemovalQueuesItsWork(s: Settings, w: World, p: BidId, reason: string, now: Time)
    requires WorldInv(s, w) && p in w.game.cases && w.game.cases[p].status.Open? && 0 < |reason| <= 500
    ensures p in w.game.takeovers && w.game.takeovers[p].board in w.game.boards && p in w.game.bids && w.game.bids[p].bidder in w.game.contacts
    ensures var r := RemoveCaseStep(w, p, reason, now);
            var q := Dropped(w.game, p);
            && r.Commit? && r.value == w.(game := r.value.game, desk := r.value.desk)
            && QueuesWork(w.game, w.desk, p, now, r.value.desk)
            && (q.Some? ==> q.value in w.game.bids && w.game.bids[q.value].status.Authorized?)
            && r.value.game.bids == (if q.Some? then w.game.bids[q.value := w.game.bids[q.value].(status := AuthCanceled, canceledAt := Some(now))]
                                     else w.game.bids)
            && r.value.game.cases == w.game.cases[p := Case(Removed, Some(now))]
            && r.value.game.takeovers == w.game.takeovers && r.value.game.evidence == w.game.evidence && r.value.game.contacts == w.game.contacts
  {
    var g := w.game;
    assert TakeoverLinked(g, p) && BidLinked(g, p);
    assert BoardOk(s.rules.increment, g, g.takeovers[p].board) && StatusOk(g, p);
    QueueWorkCommits(s.rules.increment, g, w.books, w.desk, p, now);
    RemovalIsFresh(s.rules.increment, g, w.books, w.desk, p);
  }

  // ----- the two transactions of the worker -----

  /** What a refund of bid `p` would come to: gross less fee, if the provider's data is complete and consistent. */
  function NetOf(g: Game, b: Books, p: BidId): Option<int>
    requires p in g.bids
  {
    if p !in b.captures || !b.captures[p].available || b.captures[p].fee.None? || b.captures[p].net.None? then None
    else if b.captures[p].gross != g.bids[p].amount || b.captures[p].net.value != b.captures[p].gross - b.captures[p].fee.value then None
    else Some(g.bids[p].amount - b.captures[p].fee.value)
  }

  predicate Workable(a: Action) {
    a.status.ActionPending? || a.status.ActionFailed?
  }

  /** The first transaction of a worker, as it leaves the desk. */
  ghost predicate Begins(g: Game, b: Books, d: Desk, p: BidId, now: Time, d': Desk)
    requires p in d.actions && p in g.bids
  {
    var a, net := d.actions[p], NetOf(g, b, p);
    && d'.sends == d.sends && d'.mail == d.mail && p in d'.actions && d'.actions == d.actions[p := d'.actions[p]]
    && if !Workable(a) then d' == d
       else if a.op.CancelAuthorization? then
         && d'.actions[p] == a.(status := ActionProcessing, attempts := a.attempts + 1)
         && d'.calls == d.calls + [Call(Key(CancelAuthorization, a.caseOf), p, None)] && d'.notices == d.notices
       else if net.None? then
         d'.actions[p] == a.(amount := None) && d'.calls == d.calls && d'.notices == d.notices
       else if net.value <= 0 then
         && d'.actions[p] == a.(status := ActionNotRequired, amount := Some(0), completedAt := Some(now)) && d'.calls == d.calls
         && d'.notices == if p in d.notices then d.notices[p := d.notices[p].(waiting := false, availableAt := now)] else d.notices
       else
         && d'.actions[p] == a.(status := ActionProcessing, amount := Some(net.value), attempts := a.attempts + 1)
         && d'.calls == d.calls + [Call(Key(IssueRefund, p), p, Some(net.value))] && d'.notices == d.notices
  }

  /**
   Beginning an action that is pending or has failed asks the provider once: for the release of a challenger, or for the
   refund of everything but the fee. A refund of unknown amount waits, one of nothing is closed and its notice may go out.
   */
  lemma BeginOutcome(s: Settings, w: World, p: BidId, now: Time)
    requires WorldInv(s, w) && Enabled(w, BeginPayment(p))
    ensures var w' := Apply(s, w, BeginPayment(p), now); w' == w.(desk := w'.desk) && Begins(w.game, w.books, w.desk, p, now, w'.desk)
  {
    RefundedNoticeWaits(w.game, w.books, w.desk, p);
    BeginWrites(w.game, w.books, w.desk, p, now);
  }

  /** A refund that may begin has a waiting notice, unless nobody can be written to. */
  lemma RefundedNoticeWaits(g: Game, b: Books, d: Desk, p: BidId)
    requires DeskInv(g, b, d) && p in d.actions
    ensures d.actions[p].op.IssueRefund? ==> d.actions[p].caseOf == p
    ensures d.actions[p].op.IssueRefund? && Workable(d.actions[p]) ==>
              && p in g.bids && g.bids[p].bidder in g.contacts
              && (p in d.notices ==> d.notices[p].waiting && d.notices[p].status.NoticePending?)
              && (p !in d.notices ==> !Recipient(g, p).wellFormed)
              && (p in d.notices ==> Recipient(g, p).wellFormed)
  {
    assert ActionOk(g, b, d, p) && CaseOk(g, d, d.actions[p].caseOf);
    if p in d.notices { assert NoticeOk(g, b, d, p); }
  }

  lemma BeginWrites(g: Game, b: Books, d: Desk, p: BidId, now: Time)
    requires Linked(g) && p in d.actions && p in g.bids && d.actions[p].caseOf in g.cases
    requires d.actions[p].op.IssueRefund? ==> d.actions[p].caseOf == p
    requires d.actions[p].op.IssueRefund? && Workable(d.actions[p]) ==>
               && g.bids[p].bidder in g.contacts
               && (p in d.notices ==> d.notices[p].waiting && d.notices[p].status.NoticePending?)
               && (p in d.notices <==> Recipient(g, p).wellFormed)
    ensures Begins(g, b, d, p, now, BeginAction(g, b, d, p, now))
  {
    assert TakeoverLinked(g, d.actions[p].caseOf) && BidLinked(g, p);
  }

  /** The second transaction of a worker, as it leaves the tables. */
  ghost predicate Ends(w: World, p: BidId, answer: Option<string>, now: Time, w': World)
    requires p in w.desk.actions && p in w.game.bids
  {
    var a, d, d', row := w.desk.actions[p], w.desk, w'.desk, w.game.bids[p];
    && w'.intake == w.intake && d'.calls == d.calls && d'.sends == d.sends && d'.mail == d.mail
    && if !a.status.ActionProcessing? then w' == w
       else if answer.None? then w' == w.(desk := d.(actions := d.actions[p := a.(status := ActionFailed)]))
       else
         && d'.actions == d.actions[p := a.(status := ActionSucceeded, reference := answer, completedAt := Some(now))]
         && (if a.op.CancelAuthorization? then w'.game == w.game && w'.books == w.books && d'.notices == d.notices
             else
               && p in w.books.captures && w.books.captures[p].fee.Some? && a.amount.Some?
               && p in w.game.takeovers && p in w.game.cases && row.bidder in w.books.accounts
               && var u, resolved := w.books.accounts[row.bidder], w.game.cases[p].resolvedAt;
               && w'.game == w.game.(bids := w.game.bids[p := row.(status := Refunded)])
               && w'.books == w.books.(ledger := w.books.ledger + [Entry(Refund, -(a.amount.value as int), row.bidder, row.entity, p)],
                                       accounts := w.books.accounts[row.bidder := u.(refunds := u.refunds + 1)])
               && d'.notices == if p !in d.notices then d.notices
                                else d.notices[p := d.notices[p].(
                                  context := Context(w.game.takeovers[p].board, if resolved.Some? then resolved.value else now, p,
                                                     Some(Figures(row.amount, w.books.captures[p].fee.value, a.amount.value))),
                                  waiting := false, availableAt := now)])
  }

  lemma RefundEndOutcome(s: Settings, w: World, p: BidId, reference: string, now: Time)
    requires WorldInv(s, w) && Enabled(w, EndPayment(p, Some(reference)))
    requires w.desk.actions[p].op.IssueRefund? && w.desk.actions[p].status.ActionProcessing?
    ensures Ends(w, p, Some(reference), now, Apply(s, w, EndPayment(p, Some(reference)), now))
  {
    EndRefundWrites(s.rules.increment, w.game, w.books, w.desk, p, reference, now);
    assert ActionOk(w.game, w.books, w.desk, p) && BidLinked(w.game, p) && CaptureOk(w.game.bids, w.books, p);
  }

  /** What an answer of the provider leaves: a failure to try again, a release, or a refund with its entry, count and figures. */
  lemma EndOutcome(s: Settings, w: World, p: BidId, answer: Option<string>, now: Time)
    requires WorldInv(s, w) && Enabled(w, EndPayment(p, answer))
    ensures Ends(w, p, answer, now, Apply(s, w, EndPayment(p, answer), now))
  {
    if answer.Some? && w.desk.actions[p].op.IssueRefund? && w.desk.actions[p].status.ActionProcessing? {
      RefundEndOutcome(s, w, p, answer.value, now);
    }
  }

  // ----- runs: every request is counted, and every notice tells where and when -----

  /** The requests made for bid `p`. */
  ghost function CallsFor(calls: seq<Call>, p: BidId): set<nat> {
    set n | 0 <= n < |calls| && calls[n].bid == p
  }

  lemma OneMoreCall(calls: seq<Call>, c: Call, p: BidId)
    ensures |CallsFor(calls + [c], p)| == |CallsFor(calls, p)| + if c.bid == p then 1 else 0
  {
    var more: set<nat> := if c.bid == p then {|calls|} else {};
    assert CallsFor(calls + [c], p) == CallsFor(calls, p) + more;
  }

  ghost predicate Counted(d: Desk, p: BidId) {
    |CallsFor(d.calls, p)| == if p in d.actions then d.actions[p].attempts else 0
  }

  /** A notice names the board of its takeover and the moment of its removal. */
  ghost predicate TellsRemoval(g: Game, d: Desk, c: BidId)
    requires c in d.notices
  {
    && c in g.takeovers && c in g.cases && IsRemoved(g, c) && g.cases[c].resolvedAt == Some(d.notices[c].context.removedOn)
    && d.notices[c].context.board == g.takeovers[c].board && d.notices[c].context.reference == c
  }

  ghost predicate RemedyInv(g: Game, d: Desk) {
    && (forall p: BidId {:trigger Counted(d, p)} :: Counted(d, p))
    && (forall c {:trigger TellsRemoval(g, d, c)} | c in d.notices :: TellsRemoval(g, d, c))
  }

  /** Bid `p` has no new attempt. */
  predicate SameAttempts(d: Desk, d': Desk, p: BidId) {
    (if p in d'.actions then d'.actions[p].attempts else 0) == if p in d.actions then d.actions[p].attempts else 0
  }

  /** The tables age, and the desk keeps its requests, its attempts and what its notices tell. */
  lemma AgingKeepsRemedies(g: Game, d: Desk, g': Game, d': Desk)
    requires RemedyInv(g, d) && GameAges(g, g') && d'.calls == d.calls
    requires forall p: BidId {:trigger SameAttempts(d, d', p)} :: SameAttempts(d, d', p)
    requires forall c {:trigger d'.notices[c]} | c in d'.notices :: c in d.notices && d'.notices[c].context == d.notices[c].context
    ensures RemedyInv(g', d')
  {
    forall p: BidId ensures Counted(d', p) { assert Counted(d, p) && SameAttempts(d, d', p); }
    forall c | c in d'.notices ensures TellsRemoval(g', d', c) {
      assert TellsRemoval(g, d, c) && TakeoverStays(g, g', c) && CaseAges(g, g', c);
    }
  }

  lemma RemovalKeepsRemedies(s: Settings, w: World, p: BidId, reason: string, now: Time)
    requires WorldInv(s, w) && RemedyInv(w.game, w.desk)
    ensures var w' := Apply(s, w, Remove(p, reason), now); RemedyInv(w'.game, w'.desk)
  {
    var w' := Apply(s, w, Remove(p, reason), now);
    if p in w.game.cases && w.game.cases[p].status.Open? && 0 < |reason| <= 500 {
      RemovalQueuesItsWork(s, w, p, reason, now);
      forall q: BidId ensures Counted(w'.desk, q) { assert Counted(w.desk, q); }
      forall c | c in w'.desk.notices ensures TellsRemoval(w'.game, w'.desk, c) {
        if c != p { assert TellsRemoval(w.game, w.desk, c); }
      }
    }
  }

  lemma BeginKeepsRemedies(s: Settings, w: World, p: BidId, now: Time)
    requires WorldInv(s, w) && Enabled(w, BeginPayment(p)) && RemedyInv(w.game, w.desk)
    ensures var w' := Apply(s, w, BeginPayment(p), now); RemedyInv(w'.game, w'.desk)
  {
    BeginOutcome(s, w, p, now);
    BegunIsCounted(w.game, w.books, w.desk, p, now, Apply(s, w, BeginPayment(p), now).desk);
  }

  lemma BegunIsCounted(g: Game, b: Books, d: Desk, p: BidId, now: Time, d': Desk)
    requires p in d.actions && p in g.bids && Begins(g, b, d, p, now, d') && RemedyInv(g, d)
    ensures RemedyInv(g, d')
  {
    forall q: BidId ensures Counted(d', q) {
      assert Counted(d, q);
      if d'.calls != d.calls { OneMoreCall(d.calls, d'.calls[|d.calls|], q); }
    }
    forall c | c in d'.notices ensures TellsRemoval(g, d', c) { assert TellsRemoval(g, d, c); }
  }

  lemma EndKeepsRemedies(s: Settings, w: World, p: BidId, answer: Option<string>, now: Time)
    requires WorldInv(s, w) && Enabled(w, EndPayment(p, answer)) && RemedyInv(w.game, w.desk)
    ensures var w' := Apply(s, w, EndPayment(p, answer), now); RemedyInv(w'.game, w'.desk)
  {
    EndOutcome(s, w, p, answer, now);
    EndedIsCounted(w, p, answer, now, Apply(s, w, EndPayment(p, answer), now));
  }

  lemma EndedIsCounted(w: World, p: BidId, answer: Option<string>, now: Time, w': World)
    requires p in w.desk.actions && p in w.game.bids && Ends(w, p, answer, now, w') && RemedyInv(w.game, w.desk)
    ensures RemedyInv(w'.game, w'.desk)
  {
    forall q: BidId ensures Counted(w'.desk, q) { assert Counted(w.desk, q); }
    forall c | c in w'.desk.notices ensures TellsRemoval(w'.game, w'.desk, c) { assert TellsRemoval(w.game, w.desk, c); }
  }

  lemma OthersKeepRemedies(s: Settings, w: World, step: Step, now: Time)
    requires WorldInv(s, w) && Enabled(w, step) && RemedyInv(w.game, w.desk)
    requires !step.Remove? && !step.BeginPayment? && !step.EndPayment?
    ensures var w' := Apply(s, w, step, now); RemedyInv(w'.game, w'.desk)
  {
    StepAges(s, w, step, now);
    if !MovesMail(step) { DeskIsSpared(s, w, step, now); }
    AgingKeepsRemedies(w.game, w.desk, Apply(s, w, step, now).game, Apply(s, w, step, now).desk);
  }

  lemma StepKeepsRemedies(s: Settings, w: World, step: Step, now: Time)
    requires WorldInv(s, w) && Enabled(w, step) && RemedyInv(w.game, w.desk)
    ensures var w' := Apply(s, w, step, now); RemedyInv(w'.game, w'.desk)
  {
    if step.Remove? {
      RemovalKeepsRemedies(s, w, step.about, step.reason, now);
    } else if step.BeginPayment? {
      BeginKeepsRemedies(s, w, step.about, now);
    } else if step.EndPayment? {
      EndKeepsRemedies(s, w, step.about, step.answer, now);
    } else {
      OthersKeepRemedies(s, w, step, now);
    }
  }

  lemma {:induction false} RunsKeepRemedies(s: Settings, ws: seq<World>, ms: seq<Moment>, i: nat)
    requires IsRun(s, ws, ms) && i < |ws|
    ensures RemedyInv(ws[i].game, ws[i].desk)
    decreases i
  {
    if i > 0 {
      RunsKeepRemedies(s, ws, ms, i - 1);
      RunsStayInOrder(s, ws, ms, i - 1);
      assert Connects(s, ws, ms, i - 1);
      StepKeepsRemedies(s, ws[i - 1], ms[i - 1].step, ms[i - 1].at);
    }
  }

  /** An action counts the requests made for its bid, and nothing is requested for any other bid. */
  lemma AttemptsCountCalls(s: Settings, ws: seq<World>, ms: seq<Moment>, i: nat, p: BidId)
    requires IsRun(s, ws, ms) && i < |ws|
    ensures var d := ws[i].desk; |CallsFor(d.calls, p)| == if p in d.actions then d.actions[p].attempts else 0
  {
    RunsKeepRemedies(s, ws, ms, i);
    assert Counted(ws[i].desk, p);
  }

  /** In every state of every run a notice names the board of the removed takeover, the moment of its removal, and its reference. */
  lemma NoticeTellsTheRemoval(s: Settings, ws: seq<World>, ms: seq<Moment>, i: nat, c: BidId)
    requires IsRun(s, ws, ms) && i < |ws| && c in ws[i].desk.notices
    ensures var g, context := ws[i].game, ws[i].desk.notices[c].context;
            && c in g.takeovers && c in g.cases && g.cases[c].resolvedAt == Some(context.removedOn)
            && context.board == g.takeovers[c].board && context.reference == c
  {
    RunsKeepRemedies(s, ws, ms, i);
    assert TellsRemoval(ws[i].game, ws[i].desk, c);
  }
}
