// The invariant of the whole system, and every step keeping it.
module Safety {
  import opened Base
  import opened Pricing
  import opened Rows
  import opened Takeovers
  import opened GameInvariant
  import opened GameSteps
  import opened Books
  import opened BooksInvariant
  import opened BooksSteps
  import opened Desk
  import opened DeskInvariant
  import opened DeskSteps
  import opened Intake
  import opened Risk
  import opened Protocol

  /** The provider has captured only payments of bids that took a board over for real money. */
  ghost predicate CollectedOk(g: Game, i: IntentId) {
    i.owner in g.takeovers && i.owner in g.bids && !g.bids[i.owner].status.DemoWon?
  }

  ghost predicate OwnIntent(g: Game, p: BidId)
    requires p in g.bids
  {
    g.bids[p].intent.Some? ==> g.bids[p].intent.value.owner == p
  }

  ghost predicate PaidInv(g: Game, b: Books) {
    && (forall i {:trigger CollectedOk(g, i)} | i in b.collected :: CollectedOk(g, i))
    && (forall p {:trigger OwnIntent(g, p)} | p in g.bids :: OwnIntent(g, p))
    && g.contacts.Keys == b.accounts.Keys
  }

  /** A paid bid used up its approval and confirmation and stayed under the global maximum. */
  ghost predicate InputsOk(cap: nat, g: Game, t: Intake, p: BidId)
    requires p in g.bids
  {
    var row := g.bids[p];
    && (row.approval.Some? ==>
          && row.amount <= cap
          && row.approval.value in t.approvals && t.approvals[row.approval.value].consumedAt.Some?)
    && (row.confirmation.Some? ==>
          row.confirmation.value in t.confirmations && t.confirmations[row.confirmation.value].consumedAt.Some?)
  }

  /** One approval backs at most one bid. */
  ghost predicate OwnApproval(g: Game, p: BidId, q: BidId)
    requires p in g.bids && q in g.bids
  {
    p != q && g.bids[p].approval.Some? ==> g.bids[p].approval != g.bids[q].approval
  }

  ghost predicate SameActive(periods: Periods, k: PeriodKey, l: PeriodKey)
    requires k in periods && l in periods
  {
    periods[k].active && periods[l].active && k.competition == l.competition ==> k == l
  }

  ghost predicate IntakeInv(cap: nat, g: Game, t: Intake) {
    && (forall p {:trigger InputsOk(cap, g, t, p)} | p in g.bids :: InputsOk(cap, g, t, p))
    && (forall p, q {:trigger OwnApproval(g, p, q)} | p in g.bids && q in g.bids :: OwnApproval(g, p, q))
    && (forall k, l {:trigger SameActive(t.periods, k, l)} | k in t.periods && l in t.periods :: SameActive(t.periods, k, l))
  }

  /** A challenger only ever waits behind a live takeover that was given a guarantee. */
  ghost predicate WaitsBehind(g: Game, id: BoardId)
    requires id in g.boards
  {
    g.boards[id].pending.Some? ==> g.boards[id].current.Some? && g.boards[id].guaranteedUntil.Some?
  }

  ghost predicate NobodyWaitsForNothing(g: Game) {
    forall id {:trigger WaitsBehind(g, id)} | id in g.boards :: WaitsBehind(g, id)
  }

  /** Everything but the last clause also holds in the middle of a step. */
  ghost predicate CoreInv(s: Settings, w: World) {
    && s.rules.increment > 0
    && GameInv(s.rules.increment, w.game)
    && BooksInv(w.game.bids, w.books)
    && DeskInv(w.game, w.books, w.desk)
    && PaidInv(w.game, w.books)
    && IntakeInv(s.risk.globalMax, w.game, w.intake)
  }

  ghost predicate WorldInv(s: Settings, w: World) {
    CoreInv(s, w) && NobodyWaitsForNothing(w.game)
  }

  // ----- quiet changes of the game tables -----

  /** What the other invariants need from a change that touches the game tables only. */
  ghost predicate Quiet(g: Game, g': Game) {
    && g'.bids.Keys == g.bids.Keys && g.takeovers.Keys <= g'.takeovers.Keys && g'.contacts == g.contacts
    && g.cases.Keys <= g'.cases.Keys
    && (forall p {:trigger g'.bids[p]} | p in g.bids ::
          && SameBid(g'.bids[p], g.bids[p])
          && (g.bids[p].status.AuthCanceled? ==> g'.bids[p].status.AuthCanceled?)
          && (g'.bids[p].status.DemoWon? ==> g.bids[p].status.DemoWon? || p !in g.takeovers)
          && (g'.bids[p].intent == g.bids[p].intent || (g'.bids[p].intent.Some? && g'.bids[p].intent.value.owner == p)))
    && (forall c {:trigger IsRemoved(g', c)} :: IsRemoved(g', c) <==> IsRemoved(g, c))
    && (forall p {:trigger p in g'.evidence} | p in g.takeovers ::
          (p in g'.evidence <==> p in g.evidence) && (p in g.evidence ==> g'.evidence[p].email == g.evidence[p].email))
  }

  lemma QuietKeepsOthers(s: Settings, w: World, g': Game)
    requires CoreInv(s, w) && Quiet(w.game, g') && GameInv(s.rules.increment, g')
    ensures CoreInv(s, w.(game := g'))
  {
    var g, b, d := w.game, w.books, w.desk;
    BooksIgnoreGame(g.bids, g'.bids, b);
    DeskFrame(g, b, d, g', b);
    QuietKeepsPaid(s, w, g');
  }

  lemma QuietKeepsPaid(s: Settings, w: World, g': Game)
    requires CoreInv(s, w) && Quiet(w.game, g')
    ensures PaidInv(g', w.books) && IntakeInv(s.risk.globalMax, g', w.intake)
  {
    var g, b := w.game, w.books;
    forall i | i in b.collected ensures CollectedOk(g', i) { assert CollectedOk(g, i); }
    forall p | p in g'.bids ensures OwnIntent(g', p) && InputsOk(s.risk.globalMax, g', w.intake, p) {
      assert OwnIntent(g, p) && InputsOk(s.risk.globalMax, g, w.intake, p);
    }
    forall p, q | p in g'.bids && q in g'.bids ensures OwnApproval(g', p, q) { assert OwnApproval(g, p, q); }
  }

  /** A change of the books that refunds nothing and captures no more. */
  lemma BooksStepKeepsOthers(s: Settings, w: World, b': Books)
    requires CoreInv(s, w) && BooksInv(w.game.bids, b') && Grows(w.books, b') && RefundsNothing(w.books, b')
    requires b'.collected == w.books.collected
    ensures CoreInv(s, w.(books := b'))
  {
    DeskFrame(w.game, w.books, w.desk, w.game, b');
    forall i | i in b'.collected ensures CollectedOk(w.game, i) { assert CollectedOk(w.game, i); }
  }
}
