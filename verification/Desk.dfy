// The remediation tables: queued payment actions, removal notices, and what was asked of the providers.
module Desk {
  import opened Base
  import opened Rows
  import opened Takeovers
  import opened Books

  datatype Operation = CancelAuthorization | IssueRefund

  datatype ActionStatus = ActionPending | ActionProcessing | ActionSucceeded | ActionNotRequired | ActionFailed

  /** A durable provider operation; a bid has at most one. */
  datatype Action = Action(
    caseOf: BidId,
    op: Operation,
    status: ActionStatus,
    amount: Option<nat>,
    attempts: nat,
    reference: Option<string>,
    completedAt: Option<Time>)

  datatype NoticeStatus = NoticePending | NoticeProcessing | Sent | NoticeFailed | Suppressed

  datatype Figures = Figures(paid: nat, fee: nat, refunded: nat)

  datatype Context = Context(board: BoardId, removedOn: Time, reference: BidId, figures: Option<Figures>)

  /** One email intent; its event key is the case it is about. */
  datatype Notice = Notice(
    recipient: string,
    context: Context,
    status: NoticeStatus,
    attempts: nat,
    availableAt: Time,
    waiting: bool,
    lockedAt: Option<Time>,
    sentAt: Option<Time>)

  /** The provider idempotency key of an action: its operation and its case. */
  datatype Key = Key(op: Operation, caseOf: BidId)

  datatype Call = Call(key: Key, bid: BidId, amount: Option<nat>)

  datatype Send = Send(eventKey: BidId, recipient: string, context: Context)

  datatype Delivery = Delivered | Inert | Refused

  /** A worker takes a notice and later reports what the mail provider told it, which may or may not be recorded. */
  datatype MailEvent =
    | Claimed(about: BidId, claim: nat, at: Time)
    | Answered(about: BidId, claim: nat, answer: Delivery, recorded: bool, at: Time)

  /** `calls` and `sends` are the histories of provider requests; a claim is named by the send it made. */
  datatype Desk = Desk(
    actions: map<BidId, Action>,
    notices: map<BidId, Notice>,
    calls: seq<Call>,
    sends: seq<Send>,
    mail: seq<MailEvent>)

  function IdempotencyKey(a: Action): Key {
    Key(a.op, a.caseOf)
  }

  /** A refund that has been promised but not settled. */
  predicate Unsettled(a: Action) {
    a.op.IssueRefund? && (a.status.ActionPending? || a.status.ActionProcessing? || a.status.ActionFailed?)
  }

  predicate Final(n: Notice) {
    n.status.Sent? || n.status.Suppressed?
  }

  // ----- notices -----

  function Recipient(g: Game, bid: BidId): Email
    requires bid in g.bids && g.bids[bid].bidder in g.contacts
  {
    if bid in g.evidence then g.evidence[bid].email else g.contacts[g.bids[bid].bidder]
  }

  function RemovalContext(g: Game, bid: BidId, figures: Option<Figures>, now: Time): Context
    requires bid in g.takeovers && bid in g.cases
  {
    var on := if g.cases[bid].resolvedAt.Some? then g.cases[bid].resolvedAt.value else now;
    Context(g.takeovers[bid].board, on, bid, figures)
  }

  /** Create the one notice of a case, or release the one that is waiting. */
  function EnqueueNotice(d: Desk, bid: BidId, to: Email, context: Context, waiting: bool, now: Time): Desk {
    if !to.wellFormed then d
    else if bid !in d.notices then
      d.(notices := d.notices[bid := Notice(to.address, context, NoticePending, 0, now, waiting, None, None)])
    else if d.notices[bid].waiting && !waiting && !Final(d.notices[bid]) then
      d.(notices := d.notices[bid := d.notices[bid].(waiting := false, availableAt := now)])
    else d
  }

  /** Complete the notice with the actual refund figures. */
  function AttachRefund(d: Desk, bid: BidId, to: Email, context: Context, now: Time): Desk {
    if bid !in d.notices then EnqueueNotice(d, bid, to, context, false, now)
    else if Final(d.notices[bid]) then d
    else d.(notices := d.notices[bid := d.notices[bid].(context := context, waiting := false, availableAt := now)])
  }

  // ----- payment actions -----

  function NewAction(caseOf: BidId, bid: Bid, now: Time): Action {
    var op := if bid.status.Authorized? then CancelAuthorization else IssueRefund;
    var needed := bid.intent.Some? && (bid.status.Authorized? || bid.status.Won?);
    Action(caseOf, op, if needed then ActionPending else ActionNotRequired, None, 0, None,
           if needed then None else Some(now))
  }

  /** The single durable operation of a case and a bid. A bid that already has one elsewhere is a constraint error. */
  function PaymentActionFor(d: Desk, caseOf: BidId, id: BidId, bid: Bid, now: Time): (r: Tx<Desk>)
    ensures r.Commit? ==> id in r.value.actions
  {
    if id !in d.actions then Commit(d.(actions := d.actions[id := NewAction(caseOf, bid, now)]))
    else if d.actions[id].caseOf == caseOf then Commit(d)
    else Abort(ConstraintViolated)
  }

  /** Queue a release for the challenger a live takeover takes down with it, and a refund for the takeover. */
  function QueueWork(g: Game, d: Desk, bid: BidId, now: Time): (r: Tx<Desk>)
    requires Linked(g) && bid in g.cases
    ensures r.Commit? ==> bid in r.value.actions
  {
    assert TakeoverLinked(g, bid) && BidLinked(g, bid) && BoardLinked(g, g.takeovers[bid].board);
    var board := g.boards[g.takeovers[bid].board];
    var d1 :- if board.current == Some(bid) && board.pending.Some?
      then PaymentActionFor(d, bid, board.pending.value, g.bids[board.pending.value], now)
      else Commit(d);
    PaymentActionFor(d1, bid, bid, g.bids[bid], now)
  }

  /** Removal: redact and restore, queue the payment work, and enqueue the notice. */
  function RemoveCase(g: Game, d: Desk, bid: BidId, now: Time): Tx<(Game, Desk)>
    requires Linked(g) && bid in g.cases
  {
    if !g.cases[bid].status.Open? then Commit((g, d))
    else
      assert TakeoverLinked(g, bid) && BidLinked(g, bid);
      var d1 :- QueueWork(g, d, bid, now);
      var waiting := d1.actions[bid].op.IssueRefund? && d1.actions[bid].status.ActionPending?;
      var context := Context(g.takeovers[bid].board, now, bid, None);
      Commit((RemoveTakeover(g, bid, now), EnqueueNotice(d1, bid, Recipient(g, bid), context, waiting, now)))
  }

  // ----- the two-phase worker -----

  /** First transaction: claim the action and fix what will be asked of the provider. */
  function BeginAction(g: Game, b: Books, d: Desk, id: BidId, now: Time): Desk
    requires Linked(g) && id in d.actions && id in g.bids && d.actions[id].caseOf in g.cases
  {
    var a := d.actions[id];
    if a.status.ActionSucceeded? || a.status.ActionNotRequired? || a.status.ActionProcessing? then d
    else if a.op.CancelAuthorization? then
      var claimed := a.(status := ActionProcessing, attempts := a.attempts + 1);
      d.(actions := d.actions[id := claimed], calls := d.calls + [Call(IdempotencyKey(a), id, None)])
    else
      var amount := RefundAmount(b, id, g.bids[id].amount);
      if amount.None? then d.(actions := d.actions[id := a.(amount := None)])
      else if amount.value <= 0 then
        var settled := a.(status := ActionNotRequired, amount := Some(0), completedAt := Some(now));
        var c := a.caseOf;
        assert TakeoverLinked(g, c) && BidLinked(g, c);
        EnqueueNotice(d.(actions := d.actions[id := settled]), c, Recipient(g, c), RemovalContext(g, c, None, now), false, now)
      else
        var claimed := a.(status := ActionProcessing, amount := Some(amount.value), attempts := a.attempts + 1);
        d.(actions := d.actions[id := claimed],
           calls := d.calls + [Call(IdempotencyKey(a), id, Some(amount.value))])
  }

  /** Second transaction: record what the provider answered. */
  function EndAction(g: Game, b: Books, d: Desk, id: BidId, reply: Option<string>, now: Time): Tx<(Game, Books, Desk)>
    requires Linked(g) && id in d.actions && id in g.bids && d.actions[id].caseOf in g.cases
  {
    var a := d.actions[id];
    if !a.status.ActionProcessing? then Commit((g, b, d))
    else if reply.None? then Commit((g, b, d.(actions := d.actions[id := a.(status := ActionFailed)])))
    else
      var done := a.(status := ActionSucceeded, reference := reply, completedAt := Some(now));
      var d1 := d.(actions := d.actions[id := done]);
      if a.op.CancelAuthorization? then Commit((g, b, d1))
      else if a.amount.None? || id !in b.captures || b.captures[id].fee.None? then Abort(MissingRow)
      else
        var row, c := g.bids[id], a.caseOf;
        assert TakeoverLinked(g, c) && BidLinked(g, id);
        var figures := Figures(row.amount, b.captures[id].fee.value, a.amount.value);
        Commit((g.(bids := g.bids[id := row.(status := Refunded)]),
                RecordRefund(b, id, row, a.amount.value),
                AttachRefund(d1, c, Recipient(g, id), RemovalContext(g, c, Some(figures), now), now)))
  }

  // ----- delivery under reclaimable leases -----

  datatype MailSettings = MailSettings(leaseSeconds: nat, retryBase: nat, retryMax: nat)

  predicate Claimable(n: Notice, mail: MailSettings, now: Time) {
    && !n.waiting
    && (((n.status.NoticePending? || n.status.NoticeFailed?) && n.availableAt <= now)
        || (n.status.NoticeProcessing? && n.lockedAt.Some? && n.lockedAt.value + mail.leaseSeconds * SECOND < now))
  }

  /** Take the lease and hand the message to the provider. */
  function ClaimNotice(d: Desk, bid: BidId, mail: MailSettings, now: Time): Desk
    requires bid in d.notices
  {
    var n := d.notices[bid];
    if !Claimable(n, mail, now) then d
    else
      d.(notices := d.notices[bid := n.(status := NoticeProcessing, lockedAt := Some(now), attempts := n.attempts + 1)],
         sends := d.sends + [Send(bid, n.recipient, n.context)],
         mail := d.mail + [Claimed(bid, |d.sends|, now)])
  }

  function Pow2(n: nat): nat {
    if n == 0 then 1 else 2 * Pow2(n - 1)
  }

  function RetryDelay(mail: MailSettings, attempts: nat): nat {
    var delay := mail.retryBase * Pow2(if attempts == 0 then 0 else attempts - 1);
    if mail.retryMax < delay then mail.retryMax else delay
  }

  /** A claim whose worker has not come back yet. */
  predicate Outstanding(d: Desk, claim: nat) {
    claim < |d.sends| && forall i | 0 <= i < |d.mail| :: !(d.mail[i].Answered? && d.mail[i].claim == claim)
  }

  /** Record what the worker behind a claim was told, which may be after another worker has taken over the lease. */
  function FinishNotice(d: Desk, claim: nat, mail: MailSettings, answer: Delivery, now: Time): Desk
    requires claim < |d.sends| && d.sends[claim].eventKey in d.notices
  {
    var bid := d.sends[claim].eventKey;
    var n := d.notices[bid];
    var n' :=
      if !n.status.NoticeProcessing? then n
      else if answer.Refused? then
        n.(status := NoticeFailed, availableAt := now + RetryDelay(mail, n.attempts) * SECOND, lockedAt := None)
      else n.(status := if answer.Inert? then Suppressed else Sent, sentAt := Some(now), lockedAt := None);
    d.(notices := d.notices[bid := n'], mail := d.mail + [Answered(bid, claim, answer, n.status.NoticeProcessing?, now)])
  }
}
