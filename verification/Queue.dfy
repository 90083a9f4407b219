// The finalization queue: messages trigger settlement, wait out guarantees, and are never dropped too early.
module Queue {
  import opened Base
  import opened Pricing
  import opened Rows
  import opened Takeovers
  import opened GameInvariant
  import opened GameSteps
  import opened Books
  import opened Desk
  import opened Intake
  import opened Protocol
  import opened Safety
  import opened SafetySteps
  import opened EventSteps
  import opened Machine
  import opened Display
  import opened History
  import opened Services

  // ----- messages -----

  /** The FIFO group a message was sent under. */
  datatype Group = NoGroup | BoardGroup(id: BoardId) | OtherGroup

  /** `body` is the bid a well-formed body names; anything else parses to nothing. */
  datatype Message = Message(receipt: Option<nat>, body: Option<BidId>, group: Group, receives: Option<nat>)

  datatype QueueConfig = QueueConfig(retryVisibility: nat, maxReceives: nat)

  /** What happens to the message: nothing was received, it is deleted, it stays hidden for a while, or it is left alone. */
  datatype Outcome = Idle | Deleted | Hidden(seconds: nat) | Untouched

  const LONGEST_VISIBILITY: nat := 43200
  const LONGEST_RETRY: nat := 900

  /** A message of the service itself, as the queue delivers it. */
  function Received(t: Trigger, receipt: nat, receives: Option<nat>): Message {
    Message(Some(receipt), Some(t.bid), BoardGroup(t.group), receives)
  }

  predicate WellFormed(m: Message) {
    m.receipt.Some? && m.body.Some? && !m.group.NoGroup?
  }

  function ReceiveCount(m: Message): nat {
    if m.receives.Some? && m.receives.value > 0 then m.receives.value else 1
  }

  function RetryVisibility(config: QueueConfig, receives: nat): nat {
    var seconds := config.retryVisibility * Pow2(if receives == 0 then 0 else receives - 1);
    if LONGEST_RETRY < seconds then LONGEST_RETRY else seconds
  }

  function CeilSeconds(span: nat): nat {
    (span + SECOND - 1) / SECOND
  }

  /** How long to hide a message whose bid waits behind a guarantee. */
  function DeferVisibility(until: Time, now: Time): nat
    requires now <= until
  {
    var seconds := CeilSeconds(until - now);
    var capped := if LONGEST_VISIBILITY < seconds then LONGEST_VISIBILITY else seconds;
    if capped < 1 then 1 else capped
  }

  predicate Defers(g: Game, bid: BidId, group: Group, now: Time)
    requires Linked(g) && bid in g.bids
  {
    assert BidLinked(g, bid);
    var row := g.bids[bid];
    var board := g.boards[row.board];
    && group == BoardGroup(row.board)
    && row.status.Authorized? && board.pending == Some(bid)
    && board.guaranteedUntil.Some? && board.guaranteedUntil.value > now
  }

  function AfterFailure(config: QueueConfig, m: Message): Outcome {
    if ReceiveCount(m) >= config.maxReceives then Untouched else Hidden(RetryVisibility(config, ReceiveCount(m)))
  }

  /** One received message; `crashed` says that handling it raised an error, which rolls its transaction back. */
  function Handle(w: World, config: QueueConfig, m: Message, rules: BoardRules, now: Time, mode: Option<CaptureReply>, crashed: bool)
    : (Outcome, World)
    requires Linked(w.game) && m.body.Some? && m.body.value in w.game.bids
  {
    var bid := m.body.value;
    assert BidLinked(w.game, bid);
    var id := w.game.bids[bid].board;
    if crashed then (AfterFailure(config, m), w)
    else if Defers(w.game, bid, m.group, now) then (Hidden(DeferVisibility(w.game.boards[id].guaranteedUntil.value, now)), w)
    else if m.group != BoardGroup(id) then (Deleted, w)
    else
      var r := FinalizeDueBoard(w, id, Some(bid), rules, now, mode);
      if r.Commit? then (Deleted, r.value.0) else (AfterFailure(config, m), w)
  }

  function Consume(w: World, config: QueueConfig, received: Option<Message>, rules: BoardRules, now: Time,
                   mode: Option<CaptureReply>, crashed: bool): (Outcome, World)
    requires Linked(w.game)
  {
    if received.None? then (Idle, w)
    else if !WellFormed(received.value) then (if received.value.receipt.Some? then Deleted else Untouched, w)
    else if received.value.body.value !in w.game.bids then (Deleted, w)
    else Handle(w, config, received.value, rules, now, mode, crashed)
  }

  /** The consumer: one message at a time, acknowledged only after its transaction. */
  class Consumer {
    const config: QueueConfig
    const sys: System

    constructor (c: QueueConfig, s: System)
      ensures config == c && sys == s
    {
      config, sys := c, s;
    }

    method DeferActiveGuarantee(bid: BidId, group: Group, now: Time) returns (hidden: Option<nat>)
      requires Linked(sys.game.Rows()) && bid in sys.game.bids
      ensures hidden.Some? <==> Defers(sys.game.Rows(), bid, group, now)
      ensures hidden.Some? ==>
                && sys.game.bids[bid].board in sys.game.boards
                && var until := sys.game.boards[sys.game.bids[bid].board].guaranteedUntil;
                && until.Some? && until.value > now && hidden.value == DeferVisibility(until.value, now)
    {
      assert BidLinked(sys.game.Rows(), bid);
      var row := sys.game.bids[bid];
      if group != BoardGroup(row.board) { return None; }
      var board := sys.game.boards[row.board];
      if !row.status.Authorized? || board.pending != Some(bid) { return None; }
      if board.guaranteedUntil.None? || board.guaranteedUntil.value <= now { return None; }
      return Some(DeferVisibility(board.guaranteedUntil.value, now));
    }

    method ConsumeOnce(received: Option<Message>, now: Time, mode: Option<CaptureReply>, crashed: bool) returns (outcome: Outcome)
      requires Linked(sys.game.Rows())
      modifies sys, sys.game, sys.books, sys.desk
      ensures (outcome, sys.Snapshot()) == Consume(old(sys.Snapshot()), config, received, sys.settings.rules, now, mode, crashed)
    {
      if received.None? { return Idle; }
      var m := received.value;
      if !WellFormed(m) { return if m.receipt.Some? then Deleted else Untouched; }
      var bid := m.body.value;
      if bid !in sys.game.bids { return Deleted; }
      assert BidLinked(sys.game.Rows(), bid);
      if crashed { return AfterFailure(config, m); }
      var hidden := DeferActiveGuarantee(bid, m.group, now);
      if hidden.Some? { return Hidden(hidden.value); }
      if m.group == BoardGroup(sys.game.bids[bid].board) {
        var r := sys.FinalizeDueBoard(sys.game.bids[bid].board, Some(bid), now, mode);
        if r.Abort? { return AfterFailure(config, m); }
      }
      return Deleted;
    }
  }

  // ----- what consuming a message can do -----

  predicate HonestMessage(w: World, received: Option<Message>, mode: Option<CaptureReply>) {
    received.Some? && received.value.body.Some? && received.value.body.value in w.game.bids
    && w.game.bids[received.value.body.value].board in w.game.boards && mode.Some? ==>
      var board := w.game.boards[w.game.bids[received.value.body.value].board];
      board.pending.Some? && board.pending.value in w.game.bids && mode.value.Captured? ==>
        mode.value.pi.succeeded && mode.value.pi.id == w.game.bids[board.pending.value].intent
  }

  /** A message settles its own bid or nobody: the bid is the due challenger of its board, and no other board is touched. */
  lemma OnlySettlesItsOwnBid(s: Settings, w: World, config: QueueConfig, received: Option<Message>, now: Time,
                             mode: Option<CaptureReply>, crashed: bool)
    requires WorldInv(s, w) && HonestMessage(w, received, mode)
    ensures var (outcome, w') := Consume(w, config, received, s.rules, now, mode, crashed);
            && WorldInv(s, w')
            && (w' != w ==>
                  && outcome == Deleted && received.Some? && received.value.body.Some?
                  && var bid := received.value.body.value;
                  && bid in w.game.bids && w.game.bids[bid].board in w.game.boards
                  && var id := w.game.bids[bid].board;
                  && w.game.boards[id].pending == Some(bid) && IsDue(w.game.boards[id], now)
                  && received.value.group == BoardGroup(id)
                  && (forall b | b in w.game.boards && b != id :: b in w'.game.boards && w'.game.boards[b] == w.game.boards[b]))
  {
    if received.Some? && WellFormed(received.value) && received.value.body.value in w.game.bids && !crashed {
      var bid := received.value.body.value;
      assert BidLinked(w.game, bid);
      SettlingOneBid(s, w, bid, now, mode);
    }
  }

  lemma SettlingOneBid(s: Settings, w: World, bid: BidId, now: Time, mode: Option<CaptureReply>)
    requires WorldInv(s, w) && bid in w.game.bids && w.game.bids[bid].board in w.game.boards
    requires mode.Some? ==> HonestFor(w.game, w.game.bids[bid].board, mode.value)
    ensures var id := w.game.bids[bid].board;
            var r := FinalizeDueBoard(w, id, Some(bid), s.rules, now, mode);
            && r.Commit? && WorldInv(s, r.value.0)
            && (w.game.boards[id].pending == Some(bid) && IsDue(w.game.boards[id], now) ==>
                  id in r.value.0.game.boards && r.value.0.game.boards[id].pending.None?)
            && (!(w.game.boards[id].pending == Some(bid) && IsDue(w.game.boards[id], now)) ==> r.value.0 == w)
            && (forall b | b in w.game.boards && b != id :: b in r.value.0.game.boards && r.value.0.game.boards[b] == w.game.boards[b])
  {
    var id := w.game.bids[bid].board;
    FinalizeDueKeepsInv(s, w, id, Some(bid), mode, now);
    if mode.Some? {
      assert WaitsBehind(w.game, id);
      SettlePaidBoards(s, w, id, now, mode.value);
    } else {
      FreeSettleKeepsInv(s, w, id, now);
      forall b | b in w.game.boards && b != id
        ensures b in Settle(w, id, s.rules, now, None).value.0.game.boards
        ensures Settle(w, id, s.rules, now, None).value.0.game.boards[b] == w.game.boards[b]
      {
        SettleOnBoard(s, w, id, now, None, b);
      }
    }
  }

  predicate IsPending(g: Game, bid: BidId) {
    bid in g.bids && g.bids[bid].board in g.boards && g.boards[g.bids[bid].board].pending == Some(bid)
  }

  /**
   When may a message go? A deleted message leaves its bid pending exactly when it named the bid under
   another board's group; so a message sent by the service itself is deleted only after its bid has
   stopped being the challenger.
   */
  lemma DeletedMeansNoLongerPending(s: Settings, w: World, config: QueueConfig, m: Message, now: Time,
                                    mode: Option<CaptureReply>, crashed: bool)
    requires WorldInv(s, w) && HonestMessage(w, Some(m), mode) && WellFormed(m) && m.body.value in w.game.bids
    ensures var (outcome, w') := Consume(w, config, Some(m), s.rules, now, mode, crashed);
            var bid := m.body.value;
            outcome == Deleted ==>
              (IsPending(w'.game, bid) <==> IsPending(w.game, bid) && m.group != BoardGroup(w.game.bids[bid].board))
  {
    var bid := m.body.value;
    assert BidLinked(w.game, bid);
    if !crashed {
      SettlingOneBid(s, w, bid, now, mode);
      PendingIsAuthorized(s, w, bid);
      var id := w.game.bids[bid].board;
      FinalizeAgesBid(s, w, id, bid, now, mode);
    }
  }

  lemma PendingIsAuthorized(s: Settings, w: World, bid: BidId)
    requires WorldInv(s, w)
    ensures IsPending(w.game, bid) ==> w.game.bids[bid].status.Authorized?
  {
    if IsPending(w.game, bid) {
      assert BoardOk(s.rules.increment, w.game, w.game.bids[bid].board);
    }
  }

  lemma FinalizeAgesBid(s: Settings, w: World, id: BoardId, bid: BidId, now: Time, mode: Option<CaptureReply>)
    requires WorldInv(s, w) && id in w.game.boards && bid in w.game.bids && (mode.Some? ==> HonestFor(w.game, id, mode.value))
    ensures var r := FinalizeDueBoard(w, id, Some(bid), s.rules, now, mode);
            r.Commit? && bid in r.value.0.game.bids && r.value.0.game.bids[bid].board == w.game.bids[bid].board
  {
    SettleAges(s, w, id, now, mode);
    if w.game.boards[id].pending == Some(bid) {
      assert BidAges(w.game, Settle(w, id, s.rules, now, mode).value.0.game, bid);
    }
  }

  /** The failure: a challenger named under any group but its own board's loses its message while it still waits. */
  lemma ForeignGroupDropsTheMessage(s: Settings, w: World, config: QueueConfig, m: Message, now: Time, mode: Option<CaptureReply>)
    requires WorldInv(s, w) && WellFormed(m) && m.body.value in w.game.bids && IsPending(w.game, m.body.value)
    requires m.group != BoardGroup(w.game.bids[m.body.value].board)
    ensures Consume(w, config, Some(m), s.rules, now, mode, false) == (Deleted, w)
  {
    assert BidLinked(w.game, m.body.value);
  }

  /** A bid that has once stopped being a challenger is never one again. */
  lemma NeverPendingAgain(s: Settings, w: World, w': World, bid: BidId)
    requires WorldInv(s, w) && WorldInv(s, w') && GameAges(w.game, w'.game)
    requires bid in w.game.bids && !Undecided(w.game.bids[bid].status) && !IsPending(w.game, bid)
    ensures !IsPending(w'.game, bid)
  {
    assert SoleChallenger(w.game, bid) && BidAges(w.game, w'.game, bid);
    PendingIsAuthorized(s, w', bid);
  }

  /** What a delivery leaves alone: a message about a bid that does not wait, or under another board's group. */
  lemma NothingToSettle(w: World, config: QueueConfig, m: Message, rules: BoardRules, now: Time, mode: Option<CaptureReply>, crashed: bool)
    requires Linked(w.game) && WellFormed(m)
    requires m.body.value in w.game.bids && m.group == BoardGroup(w.game.bids[m.body.value].board) ==> !IsPending(w.game, m.body.value)
    ensures Consume(w, config, Some(m), rules, now, mode, crashed).1 == w
  {
    if m.body.value in w.game.bids { assert BidLinked(w.game, m.body.value); }
  }

  lemma ConsumptionAges(s: Settings, w: World, config: QueueConfig, m: Message, now: Time, mode: Option<CaptureReply>, crashed: bool)
    requires WorldInv(s, w) && HonestMessage(w, Some(m), mode) && WellFormed(m)
    ensures Ages(w, Consume(w, config, Some(m), s.rules, now, mode, crashed).1)
  {
    NothingAges(w);
    if m.body.value in w.game.bids {
      assert BidLinked(w.game, m.body.value);
      SettleAges(s, w, w.game.bids[m.body.value].board, now, mode);
    }
  }

  lemma DeletionAges(s: Settings, w: World, config: QueueConfig, m: Message, now: Time, mode: Option<CaptureReply>, crashed: bool)
    requires WorldInv(s, w) && HonestMessage(w, Some(m), mode) && WellFormed(m)
    ensures var w' := Consume(w, config, Some(m), s.rules, now, mode, crashed).1; WorldInv(s, w') && Ages(w, w')
  {
    OnlySettlesItsOwnBid(s, w, config, Some(m), now, mode, crashed);
    ConsumptionAges(s, w, config, m, now, mode, crashed);
  }

  /** The message can settle nobody, now or later. */
  predicate OutOfLine(g: Game, m: Message)
    requires m.body.Some?
  {
    && m.body.value in g.bids
    && (m.group == BoardGroup(g.bids[m.body.value].board) ==> !Undecided(g.bids[m.body.value].status) && !IsPending(g, m.body.value))
  }

  lemma DeletedStaysOut(s: Settings, w: World, config: QueueConfig, m: Message, now: Time, mode: Option<CaptureReply>, crashed: bool)
    requires WorldInv(s, w) && HonestMessage(w, Some(m), mode) && WellFormed(m) && m.body.value in w.game.bids
    requires Consume(w, config, Some(m), s.rules, now, mode, crashed).0 == Deleted
    requires !Undecided(w.game.bids[m.body.value].status) || m.group != BoardGroup(w.game.bids[m.body.value].board)
    ensures OutOfLine(Consume(w, config, Some(m), s.rules, now, mode, crashed).1.game, m)
  {
    DeletionAges(s, w, config, m, now, mode, crashed);
    DeletedMeansNoLongerPending(s, w, config, m, now, mode, crashed);
    assert BidAges(w.game, Consume(w, config, Some(m), s.rules, now, mode, crashed).1.game, m.body.value);
  }

  lemma StaysOutOfLine(s: Settings, w: World, w': World, m: Message)
    requires WorldInv(s, w) && WorldInv(s, w') && GameAges(w.game, w'.game) && m.body.Some? && OutOfLine(w.game, m)
    ensures OutOfLine(w'.game, m)
  {
    assert BidAges(w.game, w'.game, m.body.value);
    if m.group == BoardGroup(w.game.bids[m.body.value].board) { NeverPendingAgain(s, w, w', m.body.value); }
  }

  /**
   Delivering a deleted message again changes nothing, after any run in between, whatever the provider answers
   and whether or not handling it fails. The message must have been about a bid that had been decided on by
   then, as a bid is when the service sends its message, or under another board's group.
   */
  lemma RedeliveryChangesNothing(s: Settings, w: World, config: QueueConfig, m: Message, now: Time, mode: Option<CaptureReply>, crashed: bool,
                                 ws: seq<World>, ms: seq<Moment>, j: nat, later: Time, again: Option<CaptureReply>, crashedAgain: bool)
    requires WorldInv(s, w) && HonestMessage(w, Some(m), mode) && WellFormed(m) && m.body.value in w.game.bids
    requires Consume(w, config, Some(m), s.rules, now, mode, crashed).0 == Deleted
    requires !Undecided(w.game.bids[m.body.value].status) || m.group != BoardGroup(w.game.bids[m.body.value].board)
    requires Follows(s, ws, ms) && ws[0] == Consume(w, config, Some(m), s.rules, now, mode, crashed).1 && j < |ws|
    ensures Linked(ws[j].game) && Consume(ws[j], config, Some(m), s.rules, later, again, crashedAgain).1 == ws[j]
  {
    DeletionAges(s, w, config, m, now, mode, crashed);
    DeletedStaysOut(s, w, config, m, now, mode, crashed);
    ContinuationAges(s, ws, ms, j);
    StaysOutOfLine(s, ws[0], ws[j], m);
    NothingToSettle(ws[j], config, m, s.rules, later, again, crashedAgain);
  }

  // ----- how long a message sleeps -----

  /**
   A deferred message wakes within one second after the guarantee has ended, and never before it, unless
   the wait is longer than the queue allows.
   */
  lemma DeferralWakesOnTime(until: Time, now: Time)
    requires now < until
    ensures var v := DeferVisibility(until, now);
            && 1 <= v <= LONGEST_VISIBILITY
            && now + v * SECOND < until + SECOND
            && (until <= now + v * SECOND <==> until - now <= LONGEST_VISIBILITY * SECOND)
  {
    var span := until - now;
    var q := CeilSeconds(span);
    assert q * SECOND <= span + SECOND - 1 < (q + 1) * SECOND;
  }

  lemma {:induction false} Pow2Grows(m: nat, n: nat)
    requires m <= n
    ensures 1 <= Pow2(m) <= Pow2(n)
    decreases n
  {
    if m < n { Pow2Grows(m, n - 1); } else if n > 0 { Pow2Grows(n - 1, n - 1); }
  }

  /** Retries back off: they start at the configured delay and double until they reach fifteen minutes. */
  lemma RetriesBackOff(config: QueueConfig, m: nat, n: nat)
    requires 1 <= config.retryVisibility <= LONGEST_RETRY && 1 <= m <= n
    ensures config.retryVisibility <= RetryVisibility(config, m) <= RetryVisibility(config, n) <= LONGEST_RETRY
    ensures RetryVisibility(config, 1) == config.retryVisibility
    ensures RetryVisibility(config, m + 1) == if 2 * RetryVisibility(config, m) < LONGEST_RETRY then 2 * RetryVisibility(config, m) else LONGEST_RETRY
  {
    Pow2Grows(0, m - 1);
    Pow2Grows(m - 1, n - 1);
    MultiplyBoth(1, Pow2(m - 1), config.retryVisibility);
    MultiplyBoth(Pow2(m - 1), Pow2(n - 1), config.retryVisibility);
    assert config.retryVisibility * Pow2(m) == 2 * (config.retryVisibility * Pow2(m - 1));
  }

  /** The same shape for email, with its own first delay and its own maximum. */
  lemma EmailRetriesBackOff(mail: MailSettings, m: nat, n: nat)
    requires 1 <= m <= n
    ensures RetryDelay(mail, m) <= RetryDelay(mail, n) <= mail.retryMax
    ensures RetryDelay(mail, 0) == RetryDelay(mail, 1) == if mail.retryBase < mail.retryMax then mail.retryBase else mail.retryMax
    ensures RetryDelay(mail, m + 1) == if 2 * RetryDelay(mail, m) < mail.retryMax then 2 * RetryDelay(mail, m) else mail.retryMax
  {
    Pow2Grows(m - 1, n - 1);
    MultiplyBoth(Pow2(m - 1), Pow2(n - 1), mail.retryBase);
    assert mail.retryBase * Pow2(m) == 2 * (mail.retryBase * Pow2(m - 1));
  }

  // ----- what happens to a message that is not deleted -----

  /**
   A message whose handling fails is hidden for the delay of its number of receives, an unknown number counting as one,
   and is left to the dead-letter rule once it has been received as often as allowed.
   */
  lemma FailuresAreRetried(s: Settings, w: World, config: QueueConfig, m: Message, now: Time, mode: Option<CaptureReply>)
    requires WorldInv(s, w) && WellFormed(m) && m.body.value in w.game.bids
    ensures var received := if m.receives == Some(0) || m.receives.None? then 1 else m.receives.value;
            Consume(w, config, Some(m), s.rules, now, mode, true) ==
            (if received < config.maxReceives then Hidden(RetryVisibility(config, received)) else Untouched, w)
  {
  }

  /**
   A message is hidden exactly while its bid is the authorized challenger of the message's board behind a running
   guarantee, until that has ended and for less than a second more, unless the wait is longer than the queue allows; any
   other well-formed message of a known bid is deleted.
   */
  lemma DeferredExactlyWhen(s: Settings, w: World, config: QueueConfig, m: Message, now: Time, mode: Option<CaptureReply>)
    requires WorldInv(s, w) && HonestMessage(w, Some(m), mode) && WellFormed(m) && m.body.value in w.game.bids
    ensures w.game.bids[m.body.value].board in w.game.boards
    ensures var bid := m.body.value;
            var id := w.game.bids[bid].board;
            var until := w.game.boards[id].guaranteedUntil;
            var (outcome, w') := Consume(w, config, Some(m), s.rules, now, mode, false);
            if m.group == BoardGroup(id) && IsPending(w.game, bid) && until.Some? && now < until.value then
              && w' == w && outcome.Hidden? && 1 <= outcome.seconds <= LONGEST_VISIBILITY
              && now + outcome.seconds * SECOND < until.value + SECOND
              && (until.value <= now + outcome.seconds * SECOND <==> until.value - now <= LONGEST_VISIBILITY * SECOND)
            else outcome == Deleted
  {
    var bid := m.body.value;
    assert BidLinked(w.game, bid);
    var id := w.game.bids[bid].board;
    var until := w.game.boards[id].guaranteedUntil;
    PendingIsAuthorized(s, w, bid);
    SettlingOneBid(s, w, bid, now, mode);
    if until.Some? && now < until.value { DeferralWakesOnTime(until.value, now); }
  }

  /** What cannot be understood is deleted if it has a receipt, and so is a message about an unknown bid. */
  lemma NonsenseIsDropped(w: World, config: QueueConfig, received: Option<Message>, rules: BoardRules, now: Time, mode: Option<CaptureReply>, crashed: bool)
    requires Linked(w.game)
    requires received.Some? && received.value.body.Some? && received.value.receipt.Some? && received.value.group != NoGroup ==>
               received.value.body.value !in w.game.bids
    ensures Consume(w, config, received, rules, now, mode, crashed) ==
            (if received.None? then Idle else if received.value.receipt.Some? then Deleted else Untouched, w)
  {
  }
}
