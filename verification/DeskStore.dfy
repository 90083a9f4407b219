// Payment actions and removal notices as their workers update them in place, proved against `Desk`.
module DeskStore {
  import opened Base
  import opened Rows
  import opened Takeovers
  import opened Books
  import opened Desk

  class DeskTables {
    var actions: map<BidId, Action>
    var notices: map<BidId, Notice>
    var calls: seq<Call>
    var sends: seq<Send>
    var mail: seq<MailEvent>

    function Rows(): Desk
      reads this
    {
      Desk(actions, notices, calls, sends, mail)
    }

    constructor (d: Desk)
      ensures Rows() == d
    {
      actions, notices, calls, sends, mail := d.actions, d.notices, d.calls, d.sends, d.mail;
    }

    /** What the database does when a transaction is refused. */
    method Restore(d: Desk)
      modifies this
      ensures Rows() == d
    {
      actions, notices, calls, sends, mail := d.actions, d.notices, d.calls, d.sends, d.mail;
    }

    // ----- notices -----

    method Enqueue(bid: BidId, to: Email, context: Context, waiting: bool, now: Time)
      modifies this`notices
      ensures Rows() == EnqueueNotice(old(Rows()), bid, to, context, waiting, now)
    {
      if !to.wellFormed { return; }
      var created := bid !in notices;
      if created {
        notices := notices[bid := Notice(to.address, context, NoticePending, 0, now, waiting, None, None)];
      }
      var row := notices[bid];
      if !created && row.waiting && !waiting && !row.status.Sent? && !row.status.Suppressed? {
        row := row.(waiting := false);
        row := row.(availableAt := now);
        notices := notices[bid := row];
      }
    }

    method AttachRefundToRemovalNotice(bid: BidId, to: Email, context: Context, now: Time)
      modifies this`notices
      ensures Rows() == AttachRefund(old(Rows()), bid, to, context, now)
    {
      if bid !in notices {
        Enqueue(bid, to, context, false, now);
        return;
      }
      var row := notices[bid];
      if row.status.Sent? || row.status.Suppressed? { return; }
      row := row.(context := context);
      row := row.(waiting := false);
      row := row.(availableAt := now);
      notices := notices[bid := row];
    }

    // ----- payment actions -----

    method PaymentActionForBid(caseOf: BidId, id: BidId, bid: Bid, now: Time) returns (r: Tx<Action>)
      modifies this`actions
      ensures var spec := PaymentActionFor(old(Rows()), caseOf, id, bid, now);
              if spec.Commit? then r == Commit(spec.value.actions[id]) && Rows() == spec.value else r == Abort(spec.error)
    {
      var op, status;
      if bid.status.Authorized? {
        op := CancelAuthorization;
        status := if bid.intent.Some? then ActionPending else ActionNotRequired;
      } else {
        op := IssueRefund;
        status := if bid.status.Won? && bid.intent.Some? then ActionPending else ActionNotRequired;
      }
      if id in actions {
        // The case-and-bid lookup misses, so the row is inserted again and the one-per-bid constraint fires.
        return if actions[id].caseOf == caseOf then Commit(actions[id]) else Abort(ConstraintViolated);
      }
      var row := Action(caseOf, op, status, None, 0, None, None);
      if status.ActionNotRequired? { row := row.(completedAt := Some(now)); }
      actions := actions[id := row];
      return Commit(row);
    }

    /** First transaction of the worker. `g` and `b` are the rows it reads. */
    method ClaimAction(g: Game, b: Books, id: BidId, now: Time)
      requires Linked(g) && id in actions && id in g.bids && actions[id].caseOf in g.cases
      modifies this
      ensures Rows() == BeginAction(g, b, old(Rows()), id, now)
    {
      var row := actions[id];
      if row.status.ActionSucceeded? || row.status.ActionNotRequired? || row.status.ActionProcessing? { return; }
      var asked: Option<nat> := None;
      if row.op.IssueRefund? {
        var amount := RefundAmount(b, id, g.bids[id].amount);
        if amount.None? {
          actions := actions[id := row.(amount := None)];
          return;
        }
        if amount.value <= 0 {
          row := row.(status := ActionNotRequired);
          row := row.(amount := Some(0));
          row := row.(completedAt := Some(now));
          actions := actions[id := row];
          assert TakeoverLinked(g, row.caseOf) && BidLinked(g, row.caseOf);
          Enqueue(row.caseOf, Recipient(g, row.caseOf), RemovalContext(g, row.caseOf, None, now), false, now);
          return;
        }
        asked := Some(amount.value);
        row := row.(amount := asked);
      }
      row := row.(status := ActionProcessing);
      row := row.(attempts := row.attempts + 1);
      actions := actions[id := row];
      calls := calls + [Call(Key(row.op, row.caseOf), id, asked)];
    }

    // ----- delivery -----

    method Claim(bid: BidId, limits: MailSettings, now: Time) returns (claimed: Option<Send>)
      requires bid in notices
      modifies this`notices, this`sends, this`mail
      ensures Rows() == ClaimNotice(old(Rows()), bid, limits, now)
      ensures claimed.Some? <==> Claimable(old(notices[bid]), limits, now)
      ensures claimed.Some? ==> sends == old(sends) + [claimed.value]
    {
      var row := notices[bid];
      if !Claimable(row, limits, now) { return None; }
      row := row.(status := NoticeProcessing);
      row := row.(lockedAt := Some(now));
      row := row.(attempts := row.attempts + 1);
      notices := notices[bid := row];
      claimed := Some(Send(bid, row.recipient, row.context));
      mail := mail + [Claimed(bid, |sends|, now)];
      sends := sends + [claimed.value];
    }

    /** What the worker behind a claim writes once the mail provider has answered it. */
    method Finish(claim: nat, limits: MailSettings, answer: Delivery, now: Time)
      requires claim < |sends| && sends[claim].eventKey in notices
      modifies this`notices, this`mail
      ensures Rows() == FinishNotice(old(Rows()), claim, limits, answer, now)
    {
      var bid := sends[claim].eventKey;
      var row := notices[bid];
      mail := mail + [Answered(bid, claim, answer, row.status.NoticeProcessing?, now)];
      if !row.status.NoticeProcessing? {
        assert notices[bid := row] == notices;
        return;
      }
      if answer.Refused? {
        row := row.(status := NoticeFailed);
        row := row.(availableAt := now + RetryDelay(limits, row.attempts) * SECOND);
      } else {
        row := row.(status := if answer.Inert? then Suppressed else Sent);
        row := row.(sentAt := Some(now));
      }
      row := row.(lockedAt := None);
      notices := notices[bid := row];
    }
  }
}
