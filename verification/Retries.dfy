// How long the outbox waits: what a notice shows follows from its log, and a failed delivery is retried after its delay.
module Retries {
  import opened Base
  import opened Rows
  import opened Takeovers
  import opened GameInvariant
  import opened Books
  import opened Desk
  import opened DeskInvariant
  import opened Protocol
  import opened Safety
  import opened EventSteps
  import opened Machine
  import opened History
  import opened Leases
  import opened Remedies

  // ----- reading the mail log -----

  /** The last event that changed notice `c`: a claim, or an answer that was recorded. */
  function LastWord(log: seq<MailEvent>, c: BidId): (k: Option<nat>)
    ensures k.Some? ==> k.value < |log| && log[k.value].about == c && (log[k.value].Answered? ==> log[k.value].recorded)
    decreases |log|
  {
    if log == [] then None
    else
      var e := log[|log| - 1];
      if e.about == c && (e.Claimed? || e.recorded) then Some(|log| - 1) else LastWord(log[..|log| - 1], c)
  }

  /** How often notice `c` has been claimed. */
  function ClaimsIn(log: seq<MailEvent>, c: BidId): nat
    decreases |log|
  {
    if log == [] then 0
    else ClaimsIn(log[..|log| - 1], c) + if log[|log| - 1].about == c && log[|log| - 1].Claimed? then 1 else 0
  }

  lemma AfterAppend(log: seq<MailEvent>, e: MailEvent, c: BidId)
    ensures LastWord(log + [e], c) == if e.about == c && (e.Claimed? || e.recorded) then Some(|log|) else LastWord(log, c)
    ensures ClaimsIn(log + [e], c) == ClaimsIn(log, c) + if e.about == c && e.Claimed? then 1 else 0
  {
    assert (log + [e])[..|log|] == log;
  }

  // ----- the invariant -----

  /** A notice shows exactly what its last event left: untouched, taken, to be retried after the delay, or done with. */
  ghost predicate ShowsLog(mail: MailSettings, d: Desk, c: BidId)
    requires c in d.notices
  {
    var n, k := d.notices[c], LastWord(d.mail, c);
    && n.attempts == ClaimsIn(d.mail, c)
    && if k.None? then n.status.NoticePending? && n.lockedAt.None? && n.sentAt.None?
       else match d.mail[k.value] {
         case Claimed(_, _, at) => n.status.NoticeProcessing? && n.lockedAt == Some(at) && n.sentAt.None?
         case Answered(_, _, answer, _, at) =>
           && n.lockedAt.None?
           && match answer {
             case Refused => n.status.NoticeFailed? && n.sentAt.None? && n.availableAt == at + RetryDelay(mail, n.attempts) * SECOND
             case Delivered => n.status.Sent? && n.sentAt == Some(at)
             case Inert => n.status.Suppressed? && n.sentAt == Some(at)
           }
       }
  }

  /** A claim after a recorded answer follows a failure, and not before the delay for that many attempts has passed. */
  ghost predicate WaitsForRetry(mail: MailSettings, log: seq<MailEvent>, k: nat)
    requires k < |log|
  {
    var c, last := log[k].about, LastWord(log[..k], log[k].about);
    log[k].Claimed? && last.Some? && log[last.value].Answered? ==>
      log[last.value].answer.Refused? && log[last.value].at + RetryDelay(mail, ClaimsIn(log[..k], c)) * SECOND <= log[k].at
  }

  ghost predicate RetryInv(mail: MailSettings, d: Desk) {
    && (forall c {:trigger ShowsLog(mail, d, c)} | c in d.notices :: ShowsLog(mail, d, c))
    && (forall k {:trigger WaitsForRetry(mail, d.mail, k)} | 0 <= k < |d.mail| :: WaitsForRetry(mail, d.mail, k))
    && (forall k {:trigger d.mail[k]} | 0 <= k < |d.mail| :: d.mail[k].about in d.notices)
  }

  lemma {:induction false} NeverMentioned(log: seq<MailEvent>, c: BidId)
    requires forall k | 0 <= k < |log| :: log[k].about != c
    ensures LastWord(log, c).None? && ClaimsIn(log, c) == 0
    decreases |log|
  {
    if log != [] { NeverMentioned(log[..|log| - 1], c); }
  }

  lemma OldClaimsWaited(mail: MailSettings, log: seq<MailEvent>, e: MailEvent, k: nat)
    requires k < |log| && WaitsForRetry(mail, log, k)
    ensures WaitsForRetry(mail, log + [e], k)
  {
    assert (log + [e])[..k] == log[..k];
  }

  // ----- steps -----

  /** Transactions of the other tables leave notices alone, release ones that nobody has touched, or write new ones. */
  ghost predicate SparesNotices(d: Desk, d': Desk) {
    && d'.mail == d.mail && d.notices.Keys <= d'.notices.Keys
    && forall c {:trigger d'.notices[c]} | c in d'.notices ::
         var n' := d'.notices[c];
         if c !in d.notices then n'.status.NoticePending? && n'.lockedAt.None? && n'.sentAt.None? && n'.attempts == 0
         else
           var n := d.notices[c];
           && n'.status == n.status && n'.lockedAt == n.lockedAt && n'.sentAt == n.sentAt && n'.attempts == n.attempts
           && (n'.availableAt == n.availableAt || n.status.NoticePending?)
  }

  lemma SparingKeepsRetries(mail: MailSettings, d: Desk, d': Desk)
    requires RetryInv(mail, d) && SparesNotices(d, d')
    ensures RetryInv(mail, d')
  {
    forall c | c in d'.notices ensures ShowsLog(mail, d', c) {
      if c in d.notices { assert ShowsLog(mail, d, c); } else { NeverMentioned(d.mail, c); }
    }
    forall k | 0 <= k < |d'.mail| ensures WaitsForRetry(mail, d'.mail, k) && d'.mail[k].about in d'.notices {
      assert WaitsForRetry(mail, d.mail, k) && d.mail[k].about in d.notices;
    }
  }

  lemma RemovalSparesNotices(s: Settings, w: World, p: BidId, reason: string, now: Time)
    requires WorldInv(s, w)
    ensures SparesNotices(w.desk, Apply(s, w, Remove(p, reason), now).desk)
  {
    if p in w.game.cases && w.game.cases[p].status.Open? && 0 < |reason| <= 500 { RemovalQueuesItsWork(s, w, p, reason, now); }
  }

  lemma BeginSparesNotices(s: Settings, w: World, p: BidId, now: Time)
    requires WorldInv(s, w) && Enabled(w, BeginPayment(p))
    ensures SparesNotices(w.desk, Apply(s, w, BeginPayment(p), now).desk)
  {
    BeginOutcome(s, w, p, now);
    RefundedNoticeWaits(w.game, w.books, w.desk, p);
  }

  lemma EndSparesNotices(s: Settings, w: World, p: BidId, answer: Option<string>, now: Time)
    requires WorldInv(s, w) && Enabled(w, EndPayment(p, answer))
    ensures SparesNotices(w.desk, Apply(s, w, EndPayment(p, answer), now).desk)
  {
    EndOutcome(s, w, p, answer, now);
    EndedNoticeWaits(s, w, p);
  }

  lemma OthersSpareNotices(s: Settings, w: World, step: Step, now: Time)
    requires WorldInv(s, w) && Enabled(w, step) && !MovesMail(step)
    ensures SparesNotices(w.desk, Apply(s, w, step, now).desk)
  {
    if step.Remove? {
      RemovalSparesNotices(s, w, step.about, step.reason, now);
    } else if step.BeginPayment? {
      BeginSparesNotices(s, w, step.about, now);
    } else if step.EndPayment? {
      EndSparesNotices(s, w, step.about, step.answer, now);
    } else {
      DeskIsSpared(s, w, step, now);
    }
  }

  lemma EndedNoticeWaits(s: Settings, w: World, p: BidId)
    requires WorldInv(s, w) && p in w.desk.actions
    ensures w.desk.actions[p].op.IssueRefund? && w.desk.actions[p].status.ActionProcessing? && p in w.desk.notices ==>
              w.desk.notices[p].status.NoticePending?
  {
    if p in w.desk.notices { assert NoticeOk(w.game, w.books, w.desk, p); }
  }

  lemma ClaimKeepsRetries(mail: MailSettings, d: Desk, c: BidId, now: Time)
    requires RetryInv(mail, d) && c in d.notices
    ensures RetryInv(mail, ClaimNotice(d, c, mail, now))
  {
    if Claimable(d.notices[c], mail, now) {
      var d', e := ClaimNotice(d, c, mail, now), Claimed(c, |d.sends|, now);
      assert ShowsLog(mail, d, c) && d'.mail[..|d.mail|] == d.mail;
      forall x | x in d'.notices ensures ShowsLog(mail, d', x) {
        assert ShowsLog(mail, d, x);
        AfterAppend(d.mail, e, x);
      }
      forall k | 0 <= k < |d'.mail| ensures WaitsForRetry(mail, d'.mail, k) && d'.mail[k].about in d'.notices {
        if k < |d.mail| {
          assert WaitsForRetry(mail, d.mail, k) && d.mail[k].about in d.notices;
          OldClaimsWaited(mail, d.mail, e, k);
        }
      }
    }
  }

  lemma FinishKeepsRetries(mail: MailSettings, d: Desk, claim: nat, answer: Delivery, now: Time)
    requires RetryInv(mail, d) && claim < |d.sends| && d.sends[claim].eventKey in d.notices
    ensures RetryInv(mail, FinishNotice(d, claim, mail, answer, now))
  {
    var c := d.sends[claim].eventKey;
    var d', e := FinishNotice(d, claim, mail, answer, now), Answered(c, claim, answer, d.notices[c].status.NoticeProcessing?, now);
    forall x | x in d'.notices ensures ShowsLog(mail, d', x) {
      assert ShowsLog(mail, d, x);
      AfterAppend(d.mail, e, x);
    }
    forall k | 0 <= k < |d'.mail| ensures WaitsForRetry(mail, d'.mail, k) && d'.mail[k].about in d'.notices {
      if k < |d.mail| {
        assert WaitsForRetry(mail, d.mail, k) && d.mail[k].about in d.notices;
        OldClaimsWaited(mail, d.mail, e, k);
      }
    }
  }

  lemma StepKeepsRetries(s: Settings, w: World, step: Step, now: Time)
    requires WorldInv(s, w) && Enabled(w, step) && RetryInv(s.mail, w.desk)
    ensures RetryInv(s.mail, Apply(s, w, step, now).desk)
  {
    if step.ClaimMail? {
      ClaimKeepsRetries(s.mail, w.desk, step.about, now);
    } else if step.FinishMail? {
      FinishKeepsRetries(s.mail, w.desk, step.claim, step.delivery, now);
    } else {
      OthersSpareNotices(s, w, step, now);
      SparingKeepsRetries(s.mail, w.desk, Apply(s, w, step, now).desk);
    }
  }

  // ----- runs -----

  lemma {:induction false} RunsKeepRetries(s: Settings, ws: seq<World>, ms: seq<Moment>, i: nat)
    requires IsRun(s, ws, ms) && i < |ws|
    ensures RetryInv(s.mail, ws[i].desk)
    decreases i
  {
    if i > 0 {
      RunsKeepRetries(s, ws, ms, i - 1);
      RunsStayInOrder(s, ws, ms, i - 1);
      assert Connects(s, ws, ms, i - 1);
      StepKeepsRetries(s, ws[i - 1], ms[i - 1].step, ms[i - 1].at);
    }
  }

  /** In every state of every run a notice shows exactly what its last claim or recorded answer left, and when. */
  lemma NoticesShowTheirLog(s: Settings, ws: seq<World>, ms: seq<Moment>, i: nat, c: BidId)
    requires IsRun(s, ws, ms) && i < |ws| && c in ws[i].desk.notices
    ensures ShowsLog(s.mail, ws[i].desk, c)
  {
    RunsKeepRetries(s, ws, ms, i);
  }

  /**
   After a recorded failure a notice is not claimed again before the delay for its number of attempts has passed, and
   after a recorded delivery or suppression it is never claimed again.
   */
  lemma FailuresWaitForRetry(s: Settings, ws: seq<World>, ms: seq<Moment>, i: nat, k: nat)
    requires IsRun(s, ws, ms) && i < |ws| && k < |ws[i].desk.mail| && ws[i].desk.mail[k].Claimed?
    ensures var log := ws[i].desk.mail;
            var last := LastWord(log[..k], log[k].about);
            last.Some? && log[last.value].Answered? ==>
              && log[last.value].answer.Refused?
              && log[last.value].at + RetryDelay(s.mail, ClaimsIn(log[..k], log[k].about)) * SECOND <= log[k].at
  {
    RunsKeepRetries(s, ws, ms, i);
    assert WaitsForRetry(s.mail, ws[i].desk.mail, k);
  }

  /**
   When a worker gets a notice: it does not wait for a refund, and it is ready and was not delivered, or it is taken and
   its lease has run out. It is then taken under a new lease, and its message handed over under the next claim.
   */
  lemma ClaimTakesExactlyWhen(s: Settings, w: World, c: BidId, now: Time)
    requires Enabled(w, ClaimMail(c))
    ensures var n, d' := w.desk.notices[c], Apply(s, w, ClaimMail(c), now).desk;
            var ready := (n.status.NoticePending? || n.status.NoticeFailed?) && n.availableAt <= now;
            var stale := n.status.NoticeProcessing? && n.lockedAt.Some? && n.lockedAt.value + s.mail.leaseSeconds * SECOND < now;
            d' == if n.waiting || !(ready || stale) then w.desk
                  else w.desk.(notices := w.desk.notices[c := n.(status := NoticeProcessing, lockedAt := Some(now), attempts := n.attempts + 1)],
                               sends := w.desk.sends + [Send(c, n.recipient, n.context)],
                               mail := w.desk.mail + [Claimed(c, |w.desk.sends|, now)])
  {
  }
}
