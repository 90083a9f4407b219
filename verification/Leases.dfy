// Email leases along runs: which answers are recorded, when two workers hold one notice, and when a success is lost.
module Leases {
  import opened Base
  import opened Rows
  import opened Takeovers
  import opened GameInvariant
  import opened Books
  import opened Desk
  import opened DeskInvariant
  import opened Protocol
  import opened Safety
  import opened EventSteps
  import opened Machine
  import opened Display
  import opened History

  // ----- reading the mail log -----

  /** Where the log last mentions notice `c`. */
  function Last(log: seq<MailEvent>, c: BidId): (k: Option<nat>)
    ensures k.Some? ==> k.value < |log| && log[k.value].about == c
    decreases |log|
  {
    if log == [] then None
    else if log[|log| - 1].about == c then Some(|log| - 1)
    else Last(log[..|log| - 1], c)
  }

  /** The last word about notice `c` is a claim: its lease is held and nobody has answered since. */
  predicate Held(log: seq<MailEvent>, c: BidId) {
    Last(log, c).Some? && log[Last(log, c).value].Claimed?
  }

  /** Event `k` claims a notice that was still held. */
  predicate Reclaims(log: seq<MailEvent>, k: nat) {
    k < |log| && log[k].Claimed? && Held(log[..k], log[k].about)
  }

  /** Notice `c` has been claimed while it was still held. */
  ghost predicate Reclaimed(log: seq<MailEvent>, c: BidId) {
    exists k {:trigger Reclaims(log, k)} | 0 <= k < |log| :: log[k].about == c && Reclaims(log, k)
  }

  /** Some worker has answered about notice `c` since it was last claimed. */
  ghost predicate AnsweredSince(log: seq<MailEvent>, c: BidId) {
    exists i {:trigger log[i]} | 0 <= i < |log| ::
      && log[i].Answered? && log[i].about == c
      && forall j {:trigger log[j]} | i < j < |log| :: !(log[j].Claimed? && log[j].about == c)
  }

  lemma LastAfterAppend(log: seq<MailEvent>, e: MailEvent, c: BidId)
    ensures Last(log + [e], c) == if e.about == c then Some(|log|) else Last(log, c)
    ensures Held(log + [e], c) <==> if e.about == c then e.Claimed? else Held(log, c)
  {
    assert (log + [e])[..|log|] == log;
  }

  lemma {:induction false} LastIsLast(log: seq<MailEvent>, c: BidId, j: nat)
    requires j < |log| && log[j].about == c
    ensures Last(log, c).Some? && j <= Last(log, c).value
    decreases |log|
  {
    if j < |log| - 1 && log[|log| - 1].about != c { LastIsLast(log[..|log| - 1], c, j); }
  }

  /** Once a notice has been claimed, it is held or somebody has answered since, and not both. */
  lemma HeldUnlessAnswered(log: seq<MailEvent>, c: BidId)
    requires Last(log, c).Some?
    ensures Held(log, c) <==> !AnsweredSince(log, c)
  {
    var k := Last(log, c).value;
    forall j | 0 <= j < |log| && log[j].about == c ensures j <= k { LastIsLast(log, c, j); }
    if log[k].Answered? { assert log[k].about == c; }
  }

  lemma ReclaimsAfterAppend(log: seq<MailEvent>, e: MailEvent, k: nat)
    ensures Reclaims(log + [e], k) <==> if k < |log| then Reclaims(log, k) else k == |log| && e.Claimed? && Held(log, e.about)
  {
    if k < |log| { assert (log + [e])[..k] == log[..k]; }
    assert (log + [e])[..|log|] == log;
  }

  lemma ReclaimedAfterAppend(log: seq<MailEvent>, e: MailEvent, c: BidId)
    ensures Reclaimed(log + [e], c) <==> Reclaimed(log, c) || (e.about == c && e.Claimed? && Held(log, c))
  {
    var more := log + [e];
    if Reclaimed(log, c) {
      var k :| 0 <= k < |log| && log[k].about == c && Reclaims(log, k);
      ReclaimsAfterAppend(log, e, k);
      assert more[k].about == c && Reclaims(more, k);
    }
    if Reclaimed(more, c) {
      var k :| 0 <= k < |more| && more[k].about == c && Reclaims(more, k);
      ReclaimsAfterAppend(log, e, k);
    }
    ReclaimsAfterAppend(log, e, |log|);
    assert more[|log|] == e;
  }

  // ----- the invariant -----

  /** A notice is being processed exactly while it is held, under the lease of the claim that holds it. */
  ghost predicate LeaseOk(d: Desk, c: BidId)
    requires c in d.notices
  {
    && (d.notices[c].status.NoticeProcessing? <==> Held(d.mail, c))
    && (Held(d.mail, c) ==> d.notices[c].lockedAt == Some(d.mail[Last(d.mail, c).value].at))
  }

  /**
   A claim is a send, and takes a held notice over only when the lease has run out. An answer follows its claim,
   and is recorded exactly when the notice is held at that point, which it is unless it has been reclaimed.
   */
  ghost predicate EventOk(lease: nat, d: Desk, k: nat)
    requires k < |d.mail|
  {
    var e := d.mail[k];
    && e.about in d.notices && e.claim < |d.sends| && d.sends[e.claim].eventKey == e.about
    && (Reclaims(d.mail, k) ==>
          var held := d.mail[..k][Last(d.mail[..k], e.about).value];
          held.Claimed? && held.at + lease * SECOND < e.at)
    && (e.Answered? ==>
          && Last(d.mail[..k], e.about).Some?
          && (e.recorded <==> Held(d.mail[..k], e.about))
          && (!e.recorded ==> Reclaimed(d.mail[..k], e.about)))
  }

  /** Whoever holds a notice has not answered yet. */
  ghost predicate HolderOk(d: Desk, c: BidId)
    requires c in d.notices
  {
    Held(d.mail, c) ==>
      var n := d.mail[Last(d.mail, c).value].claim; Outstanding(d, n) && d.sends[n].eventKey == c
  }

  /** Sends are the claims, in order. */
  ghost predicate ClaimOk(d: Desk, n: nat)
    requires n < |d.sends|
  {
    exists k {:trigger d.mail[k]} | 0 <= k < |d.mail| :: d.mail[k].Claimed? && d.mail[k].claim == n && d.mail[k].about == d.sends[n].eventKey
  }

  /** As long as nobody has reclaimed a notice, only the claim that holds it is outstanding. */
  ghost predicate OneWorker(d: Desk, n: nat)
    requires n < |d.sends|
  {
    var c := d.sends[n].eventKey;
    Outstanding(d, n) && !Reclaimed(d.mail, c) ==> Held(d.mail, c) && d.mail[Last(d.mail, c).value].claim == n
  }

  /** A notice is sent or suppressed exactly when an answer that says so has been recorded. */
  ghost predicate Recorded(log: seq<MailEvent>, c: BidId, answer: Delivery) {
    exists k {:trigger log[k]} | 0 <= k < |log| :: log[k].Answered? && log[k].about == c && log[k].answer == answer && log[k].recorded
  }

  ghost predicate FinalOk(d: Desk, c: BidId)
    requires c in d.notices
  {
    (d.notices[c].status.Sent? <==> Recorded(d.mail, c, Delivered)) && (d.notices[c].status.Suppressed? <==> Recorded(d.mail, c, Inert))
  }

  ghost predicate MailInv(lease: nat, d: Desk) {
    && (forall c {:trigger LeaseOk(d, c)} | c in d.notices :: LeaseOk(d, c))
    && (forall c {:trigger HolderOk(d, c)} | c in d.notices :: HolderOk(d, c))
    && (forall k {:trigger EventOk(lease, d, k)} | 0 <= k < |d.mail| :: EventOk(lease, d, k))
    && (forall n {:trigger ClaimOk(d, n)} | 0 <= n < |d.sends| :: ClaimOk(d, n))
    && (forall n {:trigger OneWorker(d, n)} | 0 <= n < |d.sends| :: OneWorker(d, n))
    && (forall c {:trigger FinalOk(d, c)} | c in d.notices :: FinalOk(d, c))
  }

  // ----- what other transactions do to notices -----

  /** New notices are untouched, and no worker notices anything about the old ones. */
  ghost predicate LeavesMail(d: Desk, d': Desk) {
    && d'.mail == d.mail && d'.sends == d.sends && d.notices.Keys <= d'.notices.Keys
    && forall c {:trigger d'.notices[c]} | c in d'.notices ::
         if c in d.notices then d'.notices[c].status == d.notices[c].status && d'.notices[c].lockedAt == d.notices[c].lockedAt
         else d'.notices[c].status.NoticePending?
  }

  lemma UnmentionedIsFree(lease: nat, d: Desk, c: BidId)
    requires MailInv(lease, d) && c !in d.notices
    ensures Last(d.mail, c).None? && !Recorded(d.mail, c, Delivered) && !Recorded(d.mail, c, Inert)
  {
    forall k | 0 <= k < |d.mail| ensures d.mail[k].about != c { assert EventOk(lease, d, k); }
  }

  lemma LeavingKeepsMail(lease: nat, d: Desk, d': Desk)
    requires MailInv(lease, d) && LeavesMail(d, d')
    ensures MailInv(lease, d')
  {
    forall c | c in d'.notices ensures LeaseOk(d', c) && HolderOk(d', c) && FinalOk(d', c) {
      if c in d.notices { assert LeaseOk(d, c) && HolderOk(d, c) && FinalOk(d, c); } else { UnmentionedIsFree(lease, d, c); }
    }
    forall k | 0 <= k < |d'.mail| ensures EventOk(lease, d', k) { assert EventOk(lease, d, k); }
    forall n | 0 <= n < |d'.sends| ensures ClaimOk(d', n) && OneWorker(d', n) {
      assert ClaimOk(d, n) && OneWorker(d, n);
      if Outstanding(d', n) { assert Outstanding(d, n); }
    }
  }

  lemma EnqueueLeavesMail(d: Desk, bid: BidId, to: Email, context: Context, waiting: bool, now: Time)
    ensures LeavesMail(d, EnqueueNotice(d, bid, to, context, waiting, now))
  {
  }

  lemma RemoveLeavesMail(g: Game, d: Desk, bid: BidId, now: Time)
    requires Linked(g) && bid in g.cases
    ensures var r := RemoveCase(g, d, bid, now); r.Commit? ==> LeavesMail(d, r.value.1)
  {
    var r := RemoveCase(g, d, bid, now);
    if r.Commit? && g.cases[bid].status.Open? {
      assert TakeoverLinked(g, bid) && BidLinked(g, bid);
      var d1 := QueueWork(g, d, bid, now).value;
      var waiting := d1.actions[bid].op.IssueRefund? && d1.actions[bid].status.ActionPending?;
      EnqueueLeavesMail(d1, bid, Recipient(g, bid), Context(g.takeovers[bid].board, now, bid, None), waiting, now);
    }
  }

  lemma BeginLeavesMail(g: Game, b: Books, d: Desk, id: BidId, now: Time)
    requires Linked(g) && id in d.actions && id in g.bids && d.actions[id].caseOf in g.cases
    ensures LeavesMail(d, BeginAction(g, b, d, id, now))
  {
  }

  lemma EndLeavesMail(g: Game, b: Books, d: Desk, id: BidId, reply: Option<string>, now: Time)
    requires Linked(g) && id in d.actions && id in g.bids && d.actions[id].caseOf in g.cases
    ensures var r := EndAction(g, b, d, id, reply, now); r.Commit? ==> LeavesMail(d, r.value.2)
  {
  }

  predicate MovesMail(step: Step) {
    step.ClaimMail? || step.FinishMail?
  }

  lemma OthersLeaveMail(s: Settings, w: World, step: Step, now: Time)
    requires WorldInv(s, w) && Enabled(w, step) && !MovesMail(step)
    ensures LeavesMail(w.desk, Apply(s, w, step, now).desk)
  {
    match step
    case Remove(p, reason) => if p in w.game.cases { RemoveLeavesMail(w.game, w.desk, p, now); }
    case BeginPayment(p) => BeginLeavesMail(w.game, w.books, w.desk, p, now);
    case EndPayment(p, answer) => EndLeavesMail(w.game, w.books, w.desk, p, answer, now);
    case _ => DeskIsSpared(s, w, step, now);
  }

  lemma DeskIsSpared(s: Settings, w: World, step: Step, now: Time)
    requires WorldInv(s, w) && Enabled(w, step) && !MovesMail(step) && !step.Remove? && !step.BeginPayment? && !step.EndPayment?
    ensures Apply(s, w, step, now).desk == w.desk
  {
    if step.Checkout? {
      SettleLinks(w, step.offer.board, s.rules, now, Some(step.due));
    } else if step.FreePlay? {
      SettleLinks(w, step.offer.board, s.rules, now, None);
      FreePlaySparesDesk(s, w, step.bid, step.offer, now);
    } else if step.Authorization? {
      AuthorizationSparesDesk(s, w, step, now);
    } else if step.FinalizeDue? {
      SettleLinks(w, step.board, s.rules, now, step.mode);
    }
  }

  lemma FreePlaySparesDesk(s: Settings, w: World, bid: BidId, o: Offer, now: Time)
    requires Linked(w.game) && o.board in w.game.boards && bid !in w.game.bids
    ensures var r := CreateBid(w, bid, o, s.rules, now); r.Commit? ==> r.value.0.desk == w.desk
  {
    SettleLinks(w, o.board, s.rules, now, None);
  }

  lemma AuthorizationSparesDesk(s: Settings, w: World, step: Step, now: Time)
    requires WorldInv(s, w) && Enabled(w, step) && step.Authorization?
    ensures Apply(s, w, step, now).desk == w.desk
  {
    var e := step.event;
    if KnownBid(w.game, e) && e.intent.Some? && AwaitingAuthorization(w.game.bids[e.bid.value].status) {
      var id := w.game.bids[e.bid.value].board;
      SettleSparesNewcomer(s, w, e.bid.value, now, step.due);
      SettleLinks(w, id, s.rules, now, Some(step.due));
      var w1 := SettlePaid(w, id, s.rules, now, step.due).value.0;
      ChallengeLinks(w1.game, e.bid.value, e.intent, now);
      SettleLinks(w1.(game := Challenge(w1.game, e.bid.value, e.intent, now)), id, s.rules, now, Some(step.own));
    }
  }

  // ----- claims and answers -----

  lemma OldEventsStay(lease: nat, d: Desk, d': Desk, e: MailEvent, k: nat)
    requires k < |d.mail| && EventOk(lease, d, k) && d'.mail == d.mail + [e]
    requires d.sends <= d'.sends && d.notices.Keys <= d'.notices.Keys
    ensures EventOk(lease, d', k)
  {
    assert d'.mail[..k] == d.mail[..k];
  }

  lemma OldClaimsStay(d: Desk, d': Desk, e: MailEvent, n: nat)
    requires n < |d.sends| && ClaimOk(d, n) && d'.mail == d.mail + [e] && d.sends <= d'.sends
    ensures ClaimOk(d', n)
  {
    var k :| 0 <= k < |d.mail| && d.mail[k].Claimed? && d.mail[k].claim == n && d.mail[k].about == d.sends[n].eventKey;
    assert d'.mail[k] == d.mail[k];
  }

  lemma RecordedAfterAppend(log: seq<MailEvent>, e: MailEvent, c: BidId, answer: Delivery)
    ensures Recorded(log + [e], c, answer) <==>
            Recorded(log, c, answer) || (e.Answered? && e.about == c && e.answer == answer && e.recorded)
  {
    var more := log + [e];
    if Recorded(log, c, answer) {
      var k :| 0 <= k < |log| && log[k].Answered? && log[k].about == c && log[k].answer == answer && log[k].recorded;
      assert more[k] == log[k];
    }
    assert more[|log|] == e;
  }

  lemma OutstandingAfterAppend(d: Desk, d': Desk, e: MailEvent, n: nat)
    requires d'.mail == d.mail + [e] && d.sends <= d'.sends && n < |d.sends|
    ensures Outstanding(d', n) <==> Outstanding(d, n) && !(e.Answered? && e.claim == n)
  {
    if Outstanding(d', n) {
      forall i | 0 <= i < |d.mail| ensures !(d.mail[i].Answered? && d.mail[i].claim == n) { assert d'.mail[i] == d.mail[i]; }
      assert d'.mail[|d.mail|] == e;
    }
  }

  lemma ClaimKeepsMail(d: Desk, c: BidId, mail: MailSettings, now: Time)
    requires MailInv(mail.leaseSeconds, d) && c in d.notices
    ensures MailInv(mail.leaseSeconds, ClaimNotice(d, c, mail, now))
  {
    var d' := ClaimNotice(d, c, mail, now);
    if d' != d {
      var e := Claimed(c, |d.sends|, now);
      assert LeaseOk(d, c);
      forall x | x in d'.notices ensures LeaseOk(d', x) && FinalOk(d', x) {
        assert LeaseOk(d, x) && FinalOk(d, x);
        LastAfterAppend(d.mail, e, x);
        RecordedAfterAppend(d.mail, e, x, Delivered);
        RecordedAfterAppend(d.mail, e, x, Inert);
      }
      ClaimKeepsHolders(d, c, mail, now);
      ClaimKeepsEvents(d, c, mail, now);
      ClaimKeepsWorkers(d, c, mail, now);
    }
  }

  lemma ClaimKeepsHolders(d: Desk, c: BidId, mail: MailSettings, now: Time)
    requires MailInv(mail.leaseSeconds, d) && c in d.notices && Claimable(d.notices[c], mail, now)
    ensures var d' := ClaimNotice(d, c, mail, now);
            forall x {:trigger HolderOk(d', x)} | x in d'.notices :: HolderOk(d', x)
  {
    var d', e := ClaimNotice(d, c, mail, now), Claimed(c, |d.sends|, now);
    forall x | x in d'.notices ensures HolderOk(d', x) {
      assert HolderOk(d, x);
      LastAfterAppend(d.mail, e, x);
      if x == c {
        NewClaimIsOutstanding(mail.leaseSeconds, d, d', e);
      } else if Held(d.mail, x) {
        OutstandingAfterAppend(d, d', e, d.mail[Last(d.mail, x).value].claim);
      }
    }
  }

  lemma NewClaimIsOutstanding(lease: nat, d: Desk, d': Desk, e: MailEvent)
    requires MailInv(lease, d) && e.Claimed? && d'.mail == d.mail + [e] && |d'.sends| == |d.sends| + 1
    ensures Outstanding(d', |d.sends|)
  {
    forall i | 0 <= i < |d'.mail| ensures !(d'.mail[i].Answered? && d'.mail[i].claim == |d.sends|) {
      if i < |d.mail| { assert EventOk(lease, d, i); }
    }
  }

  lemma ClaimKeepsEvents(d: Desk, c: BidId, mail: MailSettings, now: Time)
    requires MailInv(mail.leaseSeconds, d) && c in d.notices && Claimable(d.notices[c], mail, now)
    ensures var d' := ClaimNotice(d, c, mail, now);
            && (forall k {:trigger EventOk(mail.leaseSeconds, d', k)} | 0 <= k < |d'.mail| :: EventOk(mail.leaseSeconds, d', k))
            && (forall n {:trigger ClaimOk(d', n)} | 0 <= n < |d'.sends| :: ClaimOk(d', n))
  {
    var d', e := ClaimNotice(d, c, mail, now), Claimed(c, |d.sends|, now);
    assert LeaseOk(d, c) && d'.mail[..|d.mail|] == d.mail && d'.mail[|d.mail|] == e;
    forall k | 0 <= k < |d'.mail| ensures EventOk(mail.leaseSeconds, d', k) {
      if k < |d.mail| {
        assert EventOk(mail.leaseSeconds, d, k);
        OldEventsStay(mail.leaseSeconds, d, d', e, k);
      }
    }
    forall n | 0 <= n < |d'.sends| ensures ClaimOk(d', n) {
      if n < |d.sends| {
        assert ClaimOk(d, n);
        OldClaimsStay(d, d', e, n);
      }
    }
  }

  lemma ClaimKeepsWorkers(d: Desk, c: BidId, mail: MailSettings, now: Time)
    requires MailInv(mail.leaseSeconds, d) && c in d.notices && Claimable(d.notices[c], mail, now)
    ensures var d' := ClaimNotice(d, c, mail, now);
            forall n {:trigger OneWorker(d', n)} | 0 <= n < |d'.sends| :: OneWorker(d', n)
  {
    var d', e := ClaimNotice(d, c, mail, now), Claimed(c, |d.sends|, now);
    forall n | 0 <= n < |d'.sends| ensures OneWorker(d', n) {
      var x := d'.sends[n].eventKey;
      LastAfterAppend(d.mail, e, x);
      ReclaimedAfterAppend(d.mail, e, x);
      if n < |d.sends| {
        assert OneWorker(d, n);
        OutstandingAfterAppend(d, d', e, n);
      }
    }
  }

  lemma FinishKeepsMail(d: Desk, claim: nat, mail: MailSettings, answer: Delivery, now: Time)
    requires MailInv(mail.leaseSeconds, d) && Outstanding(d, claim) && d.sends[claim].eventKey in d.notices
    ensures MailInv(mail.leaseSeconds, FinishNotice(d, claim, mail, answer, now))
  {
    var c := d.sends[claim].eventKey;
    var d', e := FinishNotice(d, claim, mail, answer, now), Answered(c, claim, answer, d.notices[c].status.NoticeProcessing?, now);
    forall x | x in d'.notices ensures LeaseOk(d', x) && FinalOk(d', x) {
      assert LeaseOk(d, x) && FinalOk(d, x);
      LastAfterAppend(d.mail, e, x);
      RecordedAfterAppend(d.mail, e, x, Delivered);
      RecordedAfterAppend(d.mail, e, x, Inert);
    }
    FinishKeepsHolders(d, claim, mail, answer, now);
    FinishKeepsEvents(d, claim, mail, answer, now);
    FinishKeepsWorkers(d, claim, mail, answer, now);
  }

  lemma FinishKeepsHolders(d: Desk, claim: nat, mail: MailSettings, answer: Delivery, now: Time)
    requires MailInv(mail.leaseSeconds, d) && Outstanding(d, claim) && d.sends[claim].eventKey in d.notices
    ensures var d' := FinishNotice(d, claim, mail, answer, now);
            forall x {:trigger HolderOk(d', x)} | x in d'.notices :: HolderOk(d', x)
  {
    var c := d.sends[claim].eventKey;
    var d', e := FinishNotice(d, claim, mail, answer, now), Answered(c, claim, answer, d.notices[c].status.NoticeProcessing?, now);
    forall x | x in d'.notices ensures HolderOk(d', x) {
      assert HolderOk(d, x);
      LastAfterAppend(d.mail, e, x);
      if x != c && Held(d.mail, x) { OutstandingAfterAppend(d, d', e, d.mail[Last(d.mail, x).value].claim); }
    }
  }

  lemma FinishKeepsEvents(d: Desk, claim: nat, mail: MailSettings, answer: Delivery, now: Time)
    requires MailInv(mail.leaseSeconds, d) && Outstanding(d, claim) && d.sends[claim].eventKey in d.notices
    ensures var d' := FinishNotice(d, claim, mail, answer, now);
            && (forall k {:trigger EventOk(mail.leaseSeconds, d', k)} | 0 <= k < |d'.mail| :: EventOk(mail.leaseSeconds, d', k))
            && (forall n {:trigger ClaimOk(d', n)} | 0 <= n < |d'.sends| :: ClaimOk(d', n))
  {
    var c := d.sends[claim].eventKey;
    var d', e := FinishNotice(d, claim, mail, answer, now), Answered(c, claim, answer, d.notices[c].status.NoticeProcessing?, now);
    assert LeaseOk(d, c) && d'.mail[..|d.mail|] == d.mail && d'.mail[|d.mail|] == e;
    assert ClaimOk(d, claim);
    var made :| 0 <= made < |d.mail| && d.mail[made].Claimed? && d.mail[made].claim == claim && d.mail[made].about == c;
    LastIsLast(d.mail, c, made);
    assert OneWorker(d, claim);
    forall k | 0 <= k < |d'.mail| ensures EventOk(mail.leaseSeconds, d', k) {
      if k < |d.mail| {
        assert EventOk(mail.leaseSeconds, d, k);
        OldEventsStay(mail.leaseSeconds, d, d', e, k);
      }
    }
    forall n | 0 <= n < |d'.sends| ensures ClaimOk(d', n) {
      assert ClaimOk(d, n);
      OldClaimsStay(d, d', e, n);
    }
  }

  lemma FinishKeepsWorkers(d: Desk, claim: nat, mail: MailSettings, answer: Delivery, now: Time)
    requires MailInv(mail.leaseSeconds, d) && Outstanding(d, claim) && d.sends[claim].eventKey in d.notices
    ensures var d' := FinishNotice(d, claim, mail, answer, now);
            forall n {:trigger OneWorker(d', n)} | 0 <= n < |d'.sends| :: OneWorker(d', n)
  {
    var c := d.sends[claim].eventKey;
    var d', e := FinishNotice(d, claim, mail, answer, now), Answered(c, claim, answer, d.notices[c].status.NoticeProcessing?, now);
    assert OneWorker(d, claim);
    forall n | 0 <= n < |d'.sends| ensures OneWorker(d', n) {
      assert OneWorker(d, n);
      LastAfterAppend(d.mail, e, d.sends[n].eventKey);
      ReclaimedAfterAppend(d.mail, e, d.sends[n].eventKey);
      OutstandingAfterAppend(d, d', e, n);
    }
  }

  // ----- runs -----

  /** What a step does to the desk, as far as the mail log can tell. */
  ghost predicate MailMoves(s: Settings, d: Desk, d': Desk, m: Moment) {
    match m.step
    case ClaimMail(c) => c in d.notices && d' == ClaimNotice(d, c, s.mail, m.at)
    case FinishMail(claim, answer) =>
      Outstanding(d, claim) && d.sends[claim].eventKey in d.notices && d' == FinishNotice(d, claim, s.mail, answer, m.at)
    case _ => LeavesMail(d, d')
  }

  lemma StepMovesMail(s: Settings, w: World, m: Moment)
    requires WorldInv(s, w) && Enabled(w, m.step)
    ensures MailMoves(s, w.desk, Apply(s, w, m.step, m.at).desk, m)
  {
    if !MovesMail(m.step) { OthersLeaveMail(s, w, m.step, m.at); }
  }

  lemma RunMovesMail(s: Settings, ws: seq<World>, ms: seq<Moment>, i: nat)
    requires IsRun(s, ws, ms) && 0 < i < |ws|
    ensures MailMoves(s, ws[i - 1].desk, ws[i].desk, ms[i - 1])
  {
    RunsStayInOrder(s, ws, ms, i - 1);
    assert Connects(s, ws, ms, i - 1);
    StepMovesMail(s, ws[i - 1], ms[i - 1]);
  }

  lemma MovingKeepsMail(s: Settings, d: Desk, d': Desk, m: Moment)
    requires MailInv(s.mail.leaseSeconds, d) && MailMoves(s, d, d', m)
    ensures MailInv(s.mail.leaseSeconds, d')
  {
    match m.step
    case ClaimMail(c) => ClaimKeepsMail(d, c, s.mail, m.at);
    case FinishMail(claim, answer) => FinishKeepsMail(d, claim, s.mail, answer, m.at);
    case _ => LeavingKeepsMail(s.mail.leaseSeconds, d, d');
  }

  lemma {:induction false} RunsKeepMail(s: Settings, ws: seq<World>, ms: seq<Moment>, i: nat)
    requires IsRun(s, ws, ms) && i < |ws|
    ensures MailInv(s.mail.leaseSeconds, ws[i].desk)
    decreases i
  {
    if i > 0 {
      RunsKeepMail(s, ws, ms, i - 1);
      RunMovesMail(s, ws, ms, i);
      MovingKeepsMail(s, ws[i - 1].desk, ws[i].desk, ms[i - 1]);
    }
  }

  /**
   Which answers are recorded: what a worker was told enters the notice exactly when no other worker has answered
   about that notice since it was last claimed. So the notice says sent exactly when such an answer was a delivery.
   */
  lemma AnswerRecordedExactlyWhen(s: Settings, ws: seq<World>, ms: seq<Moment>, i: nat, k: nat)
    requires IsRun(s, ws, ms) && i < |ws| && k < |ws[i].desk.mail| && ws[i].desk.mail[k].Answered?
    ensures var d, e := ws[i].desk, ws[i].desk.mail[k];
            && e.about in d.notices
            && (e.recorded <==> !AnsweredSince(d.mail[..k], e.about))
            && (d.notices[e.about].status.Sent? <==> Recorded(d.mail, e.about, Delivered))
  {
    RunsKeepMail(s, ws, ms, i);
    var d := ws[i].desk;
    assert EventOk(s.mail.leaseSeconds, d, k);
    HeldUnlessAnswered(d.mail[..k], d.mail[k].about);
    assert FinalOk(d, d.mail[k].about);
  }

  /** A delivery is lost to a notice exactly when each of its deliveries was answered after somebody else had answered. */
  lemma SuccessLostExactlyWhen(s: Settings, ws: seq<World>, ms: seq<Moment>, i: nat, c: BidId)
    requires IsRun(s, ws, ms) && i < |ws| && c in ws[i].desk.notices
    ensures var d := ws[i].desk;
            !d.notices[c].status.Sent? <==>
              forall k {:trigger d.mail[k]} | 0 <= k < |d.mail| && d.mail[k].Answered? && d.mail[k].about == c && d.mail[k].answer.Delivered? ::
                AnsweredSince(d.mail[..k], c)
  {
    RunsKeepMail(s, ws, ms, i);
    var d := ws[i].desk;
    assert FinalOk(d, c);
    forall k | 0 <= k < |d.mail| && d.mail[k].Answered? && d.mail[k].about == c
      ensures d.mail[k].recorded <==> !AnsweredSince(d.mail[..k], c)
    {
      assert EventOk(s.mail.leaseSeconds, d, k);
      HeldUnlessAnswered(d.mail[..k], c);
    }
  }

  /** The next claim of a held notice comes more than a lease after the claim that holds it. */
  lemma ReclaimWaitsOutTheLease(s: Settings, ws: seq<World>, ms: seq<Moment>, i: nat, k: nat)
    requires IsRun(s, ws, ms) && i < |ws| && Reclaims(ws[i].desk.mail, k)
    ensures var log := ws[i].desk.mail;
            exists j | 0 <= j < k ::
              && log[j].Claimed? && log[j].about == log[k].about && log[j].at + s.mail.leaseSeconds * SECOND < log[k].at
              && (forall x | j < x < k :: log[x].about != log[k].about)
  {
    RunsKeepMail(s, ws, ms, i);
    var log := ws[i].desk.mail;
    assert EventOk(s.mail.leaseSeconds, ws[i].desk, k);
    var j := Last(log[..k], log[k].about).value;
    assert log[..k][j] == log[j];
    forall x | j < x < k ensures log[x].about != log[k].about {
      if log[x].about == log[k].about {
        assert log[..k][x] == log[x];
        LastIsLast(log[..k], log[k].about, x);
      }
    }
  }

  /** Two workers hold claims of notice `c`. */
  ghost predicate Shared(d: Desk, c: BidId) {
    exists m, n {:trigger Outstanding(d, m), Outstanding(d, n)} | 0 <= m < n < |d.sends| ::
      d.sends[m].eventKey == c && d.sends[n].eventKey == c && Outstanding(d, m) && Outstanding(d, n)
  }

  lemma SharingNeedsReclaim(lease: nat, d: Desk, c: BidId)
    requires MailInv(lease, d) && Shared(d, c)
    ensures Reclaimed(d.mail, c)
  {
    var m, n :| 0 <= m < n < |d.sends| && d.sends[m].eventKey == c && d.sends[n].eventKey == c && Outstanding(d, m) && Outstanding(d, n);
    assert OneWorker(d, m) && OneWorker(d, n);
  }

  lemma ReclaimShares(d: Desk, c: BidId, mail: MailSettings, now: Time)
    requires MailInv(mail.leaseSeconds, d) && c in d.notices && Claimable(d.notices[c], mail, now) && Held(d.mail, c)
    ensures Shared(ClaimNotice(d, c, mail, now), c)
  {
    var d', e := ClaimNotice(d, c, mail, now), Claimed(c, |d.sends|, now);
    assert HolderOk(d, c);
    var n := d.mail[Last(d.mail, c).value].claim;
    OutstandingAfterAppend(d, d', e, n);
    NewClaimIsOutstanding(mail.leaseSeconds, d, d', e);
    assert Outstanding(d', n) && Outstanding(d', |d.sends|);
  }

  lemma ReclaimedStays(log: seq<MailEvent>, more: seq<MailEvent>, c: BidId)
    requires log <= more && Reclaimed(log, c)
    ensures Reclaimed(more, c)
  {
    var k :| 0 <= k < |log| && log[k].about == c && Reclaims(log, k);
    assert more[..k] == log[..k];
    assert more[k].about == c && Reclaims(more, k);
  }

  /** A step that makes a notice reclaimed leaves two workers with it. */
  lemma FreshReclaimShares(s: Settings, d: Desk, d': Desk, m: Moment, c: BidId)
    requires MailInv(s.mail.leaseSeconds, d) && MailMoves(s, d, d', m)
    requires !Reclaimed(d.mail, c) && Reclaimed(d'.mail, c)
    ensures Shared(d', c)
  {
    match m.step
    case ClaimMail(about) =>
      if Claimable(d.notices[about], s.mail, m.at) {
        ReclaimedAfterAppend(d.mail, Claimed(about, |d.sends|, m.at), c);
        ReclaimShares(d, c, s.mail, m.at);
      }
    case FinishMail(claim, answer) =>
      var about := d.sends[claim].eventKey;
      ReclaimedAfterAppend(d.mail, Answered(about, claim, answer, d.notices[about].status.NoticeProcessing?, m.at), c);
    case _ =>
  }

  /** Two workers hold one notice at some moment of a run exactly if it is reclaimed in that run. */
  lemma {:induction false} TwoWorkersExactlyAfterReclaim(s: Settings, ws: seq<World>, ms: seq<Moment>, i: nat, c: BidId)
    requires IsRun(s, ws, ms) && i < |ws|
    ensures (exists j {:trigger ws[j]} | 0 <= j <= i :: Shared(ws[j].desk, c)) <==> Reclaimed(ws[i].desk.mail, c)
    decreases i
  {
    RunsKeepMail(s, ws, ms, i);
    if i > 0 {
      TwoWorkersExactlyAfterReclaim(s, ws, ms, i - 1, c);
      SharedUpTo(s, ws, ms, i, c);
    } else if Shared(ws[0].desk, c) {
      SharingNeedsReclaim(s.mail.leaseSeconds, ws[0].desk, c);
    }
  }

  lemma SharedUpTo(s: Settings, ws: seq<World>, ms: seq<Moment>, i: nat, c: BidId)
    requires IsRun(s, ws, ms) && 0 < i < |ws|
    ensures Reclaimed(ws[i - 1].desk.mail, c) ==> Reclaimed(ws[i].desk.mail, c)
    ensures Shared(ws[i].desk, c) ==> Reclaimed(ws[i].desk.mail, c)
    ensures Reclaimed(ws[i].desk.mail, c) ==> Reclaimed(ws[i - 1].desk.mail, c) || Shared(ws[i].desk, c)
  {
    RunsKeepMail(s, ws, ms, i);
    RunsAge(s, ws, ms, i - 1, i);
    if Reclaimed(ws[i - 1].desk.mail, c) {
      ReclaimedStays(ws[i - 1].desk.mail, ws[i].desk.mail, c);
    } else if Reclaimed(ws[i].desk.mail, c) {
      RunsKeepMail(s, ws, ms, i - 1);
      RunMovesMail(s, ws, ms, i);
      FreshReclaimShares(s, ws[i - 1].desk, ws[i].desk, ms[i - 1], c);
    }
    if Shared(ws[i].desk, c) { SharingNeedsReclaim(s.mail.leaseSeconds, ws[i].desk, c); }
  }

  /** The messages handed to the mail provider under event key `c`. */
  ghost function SendsOf(sends: seq<Send>, c: BidId): set<nat> {
    set n | 0 <= n < |sends| && sends[n].eventKey == c
  }

  lemma {:induction false} ClaimsAreCounted(sends: seq<Send>, c: BidId)
    ensures Claims(sends, c) == |SendsOf(sends, c)|
    decreases |sends|
  {
    if sends == [] {
      assert SendsOf(sends, c) == {};
    } else {
      var last := |sends| - 1;
      ClaimsAreCounted(sends[..last], c);
      var more: set<nat> := if sends[last].eventKey == c then {last} else {};
      assert SendsOf(sends, c) == SendsOf(sends[..last], c) + more;
    }
  }

  /** A notice counts its sends, and each of them carries what the notice still says. */
  lemma AttemptsCountSends(s: Settings, ws: seq<World>, ms: seq<Moment>, i: nat, c: BidId)
    requires IsRun(s, ws, ms) && i < |ws| && c in ws[i].desk.notices
    ensures var d := ws[i].desk;
            && d.notices[c].attempts == |SendsOf(d.sends, c)|
            && forall n | n in SendsOf(d.sends, c) :: d.sends[n] == Send(c, d.notices[c].recipient, d.notices[c].context)
  {
    RunsStayInOrder(s, ws, ms, i);
    var d := ws[i].desk;
    assert NoticeOk(ws[i].game, ws[i].books, d, c);
    ClaimsAreCounted(d.sends, c);
    forall n | n in SendsOf(d.sends, c) ensures d.sends[n] == Send(c, d.notices[c].recipient, d.notices[c].context) {
      assert SendOk(d, n);
    }
  }

  /** An answer is lost only after its notice has been reclaimed. */
  lemma LostAnswerNeedsReclaim(s: Settings, ws: seq<World>, ms: seq<Moment>, i: nat, k: nat)
    requires IsRun(s, ws, ms) && i < |ws| && k < |ws[i].desk.mail| && ws[i].desk.mail[k].Answered? && !ws[i].desk.mail[k].recorded
    ensures Reclaimed(ws[i].desk.mail[..k], ws[i].desk.mail[k].about)
  {
    RunsKeepMail(s, ws, ms, i);
    assert EventOk(s.mail.leaseSeconds, ws[i].desk, k);
  }

  /**
   And it can happen to any notice that can be claimed: a worker whose lease has been reclaimed and whose own
   delivery fails late marks the notice failed while another worker delivers it; that success is not recorded,
   and the notice is sent a third time.
   */
  lemma LateFailureLosesASuccess(s: Settings, w: World, c: BidId, first: Time, second: Time, late: Time, done: Time, again: Time)
    returns (ws: seq<World>, ms: seq<Moment>)
    requires Linked(w.game) && MailInv(s.mail.leaseSeconds, w.desk)
    requires c in w.desk.notices && Claimable(w.desk.notices[c], s.mail, first)
    requires first + s.mail.leaseSeconds * SECOND < second <= late <= done
    requires done + s.mail.retryMax * SECOND <= again
    ensures var n := |w.desk.sends|;
            && ms == [Moment(ClaimMail(c), first), Moment(ClaimMail(c), second), Moment(FinishMail(n, Refused), late),
                      Moment(FinishMail(n + 1, Delivered), done), Moment(ClaimMail(c), again)]
            && Follows(s, ws, ms) && ws[0] == w
            && ws[4].desk.mail == w.desk.mail + [Claimed(c, n, first), Claimed(c, n + 1, second), Answered(c, n, Refused, true, late),
                                                 Answered(c, n + 1, Delivered, false, done)]
            && c in ws[4].desk.notices && ws[4].desk.notices[c].status.NoticeFailed?
            && |ws[5].desk.sends| == n + 3 && ws[5].desk.sends[n + 2].eventKey == c
  {
    var n := |w.desk.sends|;
    LateFailureOnDesk(w.desk, c, s.mail, first, second, late, done, again);
    var d1 := ClaimNotice(w.desk, c, s.mail, first);
    var d2 := ClaimNotice(d1, c, s.mail, second);
    var d3 := FinishNotice(d2, n, s.mail, Refused, late);
    var d4 := FinishNotice(d3, n + 1, s.mail, Delivered, done);
    var ds := [w.desk, d1, d2, d3, d4, ClaimNotice(d4, c, s.mail, again)];
    ms := [Moment(ClaimMail(c), first), Moment(ClaimMail(c), second), Moment(FinishMail(n, Refused), late),
           Moment(FinishMail(n + 1, Delivered), done), Moment(ClaimMail(c), again)];
    forall i | 0 <= i < |ms| ensures MovesMail(ms[i].step) && MailMoves(s, ds[i], ds[i + 1], ms[i]) {
      assert i == 0 || i == 1 || i == 2 || i == 3 || i == 4;
    }
    ws := MailRun(s, w, ds, ms);
  }

  /** Mail steps alone make a run of any state. */
  lemma MailRun(s: Settings, w: World, ds: seq<Desk>, ms: seq<Moment>) returns (ws: seq<World>)
    requires Linked(w.game) && |ds| == |ms| + 1 && ds[0] == w.desk
    requires forall i {:trigger ms[i]} | 0 <= i < |ms| :: MovesMail(ms[i].step) && MailMoves(s, ds[i], ds[i + 1], ms[i])
    ensures Follows(s, ws, ms) && |ws| == |ds| && forall i {:trigger ws[i]} | 0 <= i < |ws| :: ws[i] == w.(desk := ds[i])
  {
    ws := seq(|ds|, i requires 0 <= i < |ds| => w.(desk := ds[i]));
    forall i | 0 <= i < |ms| ensures Connects(s, ws, ms, i) {
      var m := ms[i];
      assert MovesMail(m.step) && MailMoves(s, ds[i], ds[i + 1], m);
    }
  }

  lemma LateFailureOnDesk(d: Desk, c: BidId, mail: MailSettings, first: Time, second: Time, late: Time, done: Time, again: Time)
    requires MailInv(mail.leaseSeconds, d) && c in d.notices && Claimable(d.notices[c], mail, first)
    requires first + mail.leaseSeconds * SECOND < second <= late <= done
    requires done + mail.retryMax * SECOND <= again
    ensures var n := |d.sends|;
            var d1 := ClaimNotice(d, c, mail, first);
            var d2 := ClaimNotice(d1, c, mail, second);
            && Outstanding(d2, n) && d2.sends[n].eventKey == c
            && var d3 := FinishNotice(d2, n, mail, Refused, late);
            && Outstanding(d3, n + 1) && d3.sends[n + 1].eventKey == c
            && var d4 := FinishNotice(d3, n + 1, mail, Delivered, done);
            && d4.mail == d.mail + [Claimed(c, n, first), Claimed(c, n + 1, second), Answered(c, n, Refused, true, late), Answered(c, n + 1, Delivered, false, done)]
            && c in d4.notices && d4.notices[c].status.NoticeFailed?
            && var d5 := ClaimNotice(d4, c, mail, again);
               |d5.sends| == n + 3 && d5.sends[n + 2].eventKey == c
  {
    TwoClaims(d, c, mail, first, second);
    var d2 := ClaimNotice(ClaimNotice(d, c, mail, first), c, mail, second);
    var d3 := FinishNotice(d2, |d.sends|, mail, Refused, late);
    OutstandingAfterAppend(d2, d3, Answered(c, |d.sends|, Refused, true, late), |d.sends| + 1);
    var delay := RetryDelay(mail, d2.notices[c].attempts);
    assert delay * SECOND <= mail.retryMax * SECOND;
  }

  lemma TwoClaims(d: Desk, c: BidId, mail: MailSettings, first: Time, second: Time)
    requires MailInv(mail.leaseSeconds, d) && c in d.notices && Claimable(d.notices[c], mail, first)
    requires first + mail.leaseSeconds * SECOND < second
    ensures var d2 := ClaimNotice(ClaimNotice(d, c, mail, first), c, mail, second);
            && d2.mail == d.mail + [Claimed(c, |d.sends|, first), Claimed(c, |d.sends| + 1, second)]
            && |d2.sends| == |d.sends| + 2 && d2.sends[|d.sends|].eventKey == c && d2.sends[|d.sends| + 1].eventKey == c
            && d2.notices[c].status.NoticeProcessing?
            && Outstanding(d2, |d.sends|) && Outstanding(d2, |d.sends| + 1)
  {
    var d1 := ClaimNotice(d, c, mail, first);
    assert Claimable(d1.notices[c], mail, second);
    ClaimKeepsMail(d, c, mail, first);
    ClaimKeepsMail(d1, c, mail, second);
    NewClaimIsOutstanding(mail.leaseSeconds, d, d1, Claimed(c, |d.sends|, first));
    var d2 := ClaimNotice(d1, c, mail, second);
    OutstandingAfterAppend(d1, d2, Claimed(c, |d1.sends|, second), |d.sends|);
    NewClaimIsOutstanding(mail.leaseSeconds, d1, d2, Claimed(c, |d1.sends|, second));
  }
}
