// The limits that bound a paid bid.
module Risk {
  import opened Base
  import opened Books

  datatype RiskConfig = RiskConfig(
    newMax: nat, newHourly: nat, newDaily: nat,
    establishedMax: nat, establishedHourly: nat, establishedDaily: nat,
    trustedMax: nat, trustedHourly: nat, trustedDaily: nat,
    globalMax: nat, globalHourly: nat,
    highValueThreshold: nat,
    highValueEnabled: bool, newUsersEnabled: bool,
    failureLimit: nat)

  /** The aggregates a decision reads: recent net spend, open authorizations and recent failures. */
  datatype RiskFacts = RiskFacts(hourlySpend: nat, dailySpend: nat, pending: nat, failures: nat)

  datatype Limits = Limits(maxBid: nat, hourly: nat, daily: nat)

  datatype Reason =
    | AccountSuspended
    | OpenDispute
    | NewUsersDisabled
    | BidTooLarge
    | HighValueDisabled
    | HourlyLimit
    | DailyLimit
    | FailureCooldown

  function TierOf(a: Account, now: Time): Tier {
    if a.suspended || a.openDispute then Suspended
    else if a.disputes > 0 then Restricted
    else if a.successes >= 10 && a.createdAt + 7 * DAY <= now then Trusted
    else if a.successes >= 3 && a.createdAt + 24 * HOUR <= now then Established
    else New
  }

  function Min(a: nat, b: nat): nat {
    if b < a then b else a
  }

  function LimitsFor(tier: Tier, c: RiskConfig): Limits {
    var own :=
      if tier.Trusted? then Limits(c.trustedMax, c.trustedHourly, c.trustedDaily)
      else if tier.Established? then Limits(c.establishedMax, c.establishedHourly, c.establishedDaily)
      else Limits(c.newMax, c.newHourly, c.newDaily);
    Limits(Min(own.maxBid, c.globalMax), Min(own.hourly, c.globalHourly), own.daily)
  }

  function Remaining(limit: nat, spent: nat, pending: nat): nat {
    if limit - spent - pending < 0 then 0 else limit - spent - pending
  }

  /** The first rule a bid breaks, if any. */
  function Decide(a: Account, c: RiskConfig, amount: nat, f: RiskFacts, now: Time): Option<Reason> {
    var tier := TierOf(a, now);
    var limits := LimitsFor(tier, c);
    if a.banned || a.suspended || tier.Suspended? then Some(AccountSuspended)
    else if a.openDispute then Some(OpenDispute)
    else if tier.New? && !c.newUsersEnabled then Some(NewUsersDisabled)
    else if amount > limits.maxBid then Some(BidTooLarge)
    else if amount >= c.highValueThreshold && !c.highValueEnabled then Some(HighValueDisabled)
    else if amount > Remaining(limits.hourly, f.hourlySpend, f.pending) then Some(HourlyLimit)
    else if amount > Remaining(limits.daily, f.dailySpend, f.pending) then Some(DailyLimit)
    else if f.failures >= c.failureLimit then Some(FailureCooldown)
    else None
  }

  // ----- what the decision means, from the account's own fields -----

  /** The account has had this many captures and has existed this long, and was never disputed. */
  predicate Seasoned(a: Account, captures: nat, age: nat, now: Time) {
    a.disputes == 0 && a.successes >= captures && a.createdAt + age <= now
  }

  predicate IsTrusted(a: Account, now: Time) {
    Seasoned(a, 10, 7 * DAY, now)
  }

  predicate IsEstablished(a: Account, now: Time) {
    Seasoned(a, 3, DAY, now) && !IsTrusted(a, now)
  }

  /** Every rule that a bid has to meet, in the order in which they are reported. */
  predicate Meets(reason: Reason, a: Account, c: RiskConfig, amount: nat, f: RiskFacts, now: Time) {
    match reason
    case AccountSuspended => !a.banned && !a.suspended && !a.openDispute
    case OpenDispute => !a.openDispute
    case NewUsersDisabled => c.newUsersEnabled || a.disputes > 0 || Seasoned(a, 3, DAY, now)
    case BidTooLarge =>
      && amount <= c.globalMax
      && (if IsTrusted(a, now) then amount <= c.trustedMax
          else if IsEstablished(a, now) then amount <= c.establishedMax
          else amount <= c.newMax)
    case HighValueDisabled => c.highValueEnabled || amount < c.highValueThreshold
    case HourlyLimit =>
      var total := f.hourlySpend + f.pending + amount;
      && total <= c.globalHourly
      && (if IsTrusted(a, now) then total <= c.trustedHourly
          else if IsEstablished(a, now) then total <= c.establishedHourly
          else total <= c.newHourly)
    case DailyLimit =>
      var total := f.dailySpend + f.pending + amount;
      if IsTrusted(a, now) then total <= c.trustedDaily
      else if IsEstablished(a, now) then total <= c.establishedDaily
      else total <= c.newDaily
    case FailureCooldown => f.failures < c.failureLimit
  }

  function RankOf(reason: Reason): nat {
    match reason
    case AccountSuspended => 0
    case OpenDispute => 1
    case NewUsersDisabled => 2
    case BidTooLarge => 3
    case HighValueDisabled => 4
    case HourlyLimit => 5
    case DailyLimit => 6
    case FailureCooldown => 7
  }

  lemma DecidedFor(a: Account, c: RiskConfig, amount: nat, f: RiskFacts, now: Time, reason: Reason)
    requires amount > 0
    ensures Decide(a, c, amount, f, now) == Some(reason) ==> !Meets(reason, a, c, amount, f, now)
    ensures Decide(a, c, amount, f, now) == None ==> Meets(reason, a, c, amount, f, now)
  {
  }

  lemma DecidedAfter(a: Account, c: RiskConfig, amount: nat, f: RiskFacts, now: Time, reason: Reason, earlier: Reason)
    requires amount > 0 && Decide(a, c, amount, f, now) == Some(reason) && RankOf(earlier) < RankOf(reason)
    ensures Meets(earlier, a, c, amount, f, now)
  {
  }

  /** A refused bid is told the first rule that it breaks. */
  lemma RefusedForTheFirstReason(a: Account, c: RiskConfig, amount: nat, f: RiskFacts, now: Time, reason: Reason)
    requires amount > 0
    ensures Decide(a, c, amount, f, now) == Some(reason) <==>
              && !Meets(reason, a, c, amount, f, now)
              && forall earlier | RankOf(earlier) < RankOf(reason) :: Meets(earlier, a, c, amount, f, now)
  {
    var decided := Decide(a, c, amount, f, now);
    DecidedFor(a, c, amount, f, now, reason);
    if decided == Some(reason) {
      forall earlier | RankOf(earlier) < RankOf(reason) ensures Meets(earlier, a, c, amount, f, now) {
        DecidedAfter(a, c, amount, f, now, reason, earlier);
      }
    } else if decided.Some? {
      DecidedFor(a, c, amount, f, now, decided.value);
      OneIsEarlier(decided.value, reason);
      if RankOf(reason) < RankOf(decided.value) { DecidedAfter(a, c, amount, f, now, decided.value, reason); }
    }
  }

  lemma OneIsEarlier(p: Reason, q: Reason)
    ensures p != q ==> RankOf(p) < RankOf(q) || RankOf(q) < RankOf(p)
  {
  }

  /**
   A bid is allowed exactly when it meets every rule. An account with a past dispute, fewer than three captures or less
   than a day of age stays within the limits for new accounts; one with ten captures and a week of age within those for
   trusted accounts; any other within those for established accounts; and all of them within the global ones.
   */
  lemma AllowedBidsStayWithinLimits(a: Account, c: RiskConfig, amount: nat, f: RiskFacts, now: Time)
    requires amount > 0
    ensures Decide(a, c, amount, f, now).None? <==>
              && !a.banned && !a.suspended && !a.openDispute
              && (c.newUsersEnabled || a.disputes > 0 || (a.successes >= 3 && a.createdAt + 24 * HOUR <= now))
              && (c.highValueEnabled || amount < c.highValueThreshold)
              && f.failures < c.failureLimit
              && amount <= c.globalMax && f.hourlySpend + f.pending + amount <= c.globalHourly
              && (a.disputes > 0 || a.successes < 3 || now < a.createdAt + 24 * HOUR ==>
                    && amount <= c.newMax
                    && f.hourlySpend + f.pending + amount <= c.newHourly
                    && f.dailySpend + f.pending + amount <= c.newDaily)
              && (a.disputes == 0 && a.successes >= 3 && a.createdAt + 24 * HOUR <= now
                  && (a.successes < 10 || now < a.createdAt + 7 * DAY) ==>
                    && amount <= c.establishedMax
                    && f.hourlySpend + f.pending + amount <= c.establishedHourly
                    && f.dailySpend + f.pending + amount <= c.establishedDaily)
              && (a.disputes == 0 && a.successes >= 10 && a.createdAt + 7 * DAY <= now ==>
                    && amount <= c.trustedMax
                    && f.hourlySpend + f.pending + amount <= c.trustedHourly
                    && f.dailySpend + f.pending + amount <= c.trustedDaily)
  {
  }

  /** The tier that is stored says how far the account has come: an open case first, then its past, then its record. */
  lemma TierTellsTheRecord(a: Account, now: Time)
    ensures TierOf(a, now).Suspended? <==> a.suspended || a.openDispute
    ensures TierOf(a, now).Restricted? <==> !a.suspended && !a.openDispute && a.disputes > 0
    ensures TierOf(a, now).Trusted? <==> !a.suspended && !a.openDispute && IsTrusted(a, now)
    ensures TierOf(a, now).Established? <==> !a.suspended && !a.openDispute && IsEstablished(a, now)
  {
  }
}
