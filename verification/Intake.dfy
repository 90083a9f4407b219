// One-time approvals and confirmations, represented entities, and competition periods.
module Intake {
  import opened Base
  import Week

  datatype Approval = Approval(
    user: UserId, board: BoardId, entity: EntityId, message: string,
    allowed: bool, expiresAt: Time, consumedAt: Option<Time>)

  datatype Confirmation = Confirmation(
    user: UserId, board: BoardId, entity: EntityId, message: string, amount: nat,
    expiresAt: Time, confirmedAt: Option<Time>, consumedAt: Option<Time>)

  datatype Entity = Entity(competition: CompetitionId, active: bool)

  datatype PeriodKey = PeriodKey(competition: CompetitionId, name: Week.IsoWeek)

  datatype Period = Period(startsAt: int, endsAt: int, active: bool, resetCompletedAt: Option<Time>)

  type Periods = map<PeriodKey, Period>

  datatype Intake = Intake(
    approvals: map<nat, Approval>,
    confirmations: map<nat, Confirmation>,
    entities: map<EntityId, Entity>,
    periods: Periods)

  predicate UsableApproval(t: Intake, id: nat, user: UserId, board: BoardId, entity: EntityId, message: string, now: Time) {
    && id in t.approvals
    && var a := t.approvals[id];
    && a.user == user && a.board == board && a.entity == entity && a.message == message
    && a.allowed && a.expiresAt > now && a.consumedAt.None?
  }

  predicate UsableConfirmation(t: Intake, id: nat, user: UserId, board: BoardId, entity: EntityId, message: string, amount: int, now: Time) {
    && id in t.confirmations
    && var c := t.confirmations[id];
    && c.user == user && c.board == board && c.entity == entity && c.message == message
    && c.amount == amount && c.expiresAt > now && c.consumedAt.None?
  }

  function ConsumeApproval(t: Intake, id: nat, now: Time): Intake
    requires id in t.approvals
  {
    t.(approvals := t.approvals[id := t.approvals[id].(consumedAt := Some(now))])
  }

  function ConsumeConfirmation(t: Intake, id: nat, now: Time): Intake
    requires id in t.confirmations
  {
    t.(confirmations := t.confirmations[id := t.confirmations[id].(confirmedAt := Some(now), consumedAt := Some(now))])
  }

  // ----- periods -----

  function KeyAt(competition: CompetitionId, now: Time): PeriodKey {
    PeriodKey(competition, Week.CurrentWindow(now).name)
  }

  predicate HasActive(periods: Periods, competition: CompetitionId) {
    exists k | k in periods :: k.competition == competition && periods[k].active
  }

  /** A bid is placed in the active period; when there is none, the period of the current window becomes active. */
  function EnsureActive(periods: Periods, competition: CompetitionId, now: Time): Periods {
    if HasActive(periods, competition) then periods
    else
      var key, window := KeyAt(competition, now), Week.CurrentWindow(now);
      if key in periods then periods[key := periods[key].(active := true)]
      else periods[key := Period(window.startsAt, window.endsAt, true, None)]
  }

  predicate AlreadyReset(periods: Periods, competition: CompetitionId, now: Time) {
    var key := KeyAt(competition, now);
    key in periods && periods[key].resetCompletedAt.Some?
  }

  /** Start the period of the current window and retire every other one of the competition. */
  function RollOver(periods: Periods, competition: CompetitionId, now: Time): Periods {
    var key, window := KeyAt(competition, now), Week.CurrentWindow(now);
    var started :=
      if key in periods then periods[key].(active := true, resetCompletedAt := Some(now))
      else Period(window.startsAt, window.endsAt, true, Some(now));
    (map k | k in periods :: if k.competition == competition then periods[k].(active := false) else periods[k])[key := started]
  }
}
