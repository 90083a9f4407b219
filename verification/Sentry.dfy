// Admission of incident reports through a shared cache whose entries expire.
module Sentry {
  import opened Base

  datatype Source = Critical | Unhandled

  /** Cache keys: one per source and signature, and one per source, clock hour and budget slot. */
  datatype CacheKey =
    | Dedupe(source: Source, signature: string)
    | Budget(source: Source, hour: nat, slot: nat)

  /** When each entry expires. */
  type Cache = map<CacheKey, Time>

  const DEDUPLICATION: nat := 6 * HOUR
  const BUDGET_LIFETIME: nat := HOUR + MINUTE

  function Limit(source: Source): nat {
    if source.Critical? then 3 else 1
  }

  function HourOf(now: Time): nat {
    now / HOUR
  }

  predicate Live(cache: Cache, key: CacheKey, now: Time) {
    key in cache && cache[key] > now
  }

  /** The first free budget slot of the hour, at or after `slot`. */
  function FreeSlot(cache: Cache, source: Source, now: Time, slot: nat): (free: Option<nat>)
    requires slot <= Limit(source)
    ensures free.Some? ==> slot <= free.value < Limit(source) && !Live(cache, Budget(source, HourOf(now), free.value), now)
    ensures forall k | slot <= k < (if free.Some? then free.value else Limit(source)) :: Live(cache, Budget(source, HourOf(now), k), now)
    decreases Limit(source) - slot
  {
    if slot == Limit(source) then None
    else if !Live(cache, Budget(source, HourOf(now), slot), now) then Some(slot)
    else FreeSlot(cache, source, now, slot + 1)
  }

  function Reserve(cache: Cache, source: Source, signature: string, now: Time): (bool, Cache) {
    var key := Dedupe(source, signature);
    if Live(cache, key, now) then (false, cache)
    else
      var free := FreeSlot(cache, source, now, 0);
      if free.None? then (false, cache - {key})
      else (true, cache[key := now + DEDUPLICATION][Budget(source, HourOf(now), free.value) := now + BUDGET_LIFETIME])
  }

  /** The cache as the gate uses it: `add` claims a key that is absent or expired, in one atomic step. */
  class Gate {
    var cache: Cache

    constructor ()
      ensures cache == map[]
    {
      cache := map[];
    }

    method Add(key: CacheKey, lifetime: nat, now: Time) returns (claimed: bool)
      modifies this
      ensures claimed <==> !Live(old(cache), key, now)
      ensures cache == if claimed then old(cache)[key := now + lifetime] else old(cache)
    {
      if key in cache && cache[key] > now { return false; }
      cache := cache[key := now + lifetime];
      return true;
    }

    /** The loop over budget slots; a denial takes the suppression back. */
    method ReserveSlot(source: Source, signature: string, now: Time) returns (admitted: bool)
      modifies this
      ensures (admitted, cache) == Reserve(old(cache), source, signature, now)
    {
      var key := Dedupe(source, signature);
      var claimed := Add(key, DEDUPLICATION, now);
      if !claimed { return false; }
      ghost var before := old(cache);
      for slot := 0 to Limit(source)
        invariant cache == before[key := now + DEDUPLICATION]
        invariant FreeSlot(before, source, now, 0) == FreeSlot(before, source, now, slot)
      {
        var reserved := Add(Budget(source, HourOf(now), slot), BUDGET_LIFETIME, now);
        if reserved { return true; }
      }
      cache := cache - {key};
      assert cache == before - {key};
      return false;
    }
  }

  // ----- what may be reported at all -----

  /** An event as it reaches the gate: its tags, and, if it is about an exception, the types in its chain, the raised one last. */
  datatype Raw = Raw(source: Option<Source>, incident: Option<string>, exception: Option<seq<string>>)

  const CRITICAL_INCIDENTS: set<string> := {
    "bid_finalization_retry_exhausted",
    "payment_capture_integrity_mismatch",
    "payment_capture_recording_failure",
    "payment_refund_integrity_mismatch",
    "scheduled_board_reset_failure",
    "worker_provider_outage"
  }

  function ExceptionType(types: seq<string>): string {
    if types == [] || types[|types| - 1] == "" then "unknown" else types[|types| - 1]
  }

  /** The source and signature under which an event competes; log messages never do. */
  function Classify(e: Raw): Option<(Source, string)> {
    if e.source == Some(Critical) then
      if e.incident.Some? && e.incident.value in CRITICAL_INCIDENTS then Some((Critical, e.incident.value)) else None
    else if e.exception.Some? then Some((Unhandled, ExceptionType(e.exception.value)))
    else None
  }

  /** Returns the source and signature of the report, or nothing; an event that may not compete leaves the cache alone. */
  method BeforeSend(gate: Gate, e: Raw, now: Time) returns (report: Option<(Source, string)>)
    modifies gate
    ensures var c := Classify(e);
            if c.None? then report.None? && gate.cache == old(gate.cache)
            else
              var (admitted, after) := Reserve(old(gate.cache), c.value.0, c.value.1, now);
              gate.cache == after && report == if admitted then c else None
  {
    var source, signature;
    if e.source == Some(Critical) {
      if e.incident.None? || e.incident.value !in CRITICAL_INCIDENTS { return None; }
      source, signature := Critical, e.incident.value;
    } else if e.exception.Some? {
      source, signature := Unhandled, ExceptionType(e.exception.value);
    } else {
      return None;
    }
    var admitted := gate.ReserveSlot(source, signature, now);
    return if admitted then Some((source, signature)) else None;
  }

  /** Exactly which events compete: known critical incidents, and exceptions under the type that was raised, if that is known. */
  lemma CompetesExactlyWhen(e: Raw, source: Source, signature: string)
    ensures Classify(e) == Some((source, signature)) <==>
              if e.source == Some(Critical) then source == Critical && e.incident == Some(signature) && signature in CRITICAL_INCIDENTS
              else
                && source == Unhandled && e.exception.Some?
                && if exists rest, last :: e.exception.value == rest + [last] && last != ""
                   then exists rest :: e.exception.value == rest + [signature] && signature != ""
                   else signature == "unknown"
  {
    if e.exception.Some? && e.exception.value != [] {
      var types := e.exception.value;
      assert types == types[..|types| - 1] + [types[|types| - 1]];
    }
  }

  // ----- traces -----

  datatype Event = Event(source: Source, signature: string, at: Time)

  ghost predicate InTimeOrder(trace: seq<Event>) {
    forall i, j | 0 <= i < j < |trace| :: trace[i].at <= trace[j].at
  }

  /** The cache after the first events of a trace. */
  function CacheAfter(trace: seq<Event>): Cache
    decreases |trace|
  {
    if trace == [] then map[]
    else
      var e := trace[|trace| - 1];
      Reserve(CacheAfter(trace[..|trace| - 1]), e.source, e.signature, e.at).1
  }

  predicate Admitted(trace: seq<Event>, i: nat)
    requires i < |trace|
  {
    Reserve(CacheAfter(trace[..i]), trace[i].source, trace[i].signature, trace[i].at).0
  }

  /** How many events of a source were admitted in a clock hour. */
  function AdmittedIn(trace: seq<Event>, source: Source, hour: nat): nat
    decreases |trace|
  {
    if trace == [] then 0
    else
      var last := |trace| - 1;
      var e := trace[last];
      AdmittedIn(trace[..last], source, hour) + if Admitted(trace, last) && e.source == source && HourOf(e.at) == hour then 1 else 0
  }

  /** The budget slots of an hour that have been taken. */
  function Taken(cache: Cache, source: Source, hour: nat): set<nat> {
    set s: nat | s < Limit(source) && Budget(source, hour, s) in cache
  }

  /** A slot taken in an hour stays taken until that hour is over. */
  ghost predicate SlotsLast(cache: Cache) {
    forall key {:trigger cache[key]} | key in cache && key.Budget? :: cache[key] > key.hour * HOUR + HOUR
  }

  lemma ReserveKeepsSlots(cache: Cache, e: Event)
    requires SlotsLast(cache)
    ensures SlotsLast(Reserve(cache, e.source, e.signature, e.at).1)
  {
    HourHolds(e.at);
  }

  /** A free slot has never been taken. */
  lemma FreeMeansUntaken(cache: Cache, source: Source, now: Time, slot: nat)
    requires SlotsLast(cache) && !Live(cache, Budget(source, HourOf(now), slot), now)
    ensures Budget(source, HourOf(now), slot) !in cache
  {
    HourHolds(now);
  }

  /** The slot an admitted event takes, if it is one of this source and hour. */
  function NewSlot(cache: Cache, e: Event, source: Source, hour: nat): Option<nat> {
    if Reserve(cache, e.source, e.signature, e.at).0 && e.source == source && HourOf(e.at) == hour
    then FreeSlot(cache, source, e.at, 0) else None
  }

  lemma SlotsAfter(cache: Cache, e: Event, source: Source, hour: nat, slot: nat)
    ensures Budget(source, hour, slot) in Reserve(cache, e.source, e.signature, e.at).1 <==>
              Budget(source, hour, slot) in cache || NewSlot(cache, e, source, hour) == Some(slot)
  {
  }

  lemma ReserveTakesOneSlot(cache: Cache, e: Event, source: Source, hour: nat)
    requires SlotsLast(cache)
    ensures var (admitted, after) := Reserve(cache, e.source, e.signature, e.at);
            |Taken(after, source, hour)| ==
            |Taken(cache, source, hour)| + if admitted && e.source == source && HourOf(e.at) == hour then 1 else 0
  {
    var after := Reserve(cache, e.source, e.signature, e.at).1;
    var added := NewSlot(cache, e, source, hour);
    if added.Some? { FreeMeansUntaken(cache, source, e.at, added.value); }
    OneSlotMore(cache, after, source, hour, added) by {
      forall s: nat ensures Budget(source, hour, s) in after <==> Budget(source, hour, s) in cache || added == Some(s) {
        SlotsAfter(cache, e, source, hour, s);
      }
    }
  }

  lemma OneSlotMore(cache: Cache, after: Cache, source: Source, hour: nat, added: Option<nat>)
    requires forall s: nat :: Budget(source, hour, s) in after <==> Budget(source, hour, s) in cache || added == Some(s)
    requires added.Some? ==> added.value < Limit(source) && Budget(source, hour, added.value) !in cache
    ensures |Taken(after, source, hour)| == |Taken(cache, source, hour)| + if added.Some? then 1 else 0
  {
    if added.Some? {
      assert Taken(after, source, hour) == Taken(cache, source, hour) + {added.value};
    } else {
      assert Taken(after, source, hour) == Taken(cache, source, hour);
    }
  }

  lemma HourHolds(now: Time)
    ensures HourOf(now) * HOUR <= now < HourOf(now) * HOUR + HOUR
  {
  }

  lemma {:induction false} SlotsCountAdmissions(trace: seq<Event>, source: Source, hour: nat)
    ensures SlotsLast(CacheAfter(trace))
    ensures AdmittedIn(trace, source, hour) == |Taken(CacheAfter(trace), source, hour)|
    decreases |trace|
  {
    if trace == [] {
      assert Taken(map[], source, hour) == {};
    } else {
      var last := |trace| - 1;
      SlotsCountAdmissions(trace[..last], source, hour);
      ReserveKeepsSlots(CacheAfter(trace[..last]), trace[last]);
      ReserveTakesOneSlot(CacheAfter(trace[..last]), trace[last], source, hour);
    }
  }

  /** The first `n` slots. */
  function Slots(n: nat): (slots: set<nat>)
    ensures |slots| == n
    ensures forall s: nat :: s in slots <==> s < n
  {
    if n == 0 then {} else Slots(n - 1) + {n - 1}
  }

  lemma {:induction false} SubsetsAreSmaller(few: set<nat>, many: set<nat>)
    requires few <= many
    ensures |few| <= |many|
    decreases many
  {
    if few != {} {
      var x :| x in few;
      SubsetsAreSmaller(few - {x}, many - {x});
    }
  }

  /** In any trace at most three critical reports and one unhandled report are admitted in a clock hour. */
  lemma HourlyBudgetHolds(trace: seq<Event>, source: Source, hour: nat)
    ensures AdmittedIn(trace, source, hour) <= if source == Critical then 3 else 1
  {
    SlotsCountAdmissions(trace, source, hour);
    SubsetsAreSmaller(Taken(CacheAfter(trace), source, hour), Slots(Limit(source)));
  }

  /** As long as six hours have not passed, an admitted report is still remembered. */
  ghost predicate Remembered(trace: seq<Event>, n: nat, i: nat, now: Time)
    requires n <= |trace| && i < |trace|
  {
    now < trace[i].at + DEDUPLICATION ==>
      var key := Dedupe(trace[i].source, trace[i].signature);
      var cache := CacheAfter(trace[..n]);
      key in cache && cache[key] >= trace[i].at + DEDUPLICATION
  }

  lemma {:induction false} AdmissionsAreRemembered(trace: seq<Event>, n: nat, i: nat, now: Time)
    requires InTimeOrder(trace) && i < n <= |trace| && Admitted(trace, i)
    requires forall k | 0 <= k < n :: trace[k].at <= now
    ensures Remembered(trace, n, i, now)
    decreases n
  {
    var last := n - 1;
    assert trace[..n][..last] == trace[..last] && trace[..n][last] == trace[last];
    if last > i {
      AdmissionsAreRemembered(trace, last, i, now);
      assert trace[last].at <= now;
    }
  }

  /** Two admitted reports with the same source and signature are at least six hours apart. */
  lemma RepeatsAreSpacedOut(trace: seq<Event>, i: nat, j: nat)
    requires InTimeOrder(trace) && i < j < |trace| && Admitted(trace, i) && Admitted(trace, j)
    requires trace[i].source == trace[j].source && trace[i].signature == trace[j].signature
    ensures trace[i].at + DEDUPLICATION <= trace[j].at
  {
    AdmissionsAreRemembered(trace, j, i, trace[j].at);
  }

  // ----- the gate without its cache -----

  /** A report like event `i` was admitted less than six hours before it. */
  ghost predicate Repeats(trace: seq<Event>, i: nat)
    requires i < |trace|
  {
    exists j {:trigger trace[j]} | 0 <= j < i ::
      && Admitted(trace, j) && trace[j].source == trace[i].source && trace[j].signature == trace[i].signature
      && trace[i].at < trace[j].at + 6 * HOUR
  }

  /** What is remembered about a signature was admitted, at the time that the memory tells. */
  lemma {:induction false} MemoriesWereAdmitted(trace: seq<Event>, n: nat, source: Source, signature: string) returns (j: nat)
    requires n <= |trace| && Dedupe(source, signature) in CacheAfter(trace[..n])
    ensures j < n && Admitted(trace, j) && trace[j].source == source && trace[j].signature == signature
    ensures CacheAfter(trace[..n])[Dedupe(source, signature)] == trace[j].at + DEDUPLICATION
    decreases n
  {
    var last, key := n - 1, Dedupe(source, signature);
    assert trace[..n][..last] == trace[..last] && trace[..n][last] == trace[last];
    if Admitted(trace, last) && trace[last].source == source && trace[last].signature == signature {
      j := last;
    } else {
      j := MemoriesWereAdmitted(trace, last, source, signature);
    }
  }

  lemma RememberedExactlyWhen(trace: seq<Event>, i: nat)
    requires InTimeOrder(trace) && i < |trace|
    ensures Live(CacheAfter(trace[..i]), Dedupe(trace[i].source, trace[i].signature), trace[i].at) <==> Repeats(trace, i)
  {
    var e := trace[i];
    if Live(CacheAfter(trace[..i]), Dedupe(e.source, e.signature), e.at) {
      var j := MemoriesWereAdmitted(trace, i, e.source, e.signature);
      assert trace[j] == trace[j];
    }
    if Repeats(trace, i) {
      var j :| 0 <= j < i && Admitted(trace, j) && trace[j].source == e.source && trace[j].signature == e.signature
               && e.at < trace[j].at + 6 * HOUR;
      AdmissionsAreRemembered(trace, i, j, e.at);
    }
  }

  /** A slot is free exactly as long as not all of them have been taken in the hour. */
  lemma FreeWhileNotAllTaken(cache: Cache, source: Source, now: Time, slots: set<nat>)
    requires SlotsLast(cache) && forall s: nat :: s in slots <==> s < Limit(source)
    ensures FreeSlot(cache, source, now, 0).Some? <==> |Taken(cache, source, HourOf(now))| < |slots|
  {
    HourHolds(now);
    var taken, free := Taken(cache, source, HourOf(now)), FreeSlot(cache, source, now, 0);
    if free.Some? {
      FreeMeansUntaken(cache, source, now, free.value);
      SubsetsAreSmaller(taken, slots - {free.value});
    } else {
      assert taken == slots;
    }
  }

  /**
   In any trace in time order, a report is admitted if and only if none with its source and signature was admitted in the
   six hours before it, and fewer than three critical ones, or no unhandled one, were admitted in its clock hour so far.
   */
  lemma AdmittedExactlyWhen(trace: seq<Event>, i: nat)
    requires InTimeOrder(trace) && i < |trace|
    ensures var e := trace[i];
            Admitted(trace, i) <==>
              !Repeats(trace, i) && AdmittedIn(trace[..i], e.source, e.at / HOUR) < if e.source == Critical then 3 else 1
  {
    RememberedExactlyWhen(trace, i);
    SlotsCountAdmissions(trace[..i], trace[i].source, HourOf(trace[i].at));
    FreeWhileNotAllTaken(CacheAfter(trace[..i]), trace[i].source, trace[i].at, Slots(Limit(trace[i].source)));
  }

  /** A report denied by the budget leaves no suppression behind: it competes again as soon as the next hour starts. */
  lemma DenialLeavesNoSuppression(cache: Cache, source: Source, signature: string, now: Time, later: Time, other: CacheKey)
    requires !Reserve(cache, source, signature, now).0
    ensures var after := Reserve(cache, source, signature, now).1;
            && (Live(after, other, later) ==> Live(cache, other, later))
            && (!Live(cache, Dedupe(source, signature), now) ==> Dedupe(source, signature) !in after)
            && (other != Dedupe(source, signature) ==> (other in after <==> other in cache))
  {
  }

  /** Exactly when a report is admitted: nothing like it in six hours, and a slot of the hour is free. */
  lemma AdmittedIffNewAndAffordable(cache: Cache, source: Source, signature: string, now: Time)
    ensures Reserve(cache, source, signature, now).0 <==>
              && !Live(cache, Dedupe(source, signature), now)
              && exists s: nat | s < (if source == Critical then 3 else 1) :: !Live(cache, Budget(source, now / HOUR, s), now)
  {
    var free := FreeSlot(cache, source, now, 0);
    if free.Some? {
      assert !Live(cache, Budget(source, HourOf(now), free.value), now);
    }
  }
}
