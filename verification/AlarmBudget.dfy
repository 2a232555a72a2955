/**
 Wake-ups under an hourly budget (src/lib/transit/alarm-budget.ts).

 `Arm` is one `budgetedAlarm` transaction on the stored counters and the pending
 alarm; `AlarmStorage` is the same transaction written as the source writes it.
 The clock and the platform firing an alarm are the events of a run.
 */
module AlarmBudget {
  import opened Common

  const HOUR_MS: int := 60 * 60 * 1_000
  const ALARM_BUDGET_PER_HOUR: nat := 120
  const POLL_ALARM_BUDGET_PER_HOUR: nat := 900

  datatype BudgetStatus = BudgetStatus(hourStart: int, resumeAt: int)

  /** The storage keys the budget owns, and the object's single alarm. */
  datatype Budget = Budget(
    currentHour: Option<int>,
    counts: map<int, nat>,
    resumes: set<int>,
    exhausted: Option<BudgetStatus>,
    alarm: Option<int>)

  const FRESH: Budget := Budget(None, map[], {}, None, None)

  function HourStart(now: int): int {
    now / HOUR_MS * HOUR_MS
  }

  function HourEnd(now: int): int {
    HourStart(now) + HOUR_MS
  }

  function Count(b: Budget, hour: int): nat {
    if hour in b.counts then b.counts[hour] else 0
  }

  /** Entering a new hour forgets the previous hour's counter and resume mark. */
  function Roll(b: Budget, now: int): Budget {
    var hour := HourStart(now);
    if b.currentHour == Some(hour) then b
    else
      var kept := if b.currentHour.Some?
                  then b.(counts := b.counts - {b.currentHour.value}, resumes := b.resumes - {b.currentHour.value})
                  else b;
      kept.(currentHour := Some(hour), exhausted := None)
  }

  /** One `budgetedAlarm(at)` call at `now`: the new storage and whether it was granted. */
  function Arm(b: Budget, now: int, at: int, limit: nat): (Budget, bool) {
    var hour := HourStart(now);
    var r := Roll(b, now);
    if Count(r, hour) < limit then
      (r.(counts := r.counts[hour := Count(r, hour) + 1], alarm := Some(at)), true)
    else
      var refused := r.(exhausted := Some(BudgetStatus(hour, HourEnd(now))));
      if hour in r.resumes then (refused, false)
      else (refused.(alarm := Some(HourEnd(now)), resumes := r.resumes + {hour}), false)
  }

  /** Whether the call reaches `setAlarm` at all. */
  predicate Writes(b: Budget, now: int, limit: nat) {
    var r := Roll(b, now);
    Count(r, HourStart(now)) < limit || HourStart(now) !in r.resumes
  }

  // ---------------------------------------------------------------- runs

  datatype Event =
    | Call(now: int, at: int)  // budgetedAlarm
    | Fire(now: int)           // the platform runs the alarm handler, which clears the alarm

  function Step(b: Budget, e: Event, limit: nat): Budget {
    match e
    case Call(now, at) => Arm(b, now, at, limit).0
    case Fire(_) => b.(alarm := None)
  }

  /** A clock that never goes back; an alarm never fires before its time. */
  ghost predicate Legal(b: Budget, clock: int, events: seq<Event>, limit: nat)
    decreases |events|
  {
    events == [] ||
    (var e := events[0];
     && clock <= e.now
     && (e.Fire? ==> b.alarm.Some? && b.alarm.value <= e.now)
     && Legal(Step(b, e, limit), e.now, events[1..], limit))
  }

  ghost function Run(b: Budget, events: seq<Event>, limit: nat): Budget
    decreases |events|
  {
    if events == [] then b else Run(Step(b, events[0], limit), events[1..], limit)
  }

  function LastTime(clock: int, events: seq<Event>): int {
    if events == [] then clock else events[|events| - 1].now
  }

  /** How many times a run writes the alarm within one clock hour. */
  ghost function WritesIn(b: Budget, events: seq<Event>, hour: int, limit: nat): nat
    decreases |events|
  {
    if events == [] then 0
    else
      var e := events[0];
      (if e.Call? && HourStart(e.now) == hour && Writes(b, e.now, limit) then 1 else 0)
      + WritesIn(Step(b, e, limit), events[1..], hour, limit)
  }

  /**
   What every reachable storage satisfies: counters for one hour only, a count
   within the limit, and, once this hour's resume has been scheduled, an alarm
   pending exactly at the end of the hour for as long as the hour lasts.
   */
  ghost predicate Inv(b: Budget, clock: int, limit: nat) {
    && b.counts.Keys <= (if b.currentHour.Some? then {b.currentHour.value} else {})
    && b.resumes <= (if b.currentHour.Some? then {b.currentHour.value} else {})
    && (b.currentHour.Some? ==>
          var hour := b.currentHour.value;
          && hour <= HourStart(clock)
          && Count(b, hour) <= limit
          && (hour in b.resumes ==>
                && Count(b, hour) == limit
                && (clock < hour + HOUR_MS ==> b.alarm == Some(hour + HOUR_MS))))
  }

  lemma HourBounds(now: int)
    ensures HourStart(now) <= now < HourEnd(now)
  {
  }

  lemma HourMonotone(a: int, b: int)
    requires a <= b
    ensures HourStart(a) <= HourStart(b)
    ensures HourEnd(a) <= HourEnd(b)
  {
    HourBounds(a);
    HourBounds(b);
    assert a / HOUR_MS * HOUR_MS < (b / HOUR_MS + 1) * HOUR_MS;
    assert a / HOUR_MS < b / HOUR_MS + 1;
  }

  lemma ClockAdvances(b: Budget, clock: int, later: int, limit: nat)
    requires Inv(b, clock, limit) && clock <= later
    ensures Inv(b, later, limit)
  {
    HourMonotone(clock, later);
  }

  lemma FreshInv(clock: int, limit: nat)
    ensures Inv(FRESH, clock, limit)
  {
  }

  /** The clock hour an instant is in. */
  lemma HourExact(now: int)
    ensures HourStart(now) % 3_600_000 == 0 && HourStart(now) <= now < HourStart(now) + 3_600_000
    ensures HourEnd(now) == HourStart(now) + 3_600_000
  {
  }

  /** A call is granted exactly while this hour has had fewer than the limit: it is counted and arms the alarm; a refused one notes when the budget resumes. */
  lemma ArmExact(b: Budget, now: int, at: int, limit: nat)
    requires Inv(b, now, limit)
    ensures var (b', granted) := Arm(b, now, at, limit);
            var hour := HourStart(now);
            var count := if b.currentHour == Some(hour) then Count(b, hour) else 0;
            && (granted <==> count < limit)
            && b'.currentHour == Some(hour)
            && Count(b', hour) == (if granted then count + 1 else count)
            && (forall other :: other != hour ==> other !in b'.counts && other !in b'.resumes)
            && b'.alarm == Some(if granted then at else hour + 3_600_000)
            && b'.exhausted == (if !granted then Some(BudgetStatus(hour, hour + 3_600_000))
                                else if b.currentHour == Some(hour) then b.exhausted else None)
  {
    ArmKeeps(b, now, at, limit);
  }

  /** One call keeps the invariant, and a refusal leaves the end of the hour pending. */
  lemma ArmKeeps(b: Budget, now: int, at: int, limit: nat)
    requires Inv(b, now, limit)
    ensures var (b', granted) := Arm(b, now, at, limit);
            && Inv(b', now, limit)
            && (granted ==> b'.alarm == Some(at))
            && (!granted ==> b'.alarm == Some(HourEnd(now)))
  {
    HourBounds(now);
  }

  lemma FireKeeps(b: Budget, clock: int, now: int, limit: nat)
    requires Inv(b, clock, limit) && clock <= now
    requires b.alarm.Some? && b.alarm.value <= now
    ensures Inv(b.(alarm := None), now, limit)
  {
    HourMonotone(clock, now);
  }

  lemma {:induction false} RunKeeps(b: Budget, clock: int, events: seq<Event>, limit: nat)
    requires Inv(b, clock, limit) && Legal(b, clock, events, limit)
    ensures Inv(Run(b, events, limit), LastTime(clock, events), limit)
    decreases |events|
  {
    if events != [] {
      StepKeeps(b, clock, events[0], limit);
      RunKeeps(Step(b, events[0], limit), events[0].now, events[1..], limit);
    }
  }

  lemma StepKeeps(b: Budget, clock: int, e: Event, limit: nat)
    requires Inv(b, clock, limit) && clock <= e.now
    requires e.Fire? ==> b.alarm.Some? && b.alarm.value <= e.now
    ensures Inv(Step(b, e, limit), e.now, limit)
  {
    match e
    case Call(now, at) =>
      ClockAdvances(b, clock, now, limit);
      ArmKeeps(b, now, at, limit);
    case Fire(now) =>
      FireKeeps(b, clock, now, limit);
  }

  /** In any run from fresh storage, a refused call leaves an alarm exactly at the end of its hour. */
  lemma RefusalArmsEndOfHour(events: seq<Event>, clock: int, now: int, at: int, limit: nat)
    requires Legal(FRESH, clock, events, limit) && LastTime(clock, events) <= now
    requires !Arm(Run(FRESH, events, limit), now, at, limit).1
    ensures Arm(Run(FRESH, events, limit), now, at, limit).0.alarm == Some(HourEnd(now))
  {
    FreshInv(clock, limit);
    RunKeeps(FRESH, clock, events, limit);
    ClockAdvances(Run(FRESH, events, limit), LastTime(clock, events), now, limit);
    ArmKeeps(Run(FRESH, events, limit), now, at, limit);
  }

  /** In any run from fresh storage, at most one hour's counters are stored. */
  lemma CountersForOneHour(events: seq<Event>, clock: int, limit: nat)
    requires Legal(FRESH, clock, events, limit)
    ensures var b := Run(FRESH, events, limit);
            forall h, g :: h in b.counts.Keys + b.resumes && g in b.counts.Keys + b.resumes ==> h == g
  {
    FreshInv(clock, limit);
    RunKeeps(FRESH, clock, events, limit);
  }

  /** What an hour has already spent of its limit + 1 writes. */
  ghost function Spent(b: Budget, hour: int): nat {
    if b.currentHour == Some(hour) then Count(b, hour) + (if hour in b.resumes then 1 else 0) else 0
  }

  lemma {:induction false} SpendingBounded(b: Budget, clock: int, events: seq<Event>, hour: int, limit: nat)
    requires Inv(b, clock, limit) && Legal(b, clock, events, limit)
    ensures Spent(b, hour) + WritesIn(b, events, hour, limit) <= limit + 1
    decreases |events|
  {
    if events != [] {
      var e := events[0];
      var b' := Step(b, e, limit);
      StepKeeps(b, clock, e, limit);
      SpendingBounded(b', e.now, events[1..], hour, limit);
      HourMonotone(clock, e.now);
      if HourStart(e.now) > hour {
        WritesOnlyNow(b', e.now, events[1..], hour, limit);
      }
    }
  }

  /** Once the clock has left an hour nothing more is written in it. */
  lemma {:induction false} WritesOnlyNow(b: Budget, clock: int, events: seq<Event>, hour: int, limit: nat)
    requires Legal(b, clock, events, limit) && hour < HourStart(clock)
    ensures WritesIn(b, events, hour, limit) == 0
    decreases |events|
  {
    if events != [] {
      HourMonotone(clock, events[0].now);
      WritesOnlyNow(Step(b, events[0], limit), events[0].now, events[1..], hour, limit);
    }
  }

  /** Over any run, the alarm is written at most limit + 1 times in any clock hour. */
  lemma WritesPerHourBounded(events: seq<Event>, clock: int, hour: int, limit: nat)
    requires Legal(FRESH, clock, events, limit)
    ensures WritesIn(FRESH, events, hour, limit) <= limit + 1
  {
    FreshInv(clock, limit);
    SpendingBounded(FRESH, clock, events, hour, limit);
  }

  // ---------------------------------------------------------------- the transaction itself

  class AlarmStorage {
    var currentHour: Option<int>
    var counts: map<int, nat>
    var resumes: set<int>
    var exhausted: Option<BudgetStatus>
    var alarm: Option<int>

    function State(): Budget
      reads this
    {
      Budget(currentHour, counts, resumes, exhausted, alarm)
    }

    constructor ()
      ensures State() == FRESH
    {
      currentHour, counts, resumes, exhausted, alarm := None, map[], {}, None, None;
    }

    method BudgetedAlarm(now: int, atMs: int, limit: nat) returns (granted: bool)
      modifies this
      ensures (State(), granted) == Arm(old(State()), now, atMs, limit)
    {
      var hourStart := HourStart(now);
      var resumeAt := hourStart + HOUR_MS;
      var previousHour := currentHour;
      if previousHour != Some(hourStart) {
        if previousHour.Some? {
          counts := counts - {previousHour.value};
          resumes := resumes - {previousHour.value};
        }
        currentHour := Some(hourStart);
        exhausted := None;
      }
      var count := if hourStart in counts then counts[hourStart] else 0;
      if count >= limit {
        exhausted := Some(BudgetStatus(hourStart, resumeAt));
        if hourStart !in resumes {
          alarm := Some(resumeAt);
          resumes := resumes + {hourStart};
        }
        return false;
      }
      counts := counts[hourStart := count + 1];
      alarm := Some(atMs);
      return true;
    }

    /** The platform clears the alarm before it runs the handler. */
    method ClearAlarm()
      modifies this`alarm
      ensures State() == old(State()).(alarm := None)
    {
      alarm := None;
    }
  }
}
