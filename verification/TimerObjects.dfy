/** Date objects changed through their setters, cycles that step them, and the timer a process schedules. */
module TimerObjects {
  import opened Wrappers
  import opened Calendar
  import opened Timer

  class DateObject {
    var time: Date

    constructor (time: Date)
      ensures this.time == time
    {
      this.time := time;
    }

    method AddToFullYear(years: int)
      modifies this
      ensures time == AddYears(old(time), years)
    {
      time := SetFullYear(time, Plus(GetFullYear(time), years));
    }

    method AddToMonth(months: int)
      modifies this
      ensures time == AddMonths(old(time), months)
    {
      time := SetMonth(time, Plus(GetMonth(time), months));
    }

    method AddToDate(days: int)
      modifies this
      ensures time == AddDays(old(time), days)
    {
      time := SetDate(time, Plus(GetDate(time), days));
    }

    method AddToHours(hours: int)
      modifies this
      ensures time == AddHours(old(time), hours)
    {
      time := SetHours(time, Plus(GetHours(time), hours));
    }

    method AddToMinutes(minutes: int)
      modifies this
      ensures time == AddMinutes(old(time), minutes)
    {
      time := SetMinutes(time, Plus(GetMinutes(time), minutes));
    }

    method AddToSeconds(seconds: int)
      modifies this
      ensures time == AddSeconds(old(time), seconds)
    {
      time := SetSeconds(time, Plus(GetSeconds(time), seconds));
    }
  }

  class CycleObject {
    const value: Cycle

    constructor (value: Cycle)
      ensures this.value == value
    {
      this.value := value;
    }

    method Start(now: int) returns (date: DateObject)
      ensures fresh(date) && date.time == StartDate(value, now)
    {
      hide AddHours, AddMinutes, MakeDay;
      if value.year != 0 {
        var month := if value.month > 0 then value.month - 1 else 0;
        date := new DateObject(TimeClip(MakeDate(MakeDay(CenturyYear(value.year), month, value.day),
                                                 MakeTime(value.hour, value.minute, value.second, 0))));
      } else {
        date := new DateObject(TimeClip(now));
      }
      var sign := if value.west then 1 else -1;
      date.AddToHours(value.offsetHours * sign);
      date.AddToMinutes(value.offsetMinutes * sign);
    }

    /** The current date is moved in place and a copy returned. */
    method NextDate(current: DateObject?, cycleCount: nat, now: int) returns (date: DateObject?)
      modifies current
      ensures (if date == null then None else Some(date.time))
           == Next(value, if current == null then None else Some(old(current.time)), cycleCount, now)
      ensures date != null ==> fresh(date)
      ensures current != null ==> current.time == if date == null then old(current.time) else date.time
    {
      if current == null {
        date := Start(now);
      } else if value.year != 0 && !value.repeat {
        date := null;
      } else if value.count != 0 && cycleCount >= value.count {
        date := null;
      } else {
        var period := value.period;
        current.AddToFullYear(period.years);
        current.AddToMonth(period.months);
        current.AddToDate(period.weeks * 7);
        current.AddToDate(period.days);
        current.AddToHours(period.hours);
        current.AddToMinutes(period.minutes);
        current.AddToSeconds(period.seconds);
        date := new DateObject(current.time);
      }
    }
  }

  /** The value of the timer expression: a point in time, a repeated cycle, or a duration from now. */
  datatype Expression = AtDate(date: Date) | InCycle(cycle: Cycle) | AfterDuration(duration: Cycle)

  /** The timer's fields after a schedule at this time. */
  function Rescheduled(e: Expression, s: State, now: int): State {
    match e
    case AtDate(date) => s.(current := Some(date))
    case InCycle(cycle) => Schedule(cycle, s, now)
    case AfterDuration(_) => s
  }

  /** The date of a schedule; it throws where there is none. */
  function DateScheduled(e: Expression, s: State, now: int): Option<int> {
    match e
    case AtDate(date) => if date.Valid? then Some(date.t) else None
    case InCycle(cycle) => Outcome(Schedule(cycle, s, now))
    case AfterDuration(duration) =>
      var count := if s.cycleCount.Some? then s.cycleCount.value else 0;
      Outcome(State(None, Next(duration, Some(TimeClip(now)), count, now)))
  }

  class ProcessTimer {
    const expression: Expression
    var cycleCount: Option<nat>
    var current: Option<Date>

    constructor (expression: Expression)
      ensures this.expression == expression && Fields() == State(None, None)
    {
      this.expression := expression;
      cycleCount, current := None, None;
    }

    ghost function Fields(): State
      reads this
    {
      State(cycleCount, current)
    }

    method GetTimerSchedule(now: int) returns (schedule: Option<int>)
      modifies this
      ensures Fields() == Rescheduled(expression, old(Fields()), now)
      ensures schedule == DateScheduled(expression, old(Fields()), now)
    {
      var date: DateObject? := null;
      match expression {
        case AtDate(value) =>
          date := new DateObject(value);
          current := Some(date.time);
        case InCycle(value) =>
          var cycle := new CycleObject(value);
          cycleCount := Some(if cycleCount.Some? then cycleCount.value + 1 else 0);
          var before: DateObject? := null;
          if current.Some? {
            before := new DateObject(current.value);
          }
          date := cycle.NextDate(before, cycleCount.value, now);
          current := if date == null then None else Some(date.time);
        case AfterDuration(value) =>
          var cycle := new CycleObject(value);
          var before := new DateObject(TimeClip(now));
          date := cycle.NextDate(before, if cycleCount.Some? then cycleCount.value else 0, now);
      }
      if date == null || date.time.Invalid? {
        return None;
      }
      return Some(date.time.t);
    }
  }

  /** A new cycle timer scheduled once at each of the given times: the calls return the outcomes the cycle has. */
  method ScheduleAll(c: Cycle, nows: seq<int>) returns (dates: seq<Option<int>>)
    ensures dates == Outcomes(c, nows)
  {
    NoCalls(c);
    hide Scheduled, Outcomes, Schedule, Outcome;
    var timer := new ProcessTimer(InCycle(c));
    dates := [];
    var i := 0;
    assert nows[..0] == [];
    while i < |nows|
      invariant i <= |nows| && timer.expression == InCycle(c)
      invariant timer.Fields() == Scheduled(c, nows[..i]) && dates == Outcomes(c, nows[..i])
    {
      OneCallMore(c, nows, i);
      var date := timer.GetTimerSchedule(nows[i]);
      dates := dates + [date];
      i := i + 1;
    }
    assert nows[..|nows|] == nows;
  }

  lemma NoCalls(c: Cycle)
    ensures Scheduled(c, []) == State(None, None) && Outcomes(c, []) == []
  {
  }

  lemma OneCallMore(c: Cycle, nows: seq<int>, i: nat)
    requires i < |nows|
    ensures Scheduled(c, nows[..i+1]) == Schedule(c, Scheduled(c, nows[..i]), nows[i])
    ensures Outcomes(c, nows[..i+1]) == Outcomes(c, nows[..i]) + [Outcome(Scheduled(c, nows[..i+1]))]
  {
    hide Schedule, Outcome;
    assert nows[..i+1][..i] == nows[..i];
    assert nows[..i+1][..i+1] == nows[..i+1];
    forall k | 0 <= k < i ensures Outcomes(c, nows[..i+1])[k] == Outcomes(c, nows[..i])[k] {
      assert nows[..i+1][..k+1] == nows[..i][..k+1];
    }
  }
}
