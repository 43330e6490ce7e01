/** Timer cycles and the scheduling of a process timer. Dates are those of the language the source runs on, in UTC,
    and every period component is a whole number. */
module Timer {
  import opened Wrappers
  import opened Division
  import opened Calendar

  /** A date object's time value; out of range it is invalid and stays so. */
  datatype Date = Valid(t: int) | Invalid

  function TimeClip(t: int): Date { if -MAX_TIME <= t <= MAX_TIME then Valid(t) else Invalid }

  function Day(t: int): int { t / MS_PER_DAY }

  function MakeTime(hour: int, minute: int, second: int, ms: int): int {
    hour * MS_PER_HOUR + minute * MS_PER_MINUTE + second * MS_PER_SECOND + ms
  }

  function HourOf(t: int): int { t / MS_PER_HOUR % 24 }
  function MinuteOf(t: int): int { t / MS_PER_MINUTE % 60 }
  function SecondOf(t: int): int { t / MS_PER_SECOND % 60 }
  function MsOf(t: int): int { t % MS_PER_SECOND }

  function MakeDate(day: int, time: int): int { day * MS_PER_DAY + time }

  // ---- getters and setters; no number comes out of an invalid date ----

  function GetFullYear(d: Date): Option<int> { if d.Valid? then Some(YearFromDay(Day(d.t))) else None }
  function GetMonth(d: Date): Option<int> { if d.Valid? then Some(MonthFromDay(Day(d.t))) else None }
  function GetDate(d: Date): Option<int> { if d.Valid? then Some(DateFromDay(Day(d.t))) else None }
  function GetHours(d: Date): Option<int> { if d.Valid? then Some(HourOf(d.t)) else None }
  function GetMinutes(d: Date): Option<int> { if d.Valid? then Some(MinuteOf(d.t)) else None }
  function GetSeconds(d: Date): Option<int> { if d.Valid? then Some(SecondOf(d.t)) else None }

  function Plus(n: Option<int>, k: int): Option<int> { if n.Some? then Some(n.value + k) else None }

  /** The one setter that revives an invalid date. */
  function SetFullYear(d: Date, y: Option<int>): Date {
    if y.None? then Invalid else
    var t := if d.Valid? then d.t else 0;
    TimeClip(MakeDate(MakeDay(y.value, MonthFromDay(Day(t)), DateFromDay(Day(t))), t % MS_PER_DAY))
  }

  function SetMonth(d: Date, m: Option<int>): Date {
    if d.Invalid? || m.None? then Invalid
    else TimeClip(MakeDate(MakeDay(YearFromDay(Day(d.t)), m.value, DateFromDay(Day(d.t))), d.t % MS_PER_DAY))
  }

  function SetDate(d: Date, date: Option<int>): Date {
    if d.Invalid? || date.None? then Invalid
    else TimeClip(MakeDate(MakeDay(YearFromDay(Day(d.t)), MonthFromDay(Day(d.t)), date.value), d.t % MS_PER_DAY))
  }

  function SetHours(d: Date, hour: Option<int>): Date {
    if d.Invalid? || hour.None? then Invalid
    else TimeClip(MakeDate(Day(d.t), MakeTime(hour.value, MinuteOf(d.t), SecondOf(d.t), MsOf(d.t))))
  }

  function SetMinutes(d: Date, minute: Option<int>): Date {
    if d.Invalid? || minute.None? then Invalid
    else TimeClip(MakeDate(Day(d.t), MakeTime(HourOf(d.t), minute.value, SecondOf(d.t), MsOf(d.t))))
  }

  function SetSeconds(d: Date, second: Option<int>): Date {
    if d.Invalid? || second.None? then Invalid
    else TimeClip(MakeDate(Day(d.t), MakeTime(HourOf(d.t), MinuteOf(d.t), second.value, MsOf(d.t))))
  }

  function AddYears(d: Date, k: int): Date { SetFullYear(d, Plus(GetFullYear(d), k)) }
  function AddMonths(d: Date, k: int): Date { SetMonth(d, Plus(GetMonth(d), k)) }
  function AddDays(d: Date, k: int): Date { SetDate(d, Plus(GetDate(d), k)) }
  function AddHours(d: Date, k: int): Date { SetHours(d, Plus(GetHours(d), k)) }
  function AddMinutes(d: Date, k: int): Date { SetMinutes(d, Plus(GetMinutes(d), k)) }
  function AddSeconds(d: Date, k: int): Date { SetSeconds(d, Plus(GetSeconds(d), k)) }

  // ---- cycles ----

  datatype Period = Period(years: nat, months: nat, weeks: nat, days: nat, hours: nat, minutes: nat, seconds: nat)

  /** What is parsed from the cycle expression; 0 where a number is missing, which the code does not tell apart. */
  datatype Cycle = Cycle(repeat: bool, count: nat,
                         year: nat, month: nat, day: nat, hour: nat, minute: nat, second: nat,
                         west: bool, offsetHours: nat, offsetMinutes: nat, period: Period)

  /** The date the cycle starts with; without a year it is the current one. */
  function StartDate(c: Cycle, now: int): Date {
    var date :=
      if c.year == 0 then TimeClip(now) else
      // two-digit years belong to the 20th century
      TimeClip(MakeDate(MakeDay(CenturyYear(c.year), if c.month > 0 then c.month - 1 else 0, c.day),
        MakeTime(c.hour, c.minute, c.second, 0)));
    var sign := if c.west then 1 else -1;
    AddMinutes(AddHours(date, c.offsetHours * sign), c.offsetMinutes * sign)
  }

  /** The date one period on. */
  function Advance(p: Period, current: Date): Date {
    var days := AddDays(AddDays(AddMonths(AddYears(current, p.years), p.months), p.weeks * 7), p.days);
    AddSeconds(AddMinutes(AddHours(days, p.hours), p.minutes), p.seconds)
  }

  function Next(c: Cycle, current: Option<Date>, cycleCount: nat, now: int): Option<Date> {
    if current.None? then Some(StartDate(c, now))
    else if c.year != 0 && !c.repeat then None
    else if c.count != 0 && cycleCount >= c.count then None
    else Some(Advance(c.period, current.value))
  }

  // ---- scheduling a cycle timer ----

  /** The fields of the timer that scheduling changes; a new timer has neither. */
  datatype State = State(cycleCount: Option<nat>, current: Option<Date>)

  function Schedule(c: Cycle, s: State, now: int): State {
    var count := if s.cycleCount.Some? then s.cycleCount.value + 1 else 0;
    State(Some(count), Next(c, s.current, count, now))
  }

  /** The date a call returns; it throws where there is none to print. */
  function Outcome(s: State): Option<int> {
    if s.current.Some? && s.current.value.Valid? then Some(s.current.value.t) else None
  }

  /** The timer after one call at each of the given times. */
  function Scheduled(c: Cycle, nows: seq<int>): State {
    if nows == [] then State(None, None) else Schedule(c, Scheduled(c, nows[..|nows|-1]), nows[|nows|-1])
  }

  function Iterate(p: Period, start: Date, k: nat): Date {
    if k == 0 then start else Advance(p, Iterate(p, start, k - 1))
  }

  // ---- what the setters do ----

  function MonthIndex(day: int): int { 12 * YearFromDay(day) + MonthFromDay(day) }

  /** The day the same number of days into the month k months on. */
  function MonthsOn(t: int, k: int): int {
    t + (FirstDay(MonthIndex(Day(t)) + k) - FirstDay(MonthIndex(Day(t)))) * MS_PER_DAY
  }

  lemma MakeDayMonthsOn(day: int, k: int)
    ensures MakeDay(YearFromDay(day), MonthFromDay(day) + k, DateFromDay(day))
      == day + FirstDay(MonthIndex(day) + k) - FirstDay(MonthIndex(day))
    ensures MakeDay(YearFromDay(day), MonthFromDay(day), DateFromDay(day) + k) == day + k
  {
    hide YearFromDay, MonthFromDay, FirstDay;
    DayIsItsDate(day);
    assert 12 * YearFromDay(day) + (MonthFromDay(day) + k) == MonthIndex(day) + k;
  }

  lemma DaySplits(t: int)
    ensures MakeDate(Day(t), t % MS_PER_DAY) == t
    ensures MakeTime(HourOf(t), MinuteOf(t), SecondOf(t), MsOf(t)) == t % MS_PER_DAY
  {
    var seconds := t / MS_PER_SECOND;
    var minutes := seconds / 60;
    var hours := minutes / 60;
    Quotient(t, MS_PER_MINUTE, minutes, seconds % 60 * MS_PER_SECOND + MsOf(t));
    Quotient(t, MS_PER_HOUR, hours, minutes % 60 * MS_PER_MINUTE + seconds % 60 * MS_PER_SECOND + MsOf(t));
    Quotient(t, MS_PER_DAY, hours / 24, MakeTime(hours % 24, minutes % 60, seconds % 60, MsOf(t)));
  }

  lemma YearAdds(t: int, k: int)
    ensures AddYears(Valid(t), k) == TimeClip(MonthsOn(t, 12 * k))
  {
    hide YearFromDay, MonthFromDay, DateFromDay, FirstDay;
    MakeDayMonthsOn(Day(t), 12 * k);
    assert MakeDay(YearFromDay(Day(t)) + k, MonthFromDay(Day(t)), DateFromDay(Day(t)))
      == MakeDay(YearFromDay(Day(t)), MonthFromDay(Day(t)) + 12 * k, DateFromDay(Day(t))) by {
      assert 12 * (YearFromDay(Day(t)) + k) + MonthFromDay(Day(t))
        == 12 * YearFromDay(Day(t)) + (MonthFromDay(Day(t)) + 12 * k);
    }
    DaySplits(t);
  }

  lemma MonthAdds(t: int, k: int)
    ensures AddMonths(Valid(t), k) == TimeClip(MonthsOn(t, k))
  {
    hide YearFromDay, MonthFromDay, DateFromDay, FirstDay;
    MakeDayMonthsOn(Day(t), k);
    DaySplits(t);
  }

  /** From days down, adding to a field adds that much time, whatever carries over. */
  lemma TimeAdds(t: int, k: int)
    ensures AddDays(Valid(t), k) == TimeClip(t + k * MS_PER_DAY)
    ensures AddHours(Valid(t), k) == TimeClip(t + k * MS_PER_HOUR)
    ensures AddMinutes(Valid(t), k) == TimeClip(t + k * MS_PER_MINUTE)
    ensures AddSeconds(Valid(t), k) == TimeClip(t + k * MS_PER_SECOND)
  {
    hide YearFromDay, MonthFromDay, DateFromDay, MakeDay;
    MakeDayMonthsOn(Day(t), k);
    DaySplits(t);
    hide Day, HourOf, MinuteOf, SecondOf, MsOf;
  }

  // ---- one period on ----

  /** The time from a date to the one a period later; the months go first, then the rest. */
  function Later(p: Period, t: int): int {
    MonthsOn(MonthsOn(t, 12 * p.years), p.months)
    + (p.weeks * 7 + p.days) * MS_PER_DAY + p.hours * MS_PER_HOUR + p.minutes * MS_PER_MINUTE
      + p.seconds * MS_PER_SECOND
  }

  predicate Positive(p: Period) {
    p.years > 0 || p.months > 0 || p.weeks > 0 || p.days > 0 || p.hours > 0 || p.minutes > 0 || p.seconds > 0
  }

  /** No period is longer than this: no month has more than 31 days. */
  function Longest(p: Period): int {
    (31 * (12 * p.years + p.months) + p.weeks * 7 + p.days) * MS_PER_DAY
    + p.hours * MS_PER_HOUR + p.minutes * MS_PER_MINUTE + p.seconds * MS_PER_SECOND
  }

  lemma MonthsOnBounds(t: int, k: nat)
    ensures t + 28 * k * MS_PER_DAY <= MonthsOn(t, k) <= t + 31 * k * MS_PER_DAY
  {
    MonthsGrow(MonthIndex(Day(t)), k);
    hide FirstDay, MonthIndex;
  }

  lemma LaterBounds(p: Period, t: int)
    ensures t <= Later(p, t) <= t + Longest(p)
    ensures Positive(p) ==> t < Later(p, t)
  {
    hide MonthsOn;
    MonthsOnBounds(t, 12 * p.years);
    MonthsOnBounds(MonthsOn(t, 12 * p.years), p.months);
  }

  lemma Clipped(t: int)
    ensures TimeClip(t) == if -MAX_TIME <= t <= MAX_TIME then Valid(t) else Invalid
  {
  }

  lemma InvalidStays(k: int)
    ensures AddYears(Invalid, k).Invalid? && AddMonths(Invalid, k).Invalid? && AddDays(Invalid, k).Invalid?
    ensures AddHours(Invalid, k).Invalid? && AddMinutes(Invalid, k).Invalid? && AddSeconds(Invalid, k).Invalid?
  {
  }

  /** Adding whole months, whether or not the date is in range. */
  lemma MonthsAdd(t: int, k: nat)
    requires -MAX_TIME <= t
    ensures AddYears(TimeClip(t), k) == TimeClip(MonthsOn(t, 12 * k))
    ensures AddMonths(TimeClip(t), k) == TimeClip(MonthsOn(t, k))
  {
    MonthsOnBounds(t, k);
    MonthsOnBounds(t, 12 * k);
    if t <= MAX_TIME {
      hide AddYears, AddMonths, MonthsOn;
      YearAdds(t, k);
      MonthAdds(t, k);
    } else {
      InvalidStays(k);
      hide AddYears, AddMonths, MonthsOn;
    }
  }

  /** Adding days and time, whether or not the date is in range. */
  lemma StepAdds(t: int, k: nat)
    requires -MAX_TIME <= t
    ensures AddDays(TimeClip(t), k) == TimeClip(t + k * MS_PER_DAY)
    ensures AddHours(TimeClip(t), k) == TimeClip(t + k * MS_PER_HOUR)
    ensures AddMinutes(TimeClip(t), k) == TimeClip(t + k * MS_PER_MINUTE)
    ensures AddSeconds(TimeClip(t), k) == TimeClip(t + k * MS_PER_SECOND)
  {
    if t <= MAX_TIME {
      TimeAdds(t, k);
      hide AddDays, AddHours, AddMinutes, AddSeconds;
    } else {
      InvalidStays(k);
      hide AddDays, AddHours, AddMinutes, AddSeconds;
    }
  }

  lemma DaysAdd(p: Period, t: int)
    requires -MAX_TIME <= t
    ensures var t2 := MonthsOn(MonthsOn(t, 12 * p.years), p.months);
      && AddDays(AddDays(AddMonths(AddYears(TimeClip(t), p.years), p.months), p.weeks * 7), p.days)
           == TimeClip(t2 + (p.weeks * 7 + p.days) * MS_PER_DAY)
      && t <= t2
  {
    hide AddYears, AddMonths, AddDays, AddHours, AddMinutes, AddSeconds, MonthsOn, TimeClip;
    MonthsAdd(t, p.years);
    MonthsOnBounds(t, 12 * p.years);
    var t1 := MonthsOn(t, 12 * p.years);
    MonthsAdd(t1, p.months);
    MonthsOnBounds(t1, p.months);
    var t2 := MonthsOn(t1, p.months);
    StepAdds(t2, p.weeks * 7);
    StepAdds(t2 + p.weeks * 7 * MS_PER_DAY, p.days);
  }

  lemma TimesAdd(t: int, hours: nat, minutes: nat, seconds: nat)
    requires -MAX_TIME <= t
    ensures AddSeconds(AddMinutes(AddHours(TimeClip(t), hours), minutes), seconds)
         == TimeClip(t + hours * MS_PER_HOUR + minutes * MS_PER_MINUTE + seconds * MS_PER_SECOND)
  {
    hide AddDays, AddHours, AddMinutes, AddSeconds, TimeClip;
    StepAdds(t, hours);
    StepAdds(t + hours * MS_PER_HOUR, minutes);
    StepAdds(t + hours * MS_PER_HOUR + minutes * MS_PER_MINUTE, seconds);
  }

  /** The seven setters together move a date to the one a period later, and out of range for good. */
  lemma AdvanceIsLater(p: Period, t: int)
    requires -MAX_TIME <= t
    ensures Advance(p, TimeClip(t)) == TimeClip(Later(p, t))
  {
    hide AddYears, AddMonths, AddDays, AddHours, AddMinutes, AddSeconds, MonthsOn, TimeClip;
    DaysAdd(p, t);
    TimesAdd(MonthsOn(MonthsOn(t, 12 * p.years), p.months) + (p.weeks * 7 + p.days) * MS_PER_DAY, p.hours, p.minutes,
      p.seconds);
  }

  // ---- the start ----

  /** The year a four-digit group stands for. */
  function CenturyYear(year: nat): nat { if year <= 99 then 1900 + year else year }

  /** What the pattern of the cycle expression lets through; the month may be missing. */
  predicate Parsed(c: Cycle) {
    && 1 <= c.year <= 9999 && c.month <= 12 && 1 <= c.day <= 31
    && c.hour <= 23 && c.minute <= 59 && c.second <= 59 && c.offsetHours <= 23 && c.offsetMinutes <= 59
  }

  lemma CenturyInRange(y: int, m: int, date: int)
    requires 100 <= y <= 9999 && 0 <= m < 12 && 1 <= date <= 31
    ensures -1000000 <= MakeDay(y, m, date) <= 3000000
  {
    FirstDayOf(y, m);
    hide FirstDay, IsLeap;
  }

  /** A cycle with a start date starts at that civil time less its offset from UTC, whatever the time now. */
  lemma StartIsCivilTime(c: Cycle, now: int)
    requires Parsed(c)
    ensures StartDate(c, now) == Valid(
      MakeDate(MakeDay(CenturyYear(c.year), if c.month > 0 then c.month - 1 else 0, c.day),
        MakeTime(c.hour, c.minute, c.second, 0))
      + (if c.west then 1 else -1) * (c.offsetHours * MS_PER_HOUR + c.offsetMinutes * MS_PER_MINUTE))
  {
    var m := if c.month > 0 then c.month - 1 else 0;
    CenturyInRange(CenturyYear(c.year), m, c.day);
    var day := MakeDay(CenturyYear(c.year), m, c.day);
    var time := MakeTime(c.hour, c.minute, c.second, 0);
    assert 0 <= time < MS_PER_DAY;
    hide AddHours, AddMinutes, MakeDay, MakeTime;
    var sign := if c.west then 1 else -1;
    assert -23 <= c.offsetHours * sign <= 23 && -59 <= c.offsetMinutes * sign <= 59;
    OffsetAdds(MakeDate(day, time), c.offsetHours * sign, c.offsetMinutes * sign);
  }

  lemma OffsetAdds(t: int, hours: int, minutes: int)
    requires -1000000 * MS_PER_DAY <= t <= 3000001 * MS_PER_DAY && -23 <= hours <= 23 && -59 <= minutes <= 59
    ensures TimeClip(t) == Valid(t)
    ensures AddMinutes(AddHours(Valid(t), hours), minutes) == Valid(t + hours * MS_PER_HOUR + minutes * MS_PER_MINUTE)
  {
    TimeAdds(t, hours);
    TimeAdds(t + hours * MS_PER_HOUR, minutes);
    hide AddDays, AddHours, AddMinutes, AddSeconds;
  }

  // ---- a cycle scheduled again and again ----

  /** The instant k periods after another. */
  function Instant(p: Period, t: int, k: nat): int { if k == 0 then t else Later(p, Instant(p, t, k - 1)) }

  lemma {:induction false} InstantsGrow(p: Period, t: int, j: nat, k: nat)
    requires j <= k
    ensures Instant(p, t, j) <= Instant(p, t, k) <= Instant(p, t, j) + (k - j) * Longest(p)
    ensures Positive(p) && j < k ==> Instant(p, t, j) < Instant(p, t, k)
  {
    hide Later, Longest, Positive;
    if j < k {
      InstantsGrow(p, t, j, k - 1);
      LaterBounds(p, Instant(p, t, k - 1));
      assert (k - j) * Longest(p) == (k - 1 - j) * Longest(p) + Longest(p);
    }
  }

  /** The limit of a cycle on the number of its dates, 0 for none: a date without repetition comes once. */
  function Limit(c: Cycle): nat { if c.year != 0 && !c.repeat then 1 else c.count }

  /** The timer after k + 1 calls, as long as the cycle is not at its end. */
  lemma {:induction false} ScheduledAt(c: Cycle, start: int, nows: seq<int>)
    requires nows != [] && StartDate(c, nows[0]) == Valid(start)
    requires Limit(c) == 0 || |nows| <= Limit(c)
    requires -MAX_TIME <= start <= MAX_TIME
    ensures Scheduled(c, nows) == State(Some(|nows| - 1), Some(TimeClip(Instant(c.period, start, |nows| - 1))))
  {
    hide StartDate, Advance, Later;
    var k := |nows| - 1;
    if k == 0 {
      assert nows[..k] == [];
      Clipped(start);
    } else {
      ScheduledAt(c, start, nows[..k]);
      InstantsGrow(c.period, start, 0, k - 1);
      AdvanceIsLater(c.period, Instant(c.period, start, k - 1));
    }
  }

  /** Past its end the timer alternates: the call fails and forgets the date, so the next call starts over. */
  lemma {:induction false} ScheduledPast(c: Cycle, start: int, nows: seq<int>)
    requires nows != [] && StartDate(c, nows[0]) == Valid(start) && -MAX_TIME <= start <= MAX_TIME
    requires 0 < Limit(c) < |nows|
    ensures Scheduled(c, nows) ==
      State(Some(|nows| - 1), if (|nows| - 1 - Limit(c)) % 2 == 0 then None else Some(StartDate(c, nows[|nows|-1])))
  {
    hide StartDate, Advance, Later;
    var k := |nows| - 1;
    if k == Limit(c) {
      ScheduledAt(c, start, nows[..k]);
    } else {
      ScheduledPast(c, start, nows[..k]);
    }
  }

  /** What call k returns, for every call: the date k periods after the start before the end is reached, if that is
      in range; from then on nothing and the start in turn. */
  lemma OutcomeOfCall(c: Cycle, start: int, nows: seq<int>)
    requires nows != [] && StartDate(c, nows[0]) == Valid(start) && -MAX_TIME <= start <= MAX_TIME
    ensures var k := |nows| - 1;
      Outcome(Scheduled(c, nows)) ==
      if Limit(c) == 0 || k < Limit(c) then
        var t := Instant(c.period, start, k); if t <= MAX_TIME then Some(t) else None
      else if (k - Limit(c)) % 2 == 0 then None
      else var again := StartDate(c, nows[k]); if again.Valid? then Some(again.t) else None
  {
    hide StartDate, Scheduled, Later;
    var k := |nows| - 1;
    if Limit(c) == 0 || k < Limit(c) {
      ScheduledAt(c, start, nows);
      InstantsGrow(c.period, start, 0, k);
    } else {
      ScheduledPast(c, start, nows);
    }
  }

  /** The dates of all calls. */
  function Outcomes(c: Cycle, nows: seq<int>): seq<Option<int>> {
    seq(|nows|, k requires 0 <= k < |nows| => Outcome(Scheduled(c, nows[..k+1])))
  }

  /** A cycle with n dates and a positive period: the first n calls return strictly growing dates and the next one
      fails exactly if the last of the n dates is in range. */
  lemma CycleYieldsItsCount(c: Cycle, start: int, nows: seq<int>)
    requires Limit(c) >= 1 && |nows| == Limit(c) + 1 && Positive(c.period)
    requires StartDate(c, nows[0]) == Valid(start) && -MAX_TIME <= start <= MAX_TIME
    ensures var dates := Outcomes(c, nows);
      && (forall k :: 0 <= k < Limit(c) ==> dates[k].Some?)
      && (forall j, k :: 0 <= j < k < Limit(c) ==> dates[j].value < dates[k].value)
      && dates[Limit(c)].None?
      <==> Instant(c.period, start, Limit(c) - 1) <= MAX_TIME
  {
    hide StartDate, Scheduled, Outcome, Later, Longest, Positive, Limit;
    var n := Limit(c);
    var dates := Outcomes(c, nows);
    forall k | 0 <= k < n
      ensures dates[k] == var t := Instant(c.period, start, k); if t <= MAX_TIME then Some(t) else None
      ensures Instant(c.period, start, k) <= Instant(c.period, start, n - 1)
    {
      OutcomeOfCall(c, start, nows[..k+1]);
      InstantsGrow(c.period, start, k, n - 1);
    }
    OutcomeOfCall(c, start, nows[..n+1]);
    forall j, k | 0 <= j < k < n ensures Instant(c.period, start, j) < Instant(c.period, start, k) {
      InstantsGrow(c.period, start, j, k);
    }
  }
}
