/**
 * The period `TimePeriod(start, end)` of model/TimePeriod.kt: two times of day,
 * both ends included, that may wrap past midnight. Text form "start-end".
 */
module TimePeriodModel {
  import opened Wrappers
  import opened Text
  import TimeModel
  import opened ClockDial

  datatype TimePeriod = TimePeriod(start: TimeModel.Time, end: TimeModel.Time)

  /** The default `TimePeriod()`: both ends at midnight. */
  const DEFAULT_PERIOD: TimePeriod := TimePeriod(TimeModel.MIDNIGHT, TimeModel.MIDNIGHT)

  /** `isValid()`: both ends are valid times. */
  predicate IsValid(p: TimePeriod) {
    TimeModel.IsValid(p.start) && TimeModel.IsValid(p.end)
  }

  /**
   * `isInPeriod(time)`: an invalid time is an IllegalArgumentException, an invalid
   * period an IllegalStateException; otherwise start == end contains only that
   * instant, start < end contains start..end, and start > end contains everything
   * from start on and everything up to end.
   */
  function IsInPeriod(p: TimePeriod, t: TimeModel.Time): (r: Result<bool>)
    ensures !TimeModel.IsValid(t) ==> r == Err(IllegalArgument)
    ensures TimeModel.IsValid(t) && !IsValid(p) ==> r == Err(IllegalState)
    ensures r.Ok? <==> TimeModel.IsValid(t) && IsValid(p)
  {
    if !TimeModel.IsValid(t) then Err(IllegalArgument)
    else if !IsValid(p) then Err(IllegalState)
    else if p.start == p.end then Ok(t == p.end)
    else if TimeModel.Less(p.start, p.end) then
      Ok(TimeModel.LessOrEqual(p.start, t) && TimeModel.LessOrEqual(t, p.end))
    else Ok(TimeModel.LessOrEqual(p.start, t) || TimeModel.LessOrEqual(t, p.end))
  }

  /** Containment is exactly "on the clockwise arc from start to end" of the 24-hour dial. */
  lemma {:induction false} IsInPeriodIsClockwiseArc(p: TimePeriod, t: TimeModel.Time)
    requires IsValid(p) && TimeModel.IsValid(t)
    ensures IsInPeriod(p, t) == Ok(OnClockwiseArc(TimeModel.SecondsOfDay(p.start), TimeModel.SecondsOfDay(p.end),
                                                  TimeModel.SecondsOfDay(t), TimeModel.DAY_SECONDS))
  {
    TimeModel.CompareIsClockOrder(p.start, p.end);
    TimeModel.CompareIsClockOrder(p.start, t);
    TimeModel.CompareIsClockOrder(t, p.end);
    TimeModel.CompareIsClockOrder(p.end, t);
    TimeModel.CompareIsClockOrder(t, p.start);
    TimeModel.CompareAntisymmetric(p.start, t);
    TimeModel.CompareAntisymmetric(t, p.end);
    ClockwiseArcCases(TimeModel.SecondsOfDay(p.start), TimeModel.SecondsOfDay(p.end),
                      TimeModel.SecondsOfDay(t), TimeModel.DAY_SECONDS);
  }

  /** Both ends always belong to a valid period. */
  lemma EndsAreInPeriod(p: TimePeriod)
    requires IsValid(p)
    ensures IsInPeriod(p, p.start) == Ok(true) && IsInPeriod(p, p.end) == Ok(true)
  {
    IsInPeriodIsClockwiseArc(p, p.start);
    IsInPeriodIsClockwiseArc(p, p.end);
  }

  /** `isInPeriod(hourOfDay, minute, second = 0)`: the same test on `Time(hourOfDay, minute, second)`. */
  function IsInPeriodAt(p: TimePeriod, hourOfDay: Int32, minute: Int32, second: Int32): (r: Result<bool>)
    ensures IsValid(p) && TimeModel.IsValid(TimeModel.Time(hourOfDay, minute, second)) ==>
              r == Ok(OnClockwiseArc(TimeModel.SecondsOfDay(p.start), TimeModel.SecondsOfDay(p.end),
                                     (hourOfDay as int) * 3600 + (minute as int) * 60 + second as int,
                                     TimeModel.DAY_SECONDS))
    ensures !TimeModel.IsValid(TimeModel.Time(hourOfDay, minute, second)) ==> r == Err(IllegalArgument)
  {
    var t := TimeModel.Time(hourOfDay, minute, second);
    if IsValid(p) && TimeModel.IsValid(t) then
      IsInPeriodIsClockwiseArc(p, t);
      IsInPeriod(p, t)
    else
      IsInPeriod(p, t)
  }

  /** `toString()`: "$start-$end". */
  function ToString(p: TimePeriod): string {
    TimeModel.ToString(p.start) + "-" + TimeModel.ToString(p.end)
  }

  /**
   * `TimePeriod.parse(s)`: split at the first '-', which may be neither the first
   * nor the last character, and parse each side with `Time.parse`.
   */
  function Parse(s: string): (r: Result<TimePeriod>)
    ensures r.Ok? ==> IsValid(r.value)
    ensures r.Err? ==> r.error == IllegalArgument
  {
    var k := IndexOf(s, '-', 0);
    if k == -1 || k == 0 || k >= |s| - 1 then Err(IllegalArgument)
    else
      match (TimeModel.Parse(s[..k]), TimeModel.Parse(s[k + 1..]))
      case (Ok(start), Ok(end)) => Ok(TimePeriod(start, end))
      case (Err(e), _) => Err(e)
      case (_, Err(e)) => Err(e)
  }

  /** No '-', '-' first, or the only '-' last: the start or the end is missing. */
  lemma ParseRejectsMissingSide(s: string)
    requires '-' !in s || s[0] == '-' || (s[|s| - 1] == '-' && '-' !in s[..|s| - 1])
    ensures Parse(s).Err?
  {
    if '-' in s && s[0] != '-' {
      assert forall i :: 0 <= i < |s| - 1 ==> s[..|s| - 1][i] == s[i];
    }
  }

  /** Round trip: the text `toString` writes parses back to the same valid period. */
  lemma {:induction false} ParseToString(p: TimePeriod)
    requires IsValid(p)
    ensures Parse(ToString(p)) == Ok(p)
  {
    var a, b := TimeModel.ToString(p.start), TimeModel.ToString(p.end);
    TimeModel.ToStringHasNoHyphen(p.start);
    TimeModel.ToStringHasNoHyphen(p.end);
    TimeModel.ParseToString(p.start);
    TimeModel.ParseToString(p.end);
    IndexOfFirst(a, '-', b, 0);
  }

  /** A `TimePeriod` object, whose `start` and `end` fields can be reassigned. */
  class MutableTimePeriod {
    var start: TimeModel.Time
    var end: TimeModel.Time

    /** The period the object currently holds. */
    function Value(): TimePeriod
      reads this
    {
      TimePeriod(start, end)
    }

    constructor(p: TimePeriod)
      ensures Value() == p
    {
      start := p.start;
      end := p.end;
    }

    /** `copyFrom(other)`: take over other's start and end; nothing else changes. */
    method CopyFrom(other: MutableTimePeriod)
      modifies this
      ensures Value() == old(other.Value())
    {
      var s, e := other.start, other.end;
      start := s;
      end := e;
    }
  }
}
