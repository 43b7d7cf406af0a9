/**
 * The legacy Java period of model/TimePeriod.java: four `int` fields (start hour,
 * start minute, end hour, end minute), text form "H:MM-H:MM", and a negative field
 * meaning "undefined".
 */
module LegacyTimePeriodModel {
  import opened Wrappers
  import opened Text
  import opened ClockDial
  import LegacyTimeModel

  datatype TimePeriod = TimePeriod(startHour: Int32, startMinute: Int32, endHour: Int32, endMinute: Int32)

  /** `new TimePeriod()`: every field 0. */
  const DEFAULT_PERIOD: TimePeriod := TimePeriod(0, 0, 0, 0)

  /** Minutes in a day: the dial the legacy containment test works on. */
  const DAY_MINUTES: int := 1440

  /** Every field within the range `parse` and the setters enforce. */
  predicate InRange(p: TimePeriod) {
    0 <= p.startHour <= 23 && 0 <= p.startMinute <= 59 && 0 <= p.endHour <= 23 && 0 <= p.endMinute <= 59
  }

  /** A negative field marks the period as undefined. */
  predicate IsUndefined(p: TimePeriod) {
    p.startHour < 0 || p.startMinute < 0 || p.endHour < 0 || p.endMinute < 0
  }

  function Start(p: TimePeriod): LegacyTimeModel.Time {
    LegacyTimeModel.Time(p.startHour, p.startMinute)
  }

  function End(p: TimePeriod): LegacyTimeModel.Time {
    LegacyTimeModel.Time(p.endHour, p.endMinute)
  }

  /** `equals(obj)`: all four fields agree. */
  function Equals(a: TimePeriod, b: TimePeriod): (r: bool)
    ensures r <==> a == b
  {
    a.startHour == b.startHour && a.startMinute == b.startMinute &&
    a.endHour == b.endHour && a.endMinute == b.endMinute
  }

  /** `toString()`: `String.format("%d:%02d-%d:%02d", startHour, startMinute, endHour, endMinute)`. */
  function ToString(p: TimePeriod): string {
    IntToString(p.startHour) + ":" + Pad2(p.startMinute) + "-" + IntToString(p.endHour) + ":" + Pad2(p.endMinute)
  }

  /**
   * `TimePeriod.parse(s)`: null is a NullPointerException; the text is cut at the
   * first '-', which may be neither the first nor the last character, and each
   * side goes through the legacy `Time.parse`.
   */
  function Parse(s: Option<string>): (r: Result<TimePeriod>)
    ensures s.None? <==> r == Err(NullPointer)
    ensures r.Ok? ==> InRange(r.value)
    ensures s.Some? && r.Err? ==> r.error == IllegalArgument
  {
    match s
    case None => Err(NullPointer)
    case Some(text) =>
      var k := IndexOf(text, '-', 0);
      if k == -1 || k == 0 || k == |text| - 1 then Err(IllegalArgument)
      else
        match (LegacyTimeModel.Parse(Some(text[..k])), LegacyTimeModel.Parse(Some(text[k + 1..])))
        case (Ok(a), Ok(b)) => Ok(TimePeriod(a.hour, a.minute, b.hour, b.minute))
        case (Err(e), _) => Err(e)
        case (_, Err(e)) => Err(e)
  }

  /** No '-', '-' first, or the only '-' last: the start or the end is missing. */
  lemma ParseRejectsMissingSide(text: string)
    requires '-' !in text || text[0] == '-' || (text[|text| - 1] == '-' && '-' !in text[..|text| - 1])
    ensures Parse(Some(text)) == Err(IllegalArgument)
  {
    if '-' in text && text[0] != '-' {
      assert forall i :: 0 <= i < |text| - 1 ==> text[..|text| - 1][i] == text[i];
    }
  }

  /** Round trip: `parse(p.toString())` equals p for every period in range. */
  lemma {:induction false} ParseToString(p: TimePeriod)
    requires InRange(p)
    ensures Parse(Some(ToString(p))) == Ok(p)
  {
    var a, b := LegacyTimeModel.ToString(Start(p)), LegacyTimeModel.ToString(End(p));
    assert ToString(p) == a + "-" + b;
    LegacyTimeModel.ToStringHasNoHyphen(Start(p));
    LegacyTimeModel.ParseToString(Start(p));
    LegacyTimeModel.ParseToString(End(p));
    IndexOfFirst(a, '-', b, 0);
  }

  /**
   * `isInPeriod(hourOfDay, minute)` exactly as written: only an hour above 23 or a
   * minute above 59 is refused; an undefined period contains nothing; the three
   * minute totals are computed in 32-bit `int` arithmetic.
   */
  function IsInPeriodAsWritten(p: TimePeriod, hourOfDay: Int32, minute: Int32): (r: Result<bool>)
    ensures r.Err? <==> hourOfDay > 23 || minute > 59
    ensures r.Err? ==> r.error == IllegalArgument
    ensures r.Ok? && IsUndefined(p) ==> !r.value
  {
    if hourOfDay > 23 || minute > 59 then Err(IllegalArgument)
    else if IsUndefined(p) then Ok(false)
    else
      var target := Wrap32(hourOfDay as int * 60 + minute as int);
      var from := Wrap32(p.startHour as int * 60 + p.startMinute as int);
      var to := Wrap32(p.endHour as int * 60 + p.endMinute as int);
      if from <= to then Ok(from <= target && target <= to)
      else Ok(from <= target || target <= to)
  }

  /** On a defined period and a time of day in range, the code as written tests the clockwise arc. */
  lemma {:induction false} IsInPeriodAsWrittenIsClockwiseArc(p: TimePeriod, hourOfDay: Int32, minute: Int32)
    requires InRange(p) && 0 <= hourOfDay <= 23 && 0 <= minute <= 59
    ensures IsInPeriodAsWritten(p, hourOfDay, minute) ==
            Ok(OnClockwiseArc(p.startHour * 60 + p.startMinute, p.endHour * 60 + p.endMinute,
                              hourOfDay * 60 + minute, DAY_MINUTES))
  {
    ClockwiseArcCases(p.startHour * 60 + p.startMinute, p.endHour * 60 + p.endMinute,
                      hourOfDay * 60 + minute, DAY_MINUTES);
  }

  /**
   * The documented "undefined" time (-1, -1) is reported inside 22:00-6:00,
   * although the documentation promises false for an undefined time.
   */
  lemma UndefinedTimeInsideWrappingPeriod()
    ensures IsInPeriodAsWritten(TimePeriod(22, 0, 6, 0), -1, -1) == Ok(true)
  {
    assert Wrap32(-1 * 60 + -1) == -61;
  }

  /**
   * `isInPeriod(hourOfDay, minute)` as documented: an hour above 23 or a minute
   * above 59 is still an IllegalArgumentException, and an undefined period or an
   * undefined (negative) hour or minute is never in the period.
   */
  function IsInPeriod(p: TimePeriod, hourOfDay: Int32, minute: Int32): (r: Result<bool>)
    ensures r.Err? <==> hourOfDay > 23 || minute > 59
    ensures r.Err? ==> r.error == IllegalArgument
    ensures r.Ok? && (IsUndefined(p) || hourOfDay < 0 || minute < 0) ==> !r.value
    ensures InRange(p) && hourOfDay <= 23 && minute <= 59 ==>
              r == Ok(0 <= hourOfDay && 0 <= minute &&
                      OnClockwiseArc(p.startHour * 60 + p.startMinute, p.endHour * 60 + p.endMinute,
                                     hourOfDay * 60 + minute, DAY_MINUTES))
  {
    if hourOfDay > 23 || minute > 59 then Err(IllegalArgument)
    else if IsUndefined(p) || hourOfDay < 0 || minute < 0 then Ok(false)
    else if InRange(p) then
      IsInPeriodAsWrittenIsClockwiseArc(p, hourOfDay, minute);
      IsInPeriodAsWritten(p, hourOfDay, minute)
    else IsInPeriodAsWritten(p, hourOfDay, minute)
  }

  /** The corrected test agrees with the code as written wherever the time of day is not undefined. */
  lemma CorrectionOnlyAffectsUndefinedTimes(p: TimePeriod, hourOfDay: Int32, minute: Int32)
    requires 0 <= hourOfDay && 0 <= minute
    ensures IsInPeriod(p, hourOfDay, minute) == IsInPeriodAsWritten(p, hourOfDay, minute)
  {
  }

  /** A legacy `TimePeriod` object: four fields, range-checked setters and `copyFrom`. */
  class MutableTimePeriod {
    var startHour: Int32
    var startMinute: Int32
    var endHour: Int32
    var endMinute: Int32

    function Value(): TimePeriod
      reads this
    {
      TimePeriod(startHour, startMinute, endHour, endMinute)
    }

    /** `new TimePeriod()`. */
    constructor()
      ensures Value() == DEFAULT_PERIOD
    {
      startHour, startMinute, endHour, endMinute := 0, 0, 0, 0;
    }

    /** `setStartHour(v)`: out of 0..23 is an IllegalArgumentException and nothing changes. */
    method SetStartHour(v: Int32) returns (o: Outcome)
      modifies this
      ensures !(0 <= v <= 23) ==> o == Fail(IllegalArgument) && Value() == old(Value())
      ensures 0 <= v <= 23 ==> o == Pass && Value() == old(Value()).(startHour := v)
      ensures old(InRange(Value())) ==> InRange(Value())
    {
      if v < 0 || v > 23 {
        return Fail(IllegalArgument);
      }
      startHour := v;
      return Pass;
    }

    /** `setStartMinute(v)`: out of 0..59 is an IllegalArgumentException and nothing changes. */
    method SetStartMinute(v: Int32) returns (o: Outcome)
      modifies this
      ensures !(0 <= v <= 59) ==> o == Fail(IllegalArgument) && Value() == old(Value())
      ensures 0 <= v <= 59 ==> o == Pass && Value() == old(Value()).(startMinute := v)
      ensures old(InRange(Value())) ==> InRange(Value())
    {
      if v < 0 || v > 59 {
        return Fail(IllegalArgument);
      }
      startMinute := v;
      return Pass;
    }

    /** `setEndHour(v)`: out of 0..23 is an IllegalArgumentException and nothing changes. */
    method SetEndHour(v: Int32) returns (o: Outcome)
      modifies this
      ensures !(0 <= v <= 23) ==> o == Fail(IllegalArgument) && Value() == old(Value())
      ensures 0 <= v <= 23 ==> o == Pass && Value() == old(Value()).(endHour := v)
      ensures old(InRange(Value())) ==> InRange(Value())
    {
      if v < 0 || v > 23 {
        return Fail(IllegalArgument);
      }
      endHour := v;
      return Pass;
    }

    /** `setEndMinute(v)`: out of 0..59 is an IllegalArgumentException and nothing changes. */
    method SetEndMinute(v: Int32) returns (o: Outcome)
      modifies this
      ensures !(0 <= v <= 59) ==> o == Fail(IllegalArgument) && Value() == old(Value())
      ensures 0 <= v <= 59 ==> o == Pass && Value() == old(Value()).(endMinute := v)
      ensures old(InRange(Value())) ==> InRange(Value())
    {
      if v < 0 || v > 59 {
        return Fail(IllegalArgument);
      }
      endMinute := v;
      return Pass;
    }

    /** `copyFrom(source)`: null is an IllegalArgumentException; otherwise all four fields are copied. */
    method CopyFrom(source: MutableTimePeriod?) returns (o: Outcome)
      modifies this
      ensures source == null ==> o == Fail(IllegalArgument) && Value() == old(Value())
      ensures source != null ==> o == Pass && Value() == old(source.Value())
    {
      if source == null {
        return Fail(IllegalArgument);
      }
      var v := source.Value();
      startHour, startMinute, endHour, endMinute := v.startHour, v.startMinute, v.endHour, v.endMinute;
      return Pass;
    }
  }
}
