/**
 * The legacy Java time of day of model/Time.java: hour and minute only, text
 * form "H:MM", and setters that refuse values out of range.
 */
module LegacyTimeModel {
  import opened Wrappers
  import opened Text

  datatype Time = Time(hour: Int32, minute: Int32)

  /** `new Time()`: midnight. */
  const MIDNIGHT: Time := Time(0, 0)

  /** The range `parse` and the setters enforce: hour 0..23, minute 0..59. */
  predicate InRange(t: Time) {
    0 <= t.hour <= 23 && 0 <= t.minute <= 59
  }

  /** `equals(obj)`: the same hour and the same minute. */
  function Equals(a: Time, b: Time): (r: bool)
    ensures r <==> a == b
  {
    a.hour == b.hour && a.minute == b.minute
  }

  /** `toString()`: `String.format("%d:%02d", hour, minute)`. */
  function ToString(t: Time): string {
    IntToString(t.hour) + ":" + Pad2(t.minute)
  }

  /**
   * `Time.parse(s)`: null is a NullPointerException. The text is cut at the first
   * ':', which may be neither the first nor the last character; both sides must be
   * decimal numbers and in range, else an IllegalArgumentException.
   */
  function Parse(s: Option<string>): (r: Result<Time>)
    ensures s.None? <==> r == Err(NullPointer)
    ensures r.Ok? ==> InRange(r.value)
    ensures s.Some? && r.Err? ==> r.error == IllegalArgument
  {
    match s
    case None => Err(NullPointer)
    case Some(text) =>
      var k := IndexOf(text, ':', 0);
      if k == -1 || k == 0 || k == |text| - 1 then Err(IllegalArgument)
      else
        match (ParseInt(text[..k]), ParseInt(text[k + 1..]))
        case (Some(h), Some(m)) =>
          if InRange(Time(h, m)) then Ok(Time(h, m)) else Err(IllegalArgument)
        case _ => Err(IllegalArgument)
  }

  /** Only the first ':' splits, so text with a second ':' ("1:2:3") is rejected. */
  lemma {:induction false} ParseRejectsSecondColon(text: string, i: nat, j: nat)
    requires i < j < |text| && text[i] == ':' && text[j] == ':'
    ensures Parse(Some(text)).Err?
  {
    var k := IndexOf(text, ':', 0);
    if k != -1 && k != 0 && k != |text| - 1 {
      assert k <= i < j;
      ParseIntRejectsNonDecimal(text[k + 1..], j - k - 1);
    }
  }

  /** No ':', ':' first, or the only ':' last: the hour or the minute is missing. */
  lemma ParseRejectsMisplacedColon(text: string)
    requires ':' !in text || text[0] == ':' || (text[|text| - 1] == ':' && ':' !in text[..|text| - 1])
    ensures Parse(Some(text)) == Err(IllegalArgument)
  {
    if ':' in text && text[0] != ':' {
      assert forall i :: 0 <= i < |text| - 1 ==> text[..|text| - 1][i] == text[i];
    }
  }

  /** Round trip: `parse(t.toString())` equals t for every time in range. */
  lemma {:induction false} ParseToString(t: Time)
    requires InRange(t)
    ensures Parse(Some(ToString(t))) == Ok(t)
  {
    var h, m := IntToString(t.hour), Pad2(t.minute);
    NotInDigits(NatToString(t.hour as nat), ':');
    ParseIntToString(t.hour);
    ParsePad2(t.minute as nat);
    IndexOfFirst(h, ':', m, 0);
    assert m != [];
  }

  /** The text form of a time in range holds no '-'. */
  lemma ToStringHasNoHyphen(t: Time)
    requires InRange(t)
    ensures '-' !in ToString(t) && |ToString(t)| > 0
  {
    NotInDigits(NatToString(t.hour as nat), '-');
    ParsePad2(t.minute as nat);
    NotInDigits(Pad2(t.minute), '-');
  }

  /** A legacy `Time` object, whose setters check their argument first. */
  class MutableTime {
    var hour: Int32
    var minute: Int32

    function Value(): Time
      reads this
    {
      Time(hour, minute)
    }

    /** `new Time()`. */
    constructor()
      ensures Value() == MIDNIGHT
    {
      hour, minute := 0, 0;
    }

    /** `new Time(hour, minute)`: takes the values as they are, unchecked. */
    constructor Of(hour: Int32, minute: Int32)
      ensures Value() == Time(hour, minute)
    {
      this.hour, this.minute := hour, minute;
    }

    /** `setHour(hour)`: out of 0..23 is an IllegalArgumentException and nothing changes. */
    method SetHour(h: Int32) returns (o: Outcome)
      modifies this
      ensures !(0 <= h <= 23) ==> o == Fail(IllegalArgument) && Value() == old(Value())
      ensures 0 <= h <= 23 ==> o == Pass && Value() == old(Value()).(hour := h)
      ensures old(InRange(Value())) ==> InRange(Value())
    {
      if h < 0 || h > 23 {
        return Fail(IllegalArgument);
      }
      hour := h;
      return Pass;
    }

    /** `setMinute(minute)`: out of 0..59 is an IllegalArgumentException and nothing changes. */
    method SetMinute(m: Int32) returns (o: Outcome)
      modifies this
      ensures !(0 <= m <= 59) ==> o == Fail(IllegalArgument) && Value() == old(Value())
      ensures 0 <= m <= 59 ==> o == Pass && Value() == old(Value()).(minute := m)
      ensures old(InRange(Value())) ==> InRange(Value())
    {
      if m < 0 || m > 59 {
        return Fail(IllegalArgument);
      }
      minute := m;
      return Pass;
    }
  }
}
