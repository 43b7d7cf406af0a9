/**
 * The time-of-day value `Time(hour, minute, second)` of model/Time.kt:
 * its validity rule, its ordering, its "H:MM:SS" text form and the parser
 * that accepts "H:MM" and "H:MM:SS".
 */
module TimeModel {
  import opened Wrappers
  import opened Text

  datatype Time = Time(hour: Int32, minute: Int32, second: Int32)

  /** The default `Time()`: midnight. */
  const MIDNIGHT: Time := Time(0, 0, 0)

  /** Seconds in a day: the period of the circular clock. */
  const DAY_SECONDS: int := 86400

  /** `isValid()`: hour 0..23, minute and second 0..59. */
  predicate IsValid(t: Time) {
    0 <= t.hour <= 23 && 0 <= t.minute <= 59 && 0 <= t.second <= 59
  }

  /** Seconds since midnight: an independent description of a time's place in the day. */
  function SecondsOfDay(t: Time): int {
    (t.hour as int) * 3600 + (t.minute as int) * 60 + (t.second as int)
  }

  /** `Int.compareTo`: the sign of a - b. */
  function CompareInt(a: int, b: int): (r: int)
    ensures -1 <= r <= 1
    ensures r < 0 <==> a < b
    ensures r == 0 <==> a == b
  {
    if a < b then -1 else if a == b then 0 else 1
  }

  /** `compareTo`: hour first, then minute, then second. */
  function Compare(a: Time, b: Time): (r: int)
    ensures -1 <= r <= 1
    ensures r == 0 <==> a == b
    ensures r < 0 <==> (a.hour, a.minute, a.second) != (b.hour, b.minute, b.second) &&
                        (a.hour < b.hour ||
                         (a.hour == b.hour && (a.minute < b.minute ||
                                               (a.minute == b.minute && a.second < b.second))))
  {
    var h := CompareInt(a.hour, b.hour);
    if h != 0 then h
    else
      var m := CompareInt(a.minute, b.minute);
      if m != 0 then m else CompareInt(a.second, b.second)
  }

  predicate Less(a: Time, b: Time) {
    Compare(a, b) < 0
  }

  predicate LessOrEqual(a: Time, b: Time) {
    Compare(a, b) <= 0
  }

  /** `compareTo` is antisymmetric: swapping the operands flips the sign. */
  lemma CompareAntisymmetric(a: Time, b: Time)
    ensures Compare(b, a) == -Compare(a, b)
  {
  }

  /** `compareTo` is transitive. */
  lemma LessTransitive(a: Time, b: Time, c: Time)
    requires Less(a, b) && Less(b, c)
    ensures Less(a, c)
  {
  }

  /** On valid times, `compareTo` orders times as they fall in the day. */
  lemma {:induction false} CompareIsClockOrder(a: Time, b: Time)
    requires IsValid(a) && IsValid(b)
    ensures Less(a, b) <==> SecondsOfDay(a) < SecondsOfDay(b)
    ensures a == b <==> SecondsOfDay(a) == SecondsOfDay(b)
  {
    var sa, sb := SecondsOfDay(a), SecondsOfDay(b);
    if a.hour < b.hour {
      assert sa < (a.hour as int + 1) * 3600 <= sb;
    } else if a.hour > b.hour {
      assert sb < (b.hour as int + 1) * 3600 <= sa;
    } else if a.minute < b.minute {
      assert sa - (a.hour as int) * 3600 < (a.minute as int + 1) * 60 <= sb - (b.hour as int) * 3600;
    } else if a.minute > b.minute {
      assert sb - (b.hour as int) * 3600 < (b.minute as int + 1) * 60 <= sa - (a.hour as int) * 3600;
    }
  }

  /** `toString()`: `String.format("%d:%02d:%02d", hour, minute, second)`. */
  function ToString(t: Time): string {
    IntToString(t.hour) + ":" + Pad2(t.minute) + ":" + Pad2(t.second)
  }

  /**
   * `Time.parse(s)`. The hour runs up to the first ':'. The minute runs up to the
   * second ':' or the end. The second is whatever follows the second ':', and is
   * 0 when that is absent or empty. Every failure is an IllegalArgumentException.
   */
  function Parse(s: string): (r: Result<Time>)
    ensures r.Ok? ==> IsValid(r.value)
    ensures r.Err? ==> r.error == IllegalArgument
  {
    var p1 := IndexOf(s, ':', 0);
    if p1 == -1 || p1 == 0 || p1 >= |s| - 1 then Err(IllegalArgument)
    else
      var p2 := IndexOf(s, ':', p1 + 1);
      var hasSecond := p2 != -1 && p2 < |s| - 1;
      var hourText := s[..p1];
      var minuteText := if p2 != -1 then s[p1 + 1..p2] else s[p1 + 1..];
      var secondValue := if hasSecond then ParseInt(s[p2 + 1..]) else Some(0);
      match (ParseInt(hourText), ParseInt(minuteText), secondValue)
      case (Some(h), Some(m), Some(sec)) =>
        if IsValid(Time(h, m, sec)) then Ok(Time(h, m, sec)) else Err(IllegalArgument)
      case _ => Err(IllegalArgument)
  }

  /** No ':' at all, ':' first, or the only ':' last: the hour or the minute is missing. */
  lemma ParseRejectsMisplacedColon(s: string)
    requires ':' !in s || s[0] == ':' || (s[|s| - 1] == ':' && ':' !in s[..|s| - 1])
    ensures Parse(s).Err?
  {
    if ':' in s && s[0] != ':' {
      assert forall i :: 0 <= i < |s| - 1 ==> s[..|s| - 1][i] == s[i];
    }
  }

  /** A successful parse has at most two ':' in its input: "1:2:3:4" is rejected. */
  lemma {:induction false} ParseAtMostTwoColons(s: string, i: nat, j: nat, k: nat)
    requires i < j < k < |s| && s[i] == ':' && s[j] == ':' && s[k] == ':'
    ensures Parse(s).Err?
  {
    var p1 := IndexOf(s, ':', 0);
    if p1 != -1 && p1 != 0 && p1 < |s| - 1 {
      var p2 := IndexOf(s, ':', p1 + 1);
      assert p1 <= i;
      assert p2 != -1 && p2 <= j < k;
      if p2 < |s| - 1 {
        var secondText := s[p2 + 1..];
        ParseIntRejectsNonDecimal(secondText, k - p2 - 1);
      }
    }
  }

  /** A component that is not a decimal number makes the whole parse fail. */
  lemma ParseRejectsNonDecimalHour(hourText: string, rest: string)
    requires ':' !in hourText && |hourText| > 0 && ParseInt(hourText) == None
    ensures Parse(hourText + ":" + rest).Err?
  {
    var s := hourText + ":" + rest;
    assert s[|hourText|] == ':';
    assert IndexOf(s, ':', 0) == |hourText|;
    assert s[..|hourText|] == hourText;
  }

  /** The hour text of a valid time is digits only, so it holds no ':' and no '-'. */
  lemma HourText(t: Time)
    requires IsValid(t)
    ensures IntToString(t.hour) == NatToString(t.hour as nat)
    ensures forall i :: 0 <= i < |IntToString(t.hour)| ==> IntToString(t.hour)[i] != ':'
    ensures ParseInt(IntToString(t.hour)) == Some(t.hour)
    ensures '-' !in IntToString(t.hour)
  {
    NotInDigits(NatToString(t.hour as nat), ':');
    NotInDigits(NatToString(t.hour as nat), '-');
    ParseIntToString(t.hour);
  }

  /** The two-digit minute or second text of a valid time. */
  lemma FieldText(v: Int32)
    requires 0 <= v <= 59
    ensures |Pad2(v)| == 2 && Pad2(v)[0] != ':' && Pad2(v)[1] != ':'
    ensures ParseInt(Pad2(v)) == Some(v)
    ensures '-' !in Pad2(v)
  {
    ParsePad2(v as nat);
    NotInDigits(Pad2(v), '-');
    NotInDigits(Pad2(v), ':');
    if v >= 10 {
      assert Pad2(v) == NatToString(v as nat / 10) + [DigitChar(v as nat % 10)];
    }
  }

  /** Round trip: the text `toString` writes parses back to the same valid time. */
  lemma {:induction false} ParseToString(t: Time)
    requires IsValid(t)
    ensures Parse(ToString(t)) == Ok(t)
  {
    var h, m, sec := IntToString(t.hour), Pad2(t.minute), Pad2(t.second);
    HourText(t);
    FieldText(t.minute);
    FieldText(t.second);
    var rest := m + ":" + sec;
    var s := ToString(t);
    assert s == h + [':'] + rest;
    IndexOfFirst(h, ':', rest, 0);
    IndexOfFirst(m, ':', sec, 0);
    assert s == (h + [':']) + rest;
    IndexOfShift(h + [':'], rest, ':', 0);
    assert IndexOf(s, ':', |h| + 1) == |h| + 3;
    assert s[|h| + 1..|h| + 3] == rest[..2] == m;
    assert s[|h| + 4..] == rest[3..] == sec;
  }

  /** Seconds may be left out, and then they are 0: "12:34" is 12:34:00. */
  lemma {:induction false} ParseWithoutSeconds(t: Time)
    requires IsValid(t) && t.second == 0
    ensures Parse(IntToString(t.hour) + ":" + Pad2(t.minute)) == Ok(t)
  {
    var h, m := IntToString(t.hour), Pad2(t.minute);
    HourText(t);
    FieldText(t.minute);
    var s := h + ":" + m;
    IndexOfFirst(h, ':', m, 0);
    IndexOfShift(h + [':'], m, ':', 0);
    assert IndexOf(m, ':', 0) == -1;
    assert IndexOf(s, ':', |h| + 1) == -1;
  }

  /** A trailing ':' with nothing after it is accepted: "12:34:" is 12:34:00. */
  lemma {:induction false} ParseTrailingColon(t: Time)
    requires IsValid(t) && t.second == 0
    ensures Parse(IntToString(t.hour) + ":" + Pad2(t.minute) + ":") == Ok(t)
  {
    var h, m := IntToString(t.hour), Pad2(t.minute);
    HourText(t);
    FieldText(t.minute);
    var rest := m + ":";
    var s := h + ":" + m + ":";
    assert s == h + [':'] + rest;
    IndexOfFirst(h, ':', rest, 0);
    IndexOfFirst(m, ':', "", 0);
    assert m + [':'] + "" == rest;
    assert s == (h + [':']) + rest;
    IndexOfShift(h + [':'], rest, ':', 0);
    assert IndexOf(s, ':', |h| + 1) == |h| + 3 == |s| - 1;
    assert s[|h| + 1..|h| + 3] == rest[..2] == m;
  }

  /** The text form of a valid time holds no '-', so it can stand on either side of a period's '-'. */
  lemma ToStringHasNoHyphen(t: Time)
    requires IsValid(t)
    ensures '-' !in ToString(t)
    ensures |ToString(t)| > 0
  {
    HourText(t);
    FieldText(t.minute);
    FieldText(t.second);
  }
}
