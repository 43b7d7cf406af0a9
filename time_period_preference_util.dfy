/**
 * controller/TimePeriodPreferenceUtil.kt: reading a stored period and testing a
 * time of day against it.
 */
module TimePeriodPreferenceUtil {
  import opened Wrappers
  import opened Text
  import opened ClockDial
  import opened Preferences
  import TimeModel
  import TimePeriodModel

  /**
   * `getTimePeriod(prefs, key)`: null when the key is absent or its text does not
   * parse. Reading a value that is not a string is not inside the `try`, so its
   * ClassCastException escapes.
   */
  function GetTimePeriod(store: Store, key: string): (r: Result<Option<TimePeriodModel.TimePeriod>>)
    ensures key !in store ==> r == Ok(None)
    ensures key in store && !store[key].StringValue? ==> r == Err(ClassCast)
    ensures key in store && store[key].StringValue? ==>
              var parsed := TimePeriodModel.Parse(store[key].text);
              r == Ok(if parsed.Ok? then Some(parsed.value) else None)
    ensures r.Ok? && r.value.Some? ==> TimePeriodModel.IsValid(r.value.value)
  {
    match GetString(store, key, None)
    case Err(e) => Err(e)
    case Ok(None) => Ok(None)
    case Ok(Some(stored)) =>
      match TimePeriodModel.Parse(stored)
      case Ok(p) => Ok(Some(p))
      case Err(_) => Ok(None)
  }

  /**
   * `isInPeriod(prefs, key, hourOfDay, minute)`: false without a readable stored
   * period, else the period's own test at second 0, whose exception for an
   * invalid time is not caught.
   */
  function IsInPeriod(store: Store, key: string, hourOfDay: Int32, minute: Int32): (r: Result<bool>)
    ensures r == Ok(true) <==>
              GetTimePeriod(store, key).Ok? && GetTimePeriod(store, key).value.Some? &&
              0 <= hourOfDay <= 23 && 0 <= minute <= 59 &&
              var p := GetTimePeriod(store, key).value.value;
              OnClockwiseArc(TimeModel.SecondsOfDay(p.start), TimeModel.SecondsOfDay(p.end),
                             (hourOfDay as int) * 3600 + (minute as int) * 60, TimeModel.DAY_SECONDS)
    ensures GetTimePeriod(store, key) == Ok(None) ==> r == Ok(false)
    ensures key in store && !store[key].StringValue? ==> r == Err(ClassCast)
    ensures GetTimePeriod(store, key).Ok? && GetTimePeriod(store, key).value.Some? ==>
              var p := GetTimePeriod(store, key).value.value;
              if 0 <= hourOfDay <= 23 && 0 <= minute <= 59 then
                r == Ok(OnClockwiseArc(TimeModel.SecondsOfDay(p.start), TimeModel.SecondsOfDay(p.end),
                                       (hourOfDay as int) * 3600 + (minute as int) * 60, TimeModel.DAY_SECONDS))
              else
                r == Err(IllegalArgument)
  {
    match GetTimePeriod(store, key)
    case Err(e) => Err(e)
    case Ok(None) => Ok(false)
    case Ok(Some(p)) => TimePeriodModel.IsInPeriodAt(p, hourOfDay, minute, 0)
  }

  /** A period stored as its `toString` text reads back as the same period. */
  lemma StoredPeriodReadsBack(store: Store, key: string, p: TimePeriodModel.TimePeriod)
    requires TimePeriodModel.IsValid(p)
    ensures GetTimePeriod(store[key := StringValue(TimePeriodModel.ToString(p))], key) == Ok(Some(p))
  {
    TimePeriodModel.ParseToString(p);
  }
}
