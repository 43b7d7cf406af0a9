/**
 * controller/editor/time/TimePeriodFragmentEditor.kt: the editor that runs the
 * fragment wizard. `setupState` reads the stored period into the editor state,
 * null when there is none to read; `onEditorResult` commits an OK result.
 */
module TimePeriodFragmentEditor {
  import opened Wrappers
  import opened Text
  import opened Platform
  import opened Preferences
  import TimeModel
  import TimePeriodModel
  import TimePeriodPreferenceUtil

  /**
   * The `timePeriod` `setupState` puts in the editor state: null without a store
   * or a key, and null when reading or parsing the stored text throws or the text
   * is missing or empty.
   */
  function SetupTimePeriod(store: Option<Store>, key: Option<string>): (r: Option<TimePeriodModel.TimePeriod>)
    ensures store.None? || key.None? ==> r.None?
    ensures store.Some? && key.Some? ==>
              var read := TimePeriodPreferenceUtil.GetTimePeriod(store.value, key.value);
              r == if read.Ok? then read.value else None
    ensures r.Some? ==> TimePeriodModel.IsValid(r.value)
  {
    TimePeriodModel.ParseRejectsMissingSide("");
    if store.None? || key.None? then None
    else
      match GetString(store.value, key.value, None)
      case Ok(Some(timeString)) =>
        if |timeString| > 0 then
          (match TimePeriodModel.Parse(timeString)
           case Ok(p) => Some(p)
           case Err(_) => None)
        else None
      case _ => None
  }

  /** `TimePeriod(view.timeForNull, view.timeForNull)`: the period shown when there is none. */
  function TimePeriodForNull(timeForNull: TimeModel.Time): (r: TimePeriodModel.TimePeriod)
    ensures r.start == timeForNull && r.end == timeForNull
  {
    TimePeriodModel.TimePeriod(timeForNull, timeForNull)
  }

  /** What an OK result commits is what the next session reads. */
  lemma CommittedPeriodReadsBack(store: Store, key: string, p: TimePeriodModel.TimePeriod)
    requires TimePeriodModel.IsValid(p)
    ensures SetupTimePeriod(Some(store[key := StringValue(TimePeriodModel.ToString(p))]), Some(key)) == Some(p)
  {
    TimePeriodModel.ParseToString(p);
  }

  /** The editor: its store, and the editor state's key, period and period for null. */
  class Editor {
    const preferences: SharedPreferences?
    var key: Option<string>
    var timePeriod: Option<TimePeriodModel.TimePeriod>
    var timePeriodForNull: TimePeriodModel.TimePeriod

    constructor(preferences: SharedPreferences?)
      ensures this.preferences == preferences && key.None? && timePeriod.None?
      ensures timePeriodForNull == TimePeriodModel.DEFAULT_PERIOD
    {
      this.preferences := preferences;
      key, timePeriod, timePeriodForNull := None, None, TimePeriodModel.DEFAULT_PERIOD;
    }

    /** `setupState(view)` for a view with the given key and `timeForNull`. */
    method SetupState(viewKey: Option<string>, timeForNull: TimeModel.Time)
      modifies this
      ensures key == viewKey
      ensures timePeriod == SetupTimePeriod(if preferences == null then None else Some(preferences.data), viewKey)
      ensures timePeriodForNull == TimePeriodForNull(timeForNull)
    {
      key := viewKey;
      timePeriod := SetupTimePeriod(if preferences == null then None else Some(preferences.data), viewKey);
      timePeriodForNull := TimePeriodModel.TimePeriod(timeForNull, timeForNull);
    }

    /**
     * `onEditorResult(result)`: without a store or a key an IllegalStateException;
     * RESULT_OK with a period stores its text, RESULT_OK without one removes the
     * key, and any other result changes nothing.
     */
    method OnEditorResult(resultCode: Int32, selected: Option<TimePeriodModel.TimePeriod>) returns (o: Outcome)
      modifies preferences
      ensures preferences == null || key.None? ==>
                o == Fail(IllegalState) && (preferences != null ==> preferences.data == old(preferences.data))
      ensures preferences != null && key.Some? && resultCode != RESULT_OK ==>
                o == Pass && preferences.data == old(preferences.data)
      ensures preferences != null && key.Some? && resultCode == RESULT_OK && selected.None? ==>
                o == Pass && preferences.data == old(preferences.data) - {key.value}
      ensures preferences != null && key.Some? && resultCode == RESULT_OK && selected.Some? ==>
                o == Pass && preferences.data == old(preferences.data)[key.value := StringValue(TimePeriodModel.ToString(selected.value))]
    {
      if preferences == null || key.None? {
        return Fail(IllegalState);
      }
      if resultCode == RESULT_OK {
        if selected.None? {
          preferences.Remove(key.value);
        } else {
          preferences.PutString(key.value, TimePeriodModel.ToString(selected.value));
        }
      }
      return Pass;
    }
  }
}
