/**
 * controller/TimePeriodPreferenceEditorOld.kt: the dialog-pair editor. A start
 * dialog (request code `requestCode`) and an end dialog (`requestCodeEnd`) edit
 * the session's period in turn; only an OK on the end dialog writes the period to
 * the store, and backing out of the end dialog shows the start dialog again.
 */
module TimePeriodPreferenceEditorOld {
  import opened Wrappers
  import opened Text
  import opened Platform
  import opened Preferences
  import TimeModel
  import TimePeriodModel
  import TimePeriodPreferenceUtil
  import DialogEditor

  /**
   * `getTimePeriod(sharedPreferences, key)`: the stored period, or the default
   * `TimePeriod()` whenever reading or parsing it throws (a missing key, a value
   * that is not a string, text that does not parse).
   */
  function StoredTimePeriod(store: Store, key: string): (r: TimePeriodModel.TimePeriod)
    ensures TimePeriodModel.IsValid(r)
    ensures key in store && store[key].StringValue? && TimePeriodModel.Parse(store[key].text).Ok? ==>
              r == TimePeriodModel.Parse(store[key].text).value
    ensures !(key in store && store[key].StringValue? && TimePeriodModel.Parse(store[key].text).Ok?) ==>
              r == TimePeriodModel.DEFAULT_PERIOD
  {
    match GetString(store, key, None)
    case Ok(Some(text)) =>
      (match TimePeriodModel.Parse(text)
       case Ok(p) => p
       case Err(_) => TimePeriodModel.DEFAULT_PERIOD)
    case _ => TimePeriodModel.DEFAULT_PERIOD
  }

  /** The session starts from what `TimePeriodPreferenceUtil.getTimePeriod` reads, with the default in place of null or an exception. */
  lemma StoredTimePeriodFallsBackToDefault(store: Store, key: string)
    ensures var read := TimePeriodPreferenceUtil.GetTimePeriod(store, key);
            StoredTimePeriod(store, key) == if read.Ok? && read.value.Some? then read.value.value else TimePeriodModel.DEFAULT_PERIOD
  {
  }

  /** What the end dialog's OK writes is what the next session starts from. */
  lemma SavedPeriodReadsBack(store: Store, key: string, p: TimePeriodModel.TimePeriod)
    requires TimePeriodModel.IsValid(p)
    ensures StoredTimePeriod(store[key := StringValue(TimePeriodModel.ToString(p))], key) == p
  {
    TimePeriodModel.ParseToString(p);
  }

  /** A time input dialog's result extras: the hour and the minute, either of which may be absent. */
  datatype TimeInput = TimeInput(hour: Option<Int32>, minute: Option<Int32>)

  /** `Time(data.getIntExtra(EXTRA_KEY_HOUR, 0), data.getIntExtra(EXTRA_KEY_MINUTE, 0), 0)`. */
  function PickedTime(data: TimeInput): (t: TimeModel.Time)
    ensures t.second == 0
    ensures t.hour == (if data.hour.Some? then data.hour.value else 0)
    ensures t.minute == (if data.minute.Some? then data.minute.value else 0)
  {
    TimeModel.Time(if data.hour.Some? then data.hour.value else 0, if data.minute.Some? then data.minute.value else 0, 0)
  }

  /** A time input dialog shown: the hour and minute it starts from, and the request code its result will carry. */
  datatype Dialog = Dialog(hour: Int32, minute: Int32, requestCode: Int32)

  /** The editor: its two request codes, its parent, its store, the session (`state.key`, `state.timePeriod`) and the dialogs shown. */
  class Editor {
    var requestCode: Int32
    var requestCodeEnd: Int32
    var parent: Option<DialogEditor.DialogParent>
    const preferences: SharedPreferences?
    var key: string
    var timePeriod: Option<TimePeriodModel.TimePeriod>
    var dialogs: seq<Dialog>

    constructor(parent: Option<DialogEditor.DialogParent>, preferences: SharedPreferences?,
                requestCodeStart: Int32, requestCodeEnd: Int32)
      ensures this.parent == parent && this.preferences == preferences
      ensures requestCode == requestCodeStart && this.requestCodeEnd == requestCodeEnd
      ensures key == "" && timePeriod.None? && dialogs == []
    {
      this.parent, this.preferences := parent, preferences;
      requestCode, this.requestCodeEnd := requestCodeStart, requestCodeEnd;
      key, timePeriod, dialogs := "", None, [];
    }

    /**
     * `setupState(view)`: a new session for the view's key; without preferences
     * an IllegalStateException leaves its period null.
     */
    method SetupState(viewKey: string) returns (o: Outcome)
      modifies this
      ensures parent == old(parent) && requestCode == old(requestCode) && requestCodeEnd == old(requestCodeEnd)
      ensures dialogs == old(dialogs) && key == viewKey
      ensures preferences == null ==> o == Fail(IllegalState) && timePeriod.None?
      ensures preferences != null ==> o == Pass && timePeriod == Some(StoredTimePeriod(preferences.data, viewKey))
    {
      key, timePeriod := viewKey, None;
      if preferences == null {
        return Fail(IllegalState);
      }
      timePeriod := Some(StoredTimePeriod(preferences.data, viewKey));
      return Pass;
    }

    /**
     * `onDialogResult(requestCode, resultCode, data)`. On the start code, an OK
     * with data sets the start at second 0 and shows the end dialog from the
     * current end; on the end code, an OK with data sets the end at second 0 and
     * stores `timePeriod.toString()`, anything else shows the start dialog again.
     * Both codes return true, any other false. A null session is a
     * NullPointerException, a missing parent or store an IllegalStateException.
     */
    method OnDialogResult(requestCode: Int32, resultCode: Int32, data: Option<TimeInput>) returns (r: Result<bool>)
      modifies this, preferences
      ensures parent == old(parent) && this.requestCode == old(this.requestCode)
      ensures requestCodeEnd == old(requestCodeEnd) && key == old(key)
      ensures requestCode != this.requestCode && requestCode != requestCodeEnd ==>
                r == Ok(false) && timePeriod == old(timePeriod) && dialogs == old(dialogs) &&
                (preferences != null ==> preferences.data == old(preferences.data))
      // the start dialog
      ensures requestCode == this.requestCode && !(resultCode == RESULT_OK && data.Some?) ==>
                r == Ok(true) && timePeriod == old(timePeriod) && dialogs == old(dialogs) &&
                (preferences != null ==> preferences.data == old(preferences.data))
      ensures requestCode == this.requestCode && resultCode == RESULT_OK && data.Some? && old(timePeriod).None? ==>
                r == Err(NullPointer) && timePeriod == old(timePeriod) && dialogs == old(dialogs) &&
                (preferences != null ==> preferences.data == old(preferences.data))
      ensures requestCode == this.requestCode && resultCode == RESULT_OK && data.Some? && old(timePeriod).Some? ==>
                var p := old(timePeriod).value.(start := PickedTime(data.value));
                timePeriod == Some(p) && (preferences != null ==> preferences.data == old(preferences.data)) &&
                (parent.None? ==> r == Err(IllegalState) && dialogs == old(dialogs)) &&
                (parent.Some? ==> r == Ok(true) && dialogs == old(dialogs) + [Dialog(p.end.hour, p.end.minute, requestCodeEnd)])
      // the end dialog
      ensures requestCode != this.requestCode && requestCode == requestCodeEnd && resultCode == RESULT_OK && data.Some? ==>
                dialogs == old(dialogs) &&
                (old(timePeriod).None? ==>
                   r == Err(NullPointer) && timePeriod == old(timePeriod) &&
                   (preferences != null ==> preferences.data == old(preferences.data))) &&
                (old(timePeriod).Some? ==>
                   var p := old(timePeriod).value.(end := PickedTime(data.value));
                   timePeriod == Some(p) &&
                   (preferences == null ==> r == Err(IllegalState)) &&
                   (preferences != null ==>
                      r == Ok(true) && preferences.data == old(preferences.data)[key := StringValue(TimePeriodModel.ToString(p))]))
      ensures requestCode != this.requestCode && requestCode == requestCodeEnd && !(resultCode == RESULT_OK && data.Some?) ==>
                timePeriod == old(timePeriod) && (preferences != null ==> preferences.data == old(preferences.data)) &&
                (parent.None? ==> r == Err(IllegalState) && dialogs == old(dialogs)) &&
                (parent.Some? && old(timePeriod).None? ==> r == Err(NullPointer) && dialogs == old(dialogs)) &&
                (parent.Some? && old(timePeriod).Some? ==>
                   r == Ok(true) &&
                   dialogs == old(dialogs) + [Dialog(old(timePeriod).value.start.hour, old(timePeriod).value.start.minute, this.requestCode)])
    {
      if requestCode == this.requestCode {
        if resultCode == RESULT_OK && data.Some? {
          if timePeriod.None? {
            return Err(NullPointer);
          }
          timePeriod := Some(timePeriod.value.(start := PickedTime(data.value)));
          if parent.None? {
            return Err(IllegalState);
          }
          dialogs := dialogs + [Dialog(timePeriod.value.end.hour, timePeriod.value.end.minute, requestCodeEnd)];
        }
        return Ok(true);
      } else if requestCode == requestCodeEnd {
        if resultCode == RESULT_OK && data.Some? {
          if timePeriod.None? {
            return Err(NullPointer);
          }
          timePeriod := Some(timePeriod.value.(end := PickedTime(data.value)));
          if preferences == null {
            return Err(IllegalState);
          }
          preferences.PutString(key, TimePeriodModel.ToString(timePeriod.value));
        } else {
          if parent.None? {
            return Err(IllegalState);
          }
          if timePeriod.None? {
            return Err(NullPointer);
          }
          dialogs := dialogs + [Dialog(timePeriod.value.start.hour, timePeriod.value.start.minute, this.requestCode)];
        }
        return Ok(true);
      }
      return Ok(false);
    }
  }
}
