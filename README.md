# ImoyaAndroidPreferenceLib in Dafny

A Dafny model of the core of ImoyaAndroidPreferenceLib, an Android settings
library. The model covers four parts of the library, and the model's contracts
and lemmas state what each part promises:

- **Time-of-day values.** There are two generations.
  - The Kotlin `Time` / `TimePeriod` (`TimeModel`, `TimePeriodModel`):
    - text forms "H:MM:SS" and "start-end";
    - a parser that accepts "H:MM" and "H:MM:SS";
    - validity;
    - ordering;
    - containment in a period that may wrap past midnight.
  - The legacy Java `Time` / `TimePeriod` (`LegacyTimeModel`, `LegacyTimePeriodModel`):
    - hour and minute only, text form "H:MM";
    - setters that check their range;
    - a negative field meaning "undefined".
  - Both containment tests are proved equal to one reference definition,
    `ClockDial.OnClockwiseArc`, on a circular day.
  - `TimePeriodPreferenceUtil` reads a stored period and tests a time against it.
- **List values.**
  - `ListEditorUtil` turns a single selection or a checked list into a stored
    value, or removes the key.
  - `MultiSelectionStringListView.GetCheckedList` decodes the stored text back
    into check marks.
  - The two are proved to be inverse to each other.
- **Two-step time-range wizards.** Each one edits the start, then the end, and
  commits only at the end:
  - the activity (`TimePeriodInputActivity`);
  - the fragment pair (`TimePeriodEditorFragment`) with its state
    (`TimePeriodEditorFragmentState`) and its editor (`TimePeriodFragmentEditor`);
  - the legacy dialog-pair editor (`TimePeriodPreferenceEditorOld`).
- **Edit-session dispatch.**
  - `PreferenceScreenController` keeps a tag-to-editor table in insertion order,
    hands out request codes and request keys, and binds views to editors. It also
    routes dialog results to the first editor that claims them, and saves and
    restores the editors' instance states.
  - `DialogPreferenceEditor` and `DialogEditor` filter a dialog result by request
    code and decide whether to save it.

Supporting modules:

- `Wrappers`: `Option`, `Result`, `Outcome`, and the exception kinds as `Error`.
- `Text`: the JVM primitives the code relies on:
  - `Integer.parseInt`;
  - `%d` and `%02d`;
  - `indexOf`;
  - Kotlin `split` and `joinToString`;
  - 32-bit wrap-around.
- `Preferences`: `SharedPreferences` as a map from keys to typed values.
- `Platform`: `RESULT_OK` = -1, `RESULT_CANCELED` = 0, and an `Intent` as a map of
  extras.

How the model is shaped:

- Exceptions are the `Err` / `Fail` side of a result.
- Objects the source changes in place are Dafny classes:
  - the mutable periods and times;
  - the activity;
  - the fragment;
  - the editors;
  - the controller;
  - `SharedPreferences`.
- Each method of such a class is proved equal to a pure transition function on a
  snapshot of the object, and the lemmas are stated about those functions.

Two facts about the Kotlin `Time` that the model keeps:

- `Time.toString` writes "H:MM:SS", with seconds.
- `compareTo` orders by hour, then minute, then second.

## Model

| member | source | states |
|---|---|---|
| TimeModel.Compare | lib/src/main/java/net/imoya/android/preference/model/Time.kt:53-54 | the sign of `compareTo` is -1, 0 or 1; it is 0 exactly for equal times and negative exactly when (hour, minute, second) is lexicographically smaller |
| TimeModel.CompareAntisymmetric | lib/src/main/java/net/imoya/android/preference/model/Time.kt:53-54 | swapping the operands of `compareTo` negates the result |
| TimeModel.LessTransitive | lib/src/main/java/net/imoya/android/preference/model/Time.kt:53-54 | the order `compareTo` defines is transitive |
| TimeModel.CompareIsClockOrder | lib/src/main/java/net/imoya/android/preference/model/Time.kt:51-54 | on valid times, `compareTo` agrees with the seconds elapsed since midnight, both for "less" and for "equal" |
| TimeModel.Parse | lib/src/main/java/net/imoya/android/preference/model/Time.kt:86-114 | every time `parse` returns is valid (hour 0..23, minute and second 0..59); every failure is an IllegalArgumentException |
| TimeModel.ParseRejectsMisplacedColon | lib/src/main/java/net/imoya/android/preference/model/Time.kt:88-91 | text with no ':', with ':' first, or whose only ':' is last is rejected |
| TimeModel.ParseAtMostTwoColons | lib/src/main/java/net/imoya/android/preference/model/Time.kt:93-111 | text with three ':' is rejected, because the seconds text then holds a ':' and is no decimal number |
| TimeModel.ParseRejectsNonDecimalHour | lib/src/main/java/net/imoya/android/preference/model/Time.kt:105-111 | an hour that `Integer.parseInt` refuses makes the whole parse fail |
| TimeModel.ParseToString | lib/src/main/java/net/imoya/android/preference/model/Time.kt:56-114 | round trip: `parse(t.toString()) == t` for every valid t |
| TimeModel.ParseWithoutSeconds | lib/src/main/java/net/imoya/android/preference/model/Time.kt:93-108 | seconds are optional: "H:MM" parses to the time with second 0 |
| TimeModel.ParseTrailingColon | lib/src/main/java/net/imoya/android/preference/model/Time.kt:93-108 | a trailing ':' with empty seconds ("12:34:") is accepted as second 0 |
| TimeModel.ToStringHasNoHyphen | lib/src/main/java/net/imoya/android/preference/model/Time.kt:56 | the text of a valid time is non-empty and holds no '-', so it can stand on either side of a period's '-' |
| TimePeriodModel.IsInPeriod | lib/src/main/java/net/imoya/android/preference/model/TimePeriod.kt:58-70 | an invalid time is an IllegalArgumentException; a valid time against an invalid period is an IllegalStateException; there is an answer exactly when both are valid |
| TimePeriodModel.IsInPeriodIsClockwiseArc | lib/src/main/java/net/imoya/android/preference/model/TimePeriod.kt:62-69 | the three cases (start == end, start < end, start > end) together mean "on the clockwise arc from start to end" of the 86400-second day, both ends included |
| TimePeriodModel.EndsAreInPeriod | lib/src/main/java/net/imoya/android/preference/model/TimePeriod.kt:65-69 | both ends of a valid period are always in the period |
| TimePeriodModel.IsInPeriodAt | lib/src/main/java/net/imoya/android/preference/model/TimePeriod.kt:81-83 | `isInPeriod(hourOfDay, minute, second)` is the clockwise-arc test on hourOfDay*3600+minute*60+second, and an invalid time is an IllegalArgumentException |
| TimePeriodModel.Parse | lib/src/main/java/net/imoya/android/preference/model/TimePeriod.kt:129-141 | every period `parse` returns is valid; every failure is an IllegalArgumentException |
| TimePeriodModel.ParseRejectsMissingSide | lib/src/main/java/net/imoya/android/preference/model/TimePeriod.kt:131-134 | no '-', '-' first, or the only '-' last: rejected |
| TimePeriodModel.ParseToString | lib/src/main/java/net/imoya/android/preference/model/TimePeriod.kt:95-141 | round trip: `parse(p.toString()) == p` for every valid p |
| TimePeriodModel.MutableTimePeriod.CopyFrom | lib/src/main/java/net/imoya/android/preference/model/TimePeriod.kt:90-93 | after `copyFrom(other)` the period holds other's start and end |
| LegacyTimeModel.Equals | lib/src/main/java/net/imoya/android/preference/model/Time.java:107-115 | `equals` holds exactly when the two times are the same value |
| LegacyTimeModel.Parse | lib/src/main/java/net/imoya/android/preference/model/Time.java:33-62 | null, and only null, is a NullPointerException; a parsed time is in range; every other failure is an IllegalArgumentException |
| LegacyTimeModel.ParseRejectsSecondColon | lib/src/main/java/net/imoya/android/preference/model/Time.java:47-57 | only the first ':' splits, so text with a second ':' ("1:2:3") is rejected |
| LegacyTimeModel.ParseRejectsMisplacedColon | lib/src/main/java/net/imoya/android/preference/model/Time.java:38-45 | no ':', ':' first, or the only ':' last is an IllegalArgumentException |
| LegacyTimeModel.ParseToString | lib/src/main/java/net/imoya/android/preference/model/Time.java:33-120 | round trip of "%d:%02d" through `parse` for every time in range |
| LegacyTimeModel.ToStringHasNoHyphen | lib/src/main/java/net/imoya/android/preference/model/Time.java:117-120 | the text of a time in range is non-empty and holds no '-' |
| LegacyTimeModel.MutableTime.constructor | lib/src/main/java/net/imoya/android/preference/model/Time.java:64-67 | `new Time()` is midnight |
| LegacyTimeModel.MutableTime.Of | lib/src/main/java/net/imoya/android/preference/model/Time.java:69-72 | `new Time(hour, minute)` takes both values unchecked |
| LegacyTimeModel.MutableTime.SetHour | lib/src/main/java/net/imoya/android/preference/model/Time.java:89-94 | an hour outside 0..23 is an IllegalArgumentException and changes nothing; otherwise only the hour changes; a time in range stays in range |
| LegacyTimeModel.MutableTime.SetMinute | lib/src/main/java/net/imoya/android/preference/model/Time.java:100-105 | a minute outside 0..59 is an IllegalArgumentException and changes nothing; otherwise only the minute changes |
| LegacyTimePeriodModel.Equals | lib/src/main/java/net/imoya/android/preference/model/TimePeriod.java:185-194 | `equals` holds exactly when all four fields agree |
| LegacyTimePeriodModel.Parse | lib/src/main/java/net/imoya/android/preference/model/TimePeriod.java:43-68 | null, and only null, is a NullPointerException; a parsed period is in range; every other failure is an IllegalArgumentException |
| LegacyTimePeriodModel.ParseRejectsMissingSide | lib/src/main/java/net/imoya/android/preference/model/TimePeriod.java:47-55 | no '-', '-' first, or the only '-' last is an IllegalArgumentException |
| LegacyTimePeriodModel.ParseToString | lib/src/main/java/net/imoya/android/preference/model/TimePeriod.java:202-206 | round trip of "%d:%02d-%d:%02d" through `parse` for every period in range |
| LegacyTimePeriodModel.IsInPeriodAsWritten | lib/src/main/java/net/imoya/android/preference/model/TimePeriod.java:153-182 | the code as written: it throws exactly when hour > 23 or minute > 59 (negative arguments are not refused), and an undefined period contains nothing |
| LegacyTimePeriodModel.IsInPeriodAsWrittenIsClockwiseArc | lib/src/main/java/net/imoya/android/preference/model/TimePeriod.java:163-181 | on a period in range and a time of day in range, the minute-total comparison is the clockwise arc of the 1440-minute day |
| LegacyTimePeriodModel.UndefinedTimeInsideWrappingPeriod | lib/src/main/java/net/imoya/android/preference/model/TimePeriod.java:146-182 | the undefined time (-1, -1) is reported inside 22:00-6:00 by the code as written |
| LegacyTimePeriodModel.IsInPeriod | lib/src/main/java/net/imoya/android/preference/model/TimePeriod.java:146-182 | as documented: the same exceptions; an undefined period or an undefined time is never inside; otherwise exactly the clockwise arc |
| LegacyTimePeriodModel.CorrectionOnlyAffectsUndefinedTimes | lib/src/main/java/net/imoya/android/preference/model/TimePeriod.java:153-182 | for non-negative hour and minute, the documented test and the code as written agree |
| LegacyTimePeriodModel.MutableTimePeriod.constructor | lib/src/main/java/net/imoya/android/preference/model/TimePeriod.java:15-73 | `new TimePeriod()` has all four fields 0 |
| LegacyTimePeriodModel.MutableTimePeriod.SetStartHour | lib/src/main/java/net/imoya/android/preference/model/TimePeriod.java:106-111 | outside 0..23 is an IllegalArgumentException and changes nothing; otherwise only startHour changes |
| LegacyTimePeriodModel.MutableTimePeriod.SetStartMinute | lib/src/main/java/net/imoya/android/preference/model/TimePeriod.java:117-122 | outside 0..59 is an IllegalArgumentException and changes nothing; otherwise only startMinute changes |
| LegacyTimePeriodModel.MutableTimePeriod.SetEndHour | lib/src/main/java/net/imoya/android/preference/model/TimePeriod.java:128-133 | outside 0..23 is an IllegalArgumentException and changes nothing; otherwise only endHour changes |
| LegacyTimePeriodModel.MutableTimePeriod.SetEndMinute | lib/src/main/java/net/imoya/android/preference/model/TimePeriod.java:139-144 | outside 0..59 is an IllegalArgumentException and changes nothing; otherwise only endMinute changes |
| LegacyTimePeriodModel.MutableTimePeriod.CopyFrom | lib/src/main/java/net/imoya/android/preference/model/TimePeriod.java:93-100 | null is an IllegalArgumentException and changes nothing; otherwise all four fields are copied |
| TimePeriodPreferenceUtil.GetTimePeriod | lib/src/main/java/net/imoya/android/preference/controller/TimePeriodPreferenceUtil.kt:36-46 | null for an absent key or text that does not parse, else the parsed (valid) period; a non-string value's ClassCastException escapes |
| TimePeriodPreferenceUtil.IsInPeriod | lib/src/main/java/net/imoya/android/preference/controller/TimePeriodPreferenceUtil.kt:60-65 | false when nothing readable is stored; a ClassCastException for a stored value that is no string; with a stored period, an IllegalArgumentException for an hour or minute out of range, and otherwise whether the time at second 0 is on the period's clockwise arc (true or false) |
| TimePeriodPreferenceUtil.StoredPeriodReadsBack | lib/src/main/java/net/imoya/android/preference/controller/TimePeriodPreferenceUtil.kt:36-46 | a valid period stored as its `toString` reads back as the same period |
| ListEditorUtil.SelectionAction | lib/src/main/java/net/imoya/android/preference/controller/editor/list/ListEditorUtil.kt:40-56 | -1, and only -1, removes the key; exactly the indices in [0, entrySize) call `saveValue`; everything else is a RuntimeException |
| ListEditorUtil.CheckedAction | lib/src/main/java/net/imoya/android/preference/controller/editor/list/ListEditorUtil.kt:108-125 | a wrong-length checked list, and only that, throws; nothing checked removes the key; anything checked calls `saveValue` |
| ListEditorUtil.SelectedMembership | lib/src/main/java/net/imoya/android/preference/controller/editor/list/ListEditorUtil.kt:198-201 | a value is among the filtered ones exactly when it sits at a checked position |
| ListEditorUtil.SelectedIsEmpty | lib/src/main/java/net/imoya/android/preference/controller/editor/list/ListEditorUtil.kt:198-201 | nothing is filtered exactly when no position is checked |
| ListEditorUtil.CreatePreferenceValue | lib/src/main/java/net/imoya/android/preference/controller/editor/list/ListEditorUtil.kt:198-201 | fails (index out of bounds) exactly when the checked list is shorter than the values |
| ListEditorUtil.CreatePreferenceValueTokens | lib/src/main/java/net/imoya/android/preference/controller/editor/list/ListEditorUtil.kt:198-201 | splitting the created text at ',' gives the checked values in index order, when no value holds ',' |
| ListEditorUtil.CreateIntPreferenceValue | lib/src/main/java/net/imoya/android/preference/controller/editor/list/ListEditorUtil.kt:185-188 | fails (index out of bounds) exactly when the checked list is shorter than the values |
| ListEditorUtil.CreateIntPreferenceValueTokens | lib/src/main/java/net/imoya/android/preference/controller/editor/list/ListEditorUtil.kt:185-188 | splitting the created text and parsing each token gives back the checked `Int` values in index order |
| ListEditorUtil.SaveSelectedInt | lib/src/main/java/net/imoya/android/preference/controller/editor/list/ListEditorUtil.kt:67-76 | -1 removes the key; an index out of range throws and leaves the store unchanged; a valid index stores `entryValues[selection]` and touches no other key |
| ListEditorUtil.SaveSelectedString | lib/src/main/java/net/imoya/android/preference/controller/editor/list/ListEditorUtil.kt:87-96 | the same for string values |
| ListEditorUtil.SaveCheckedInts | lib/src/main/java/net/imoya/android/preference/controller/editor/list/ListEditorUtil.kt:137-150 | a wrong-length checked list throws before any write; nothing checked removes the key; otherwise the encoded text is stored, and an encoder failure writes nothing |
| ListEditorUtil.SaveCheckedStrings | lib/src/main/java/net/imoya/android/preference/controller/editor/list/ListEditorUtil.kt:162-175 | the same for string values |
| MultiSelectionStringListView.SelectionText | lib/src/main/java/net/imoya/android/preference/view/list/MultiSelectionStringListPreferenceView.kt:259 | a missing key reads as ""; a string reads as itself; another type is a ClassCastException |
| MultiSelectionStringListView.CheckedList | lib/src/main/java/net/imoya/android/preference/view/list/MultiSelectionStringListPreferenceView.kt:257-268 | one mark per entry; of two entries with the same value only the first can be marked; the only failure is an index past the array |
| MultiSelectionStringListView.GetCheckedList | lib/src/main/java/net/imoya/android/preference/view/list/MultiSelectionStringListPreferenceView.kt:257-268 | the `forEach` loop over the tokens fills the array with exactly the marks `CheckedList` defines, or fails as it does |
| MultiSelectionStringListView.CheckedListOfCreatedValue | lib/src/main/java/net/imoya/android/preference/view/list/MultiSelectionStringListPreferenceView.kt:257-268 | round trip: decoding `createPreferenceValue(values, checked)` gives back `checked` when the values are distinct, non-empty and comma-free |
| MultiSelectionStringListView.SavedCheckedListReadsBack | lib/src/main/java/net/imoya/android/preference/view/list/MultiSelectionStringListPreferenceView.kt:257-268 | what `ListEditorUtil.saveInput` leaves in the store, whether a put or a remove, decodes to the same checked list |
| MultiSelectionStringListView.UnknownTokenIgnored | lib/src/main/java/net/imoya/android/preference/view/list/MultiSelectionStringListPreferenceView.kt:263-266 | a token that is no entry's value changes nothing |
| SingleSelectionTypeModel.FindById | lib/src/main/java/net/imoya/android/preference/type/SingleSelectionType.kt:49 | `find` returns a listed constant with that id, or nothing when none has it |
| SingleSelectionTypeModel.From | lib/src/main/java/net/imoya/android/preference/type/SingleSelectionType.kt:48-50 | a result carries the requested id; a failure is an IllegalArgumentException |
| SingleSelectionTypeModel.FromId | lib/src/main/java/net/imoya/android/preference/type/SingleSelectionType.kt:28-50 | `from(t.id) == t` for both constants, so `from(0) == OK_CANCEL` and `from(1) == ITEM_CLICK` |
| SingleSelectionTypeModel.FromRejectsUnknownId | lib/src/main/java/net/imoya/android/preference/type/SingleSelectionType.kt:48-50 | `from` fails exactly for ids other than 0 and 1 |
| TimePeriodEditorFragmentState.StepFrom | lib/src/main/java/net/imoya/android/preference/model/state/time/TimePeriodEditorFragmentState.kt:42-45 | a step found carries the requested value; the failure is an IllegalArgumentException, exactly for values other than 0 and 1 |
| TimePeriodEditorFragmentState.StepFromValue | lib/src/main/java/net/imoya/android/preference/model/state/time/TimePeriodEditorFragmentState.kt:35-45 | `Step.from(s.value) == s` |
| TimePeriodEditorFragmentState.Create | lib/src/main/java/net/imoya/android/preference/model/state/time/TimePeriodEditorFragmentState.kt:62-65 | the default step is START_TIME |
| TimePeriodEditorFragmentState.ToBundle | lib/src/main/java/net/imoya/android/preference/model/state/time/TimePeriodEditorFragmentState.kt:98-103 | the bundle holds the period and a step value that `Step.from` maps back to the step |
| TimePeriodEditorFragmentState.FromBundle | lib/src/main/java/net/imoya/android/preference/model/state/time/TimePeriodEditorFragmentState.kt:72-76 | a bundle without a period is an IllegalArgumentException; a missing step reads as START_TIME; the period is the bundle's |
| TimePeriodEditorFragmentState.FromToBundle | lib/src/main/java/net/imoya/android/preference/model/state/time/TimePeriodEditorFragmentState.kt:72-103 | bundle round trip preserves the period and the step |
| TimePeriodInputActivity.Launch | lib/src/main/java/net/imoya/android/preference/activity/TimePeriodInputActivity.kt:130-151 | a fresh activity is valid, at START, holds the intent's period or the default, shows the start, and has RESULT_CANCELED |
| TimePeriodInputActivity.RestoreSaved | lib/src/main/java/net/imoya/android/preference/activity/TimePeriodInputActivity.kt:139-156 | the saved instance state restores the period, the step and the pickers, and the restored activity is valid |
| TimePeriodInputActivity.TurnPicker | lib/src/main/java/net/imoya/android/preference/activity/TimePeriodInputActivity.kt:234-240 | turning the picker changes only what `currentTime` reads, not the state |
| TimePeriodInputActivity.OkAtStart | lib/src/main/java/net/imoya/android/preference/activity/TimePeriodInputActivity.kt:189-207 | OK at START stores the picked start, keeps the end, moves to END with a picker pre-filled with the current end, sets no result, and stays valid |
| TimePeriodInputActivity.OkAtEnd | lib/src/main/java/net/imoya/android/preference/activity/TimePeriodInputActivity.kt:177-187 | OK at END stores the picked end, keeps the start, and returns RESULT_OK with the whole period |
| TimePeriodInputActivity.UpAtStart | lib/src/main/java/net/imoya/android/preference/activity/TimePeriodInputActivity.kt:213-217 | Up with an empty back stack finishes, and the result stays RESULT_CANCELED without data |
| TimePeriodInputActivity.UpAtEnd | lib/src/main/java/net/imoya/android/preference/activity/TimePeriodInputActivity.kt:219-231 | Up at END keeps the picked end, returns to START with the start picker, and leaves the start unchanged |
| TimePeriodInputActivity.StepKeepsValid | lib/src/main/java/net/imoya/android/preference/activity/TimePeriodInputActivity.kt:173-232 | every Turn, OK and Up event keeps the wizard invariant |
| TimePeriodInputActivity.OkAtStartOrEnd | lib/src/main/java/net/imoya/android/preference/activity/TimePeriodInputActivity.kt:173-211 | OK keeps the wizard invariant at either step |
| TimePeriodInputActivity.RunKeepsValid | lib/src/main/java/net/imoya/android/preference/activity/TimePeriodInputActivity.kt:130-232 | any sequence of Turn, OK and Up events keeps the wizard invariant |
| TimePeriodInputActivity.CommittedPeriodHasWholeMinutes | lib/src/main/java/net/imoya/android/preference/activity/TimePeriodInputActivity.kt:173-211 | after any events from launch, a RESULT_OK carries a period whose two seconds are 0 |
| TimePeriodInputActivity.InputActivity.Create | lib/src/main/java/net/imoya/android/preference/activity/TimePeriodInputActivity.kt:130-151 | `onCreate(null)` builds the activity `Launch` describes |
| TimePeriodInputActivity.InputActivity.Recreate | lib/src/main/java/net/imoya/android/preference/activity/TimePeriodInputActivity.kt:139-150 | `onCreate(saved)` builds the activity `Restore` describes |
| TimePeriodInputActivity.InputActivity.OnSaveInstanceState | lib/src/main/java/net/imoya/android/preference/activity/TimePeriodInputActivity.kt:153-156 | saves what `Save` describes |
| TimePeriodInputActivity.InputActivity.OnTimeChanged | lib/src/main/java/net/imoya/android/preference/activity/TimePeriodInputActivity.kt:234-240 | the in-place update equals `TurnPicker` |
| TimePeriodInputActivity.InputActivity.OnOptionsItemSelectedOk | lib/src/main/java/net/imoya/android/preference/activity/TimePeriodInputActivity.kt:173-211 | the in-place update equals `SelectOk`, whose effect `OkAtStart` and `OkAtEnd` state |
| TimePeriodInputActivity.InputActivity.OnSupportNavigateUp | lib/src/main/java/net/imoya/android/preference/activity/TimePeriodInputActivity.kt:213-232 | the in-place update equals `NavigateUp`, whose effect `UpAtStart` and `UpAtEnd` state |
| TimePeriodEditorFragment.CreatedState | lib/src/main/java/net/imoya/android/preference/fragment/editor/time/TimePeriodEditorFragment.kt:72-87 | the state comes from the saved bundle, else from the arguments' bundle, else it is `timePeriod ?: timePeriodForNull` at START_TIME |
| TimePeriodEditorFragment.TimeChangedWritesOneSide | lib/src/main/java/net/imoya/android/preference/fragment/editor/time/TimePeriodEditorFragment.kt:175-186 | a picker change writes hour and minute of the start or the end, by step, never both, and keeps the step and the seconds |
| TimePeriodEditorFragment.OkAtStart | lib/src/main/java/net/imoya/android/preference/fragment/editor/time/TimePeriodEditorFragment.kt:189-231 | OK at START_TIME opens the END_TIME step with the same period and changes nothing else |
| TimePeriodEditorFragment.OkAtEnd | lib/src/main/java/net/imoya/android/preference/fragment/editor/time/TimePeriodEditorFragment.kt:189-242 | OK at END_TIME returns RESULT_OK with the period |
| TimePeriodEditorFragment.BackAtStart | lib/src/main/java/net/imoya/android/preference/fragment/editor/time/TimePeriodEditorFragment.kt:196-253 | back at START_TIME cancels with RESULT_CANCELED |
| TimePeriodEditorFragment.BackAtEndOpensEndStep | lib/src/main/java/net/imoya/android/preference/fragment/editor/time/TimePeriodEditorFragment.kt:196-231 | back at END_TIME calls `toEndTime` and opens yet another END_TIME step (an observed quirk) |
| TimePeriodEditorFragment.EndResultForwardsOnlyOk | lib/src/main/java/net/imoya/android/preference/fragment/editor/time/TimePeriodEditorFragment.kt:136-146 | the END_TIME result always overwrites the end (with `timePeriodForNull`'s end when it carries none), keeps the start, and reaches the host exactly when it is RESULT_OK |
| TimePeriodEditorFragment.WizardCommitsPickedEnd | lib/src/main/java/net/imoya/android/preference/fragment/editor/time/TimePeriodEditorFragment.kt:136-242 | OK at START_TIME, a picker turn and OK at END_TIME make the host receive RESULT_OK with the original start and the picked end |
| TimePeriodEditorFragment.ReturnToStartKeepsPickedEnd | lib/src/main/java/net/imoya/android/preference/fragment/editor/time/TimePeriodEditorFragment.kt:136-212 | leaving END_TIME with its cancel button keeps the picked end at START_TIME and sends nothing to the host |
| TimePeriodEditorFragment.EditorFragment.constructor | lib/src/main/java/net/imoya/android/preference/fragment/editor/time/TimePeriodEditorFragment.kt:72-87 | a created fragment holds its state and has sent nothing |
| TimePeriodEditorFragment.EditorFragment.OnTimeChanged | lib/src/main/java/net/imoya/android/preference/fragment/editor/time/TimePeriodEditorFragment.kt:175-186 | the in-place update equals `TimeChanged` |
| TimePeriodEditorFragment.EditorFragment.ToStartTime | lib/src/main/java/net/imoya/android/preference/fragment/editor/time/TimePeriodEditorFragment.kt:206-212 | sends RESULT_CANCELED with the period (`BackToStart`) |
| TimePeriodEditorFragment.EditorFragment.ToEndTime | lib/src/main/java/net/imoya/android/preference/fragment/editor/time/TimePeriodEditorFragment.kt:217-231 | starts an END_TIME fragment whose arguments hold the period (`OpenEnd`) |
| TimePeriodEditorFragment.EditorFragment.Complete | lib/src/main/java/net/imoya/android/preference/fragment/editor/time/TimePeriodEditorFragment.kt:236-242 | sends RESULT_OK with the period (`Completed`) |
| TimePeriodEditorFragment.EditorFragment.Cancel | lib/src/main/java/net/imoya/android/preference/fragment/editor/time/TimePeriodEditorFragment.kt:247-253 | sends RESULT_CANCELED with the period (`Cancelled`) |
| TimePeriodEditorFragment.EditorFragment.OnClickOkButton | lib/src/main/java/net/imoya/android/preference/fragment/editor/time/TimePeriodEditorFragment.kt:189-194 | the in-place update equals `ClickOk`, whose effect `OkAtStart` and `OkAtEnd` state |
| TimePeriodEditorFragment.EditorFragment.OnClickBackButton | lib/src/main/java/net/imoya/android/preference/fragment/editor/time/TimePeriodEditorFragment.kt:196-201 | the in-place update equals `ClickBack`, whose effect `BackAtStart` and `BackAtEndOpensEndStep` state |
| TimePeriodEditorFragment.EditorFragment.OnEndTimeResult | lib/src/main/java/net/imoya/android/preference/fragment/editor/time/TimePeriodEditorFragment.kt:136-146 | the in-place update equals `EndResult`, whose effect `EndResultForwardsOnlyOk` states |
| TimePeriodFragmentEditor.SetupTimePeriod | lib/src/main/java/net/imoya/android/preference/controller/editor/time/TimePeriodFragmentEditor.kt:69-76 | null without preferences or key; otherwise what `TimePeriodPreferenceUtil.getTimePeriod` reads, with null for its exception; a period read is valid |
| TimePeriodFragmentEditor.TimePeriodForNull | lib/src/main/java/net/imoya/android/preference/controller/editor/time/TimePeriodFragmentEditor.kt:77-78 | both ends are `timeForNull` |
| TimePeriodFragmentEditor.CommittedPeriodReadsBack | lib/src/main/java/net/imoya/android/preference/controller/editor/time/TimePeriodFragmentEditor.kt:63-111 | what an OK result commits is what the next `setupState` reads |
| TimePeriodFragmentEditor.Editor.SetupState | lib/src/main/java/net/imoya/android/preference/controller/editor/time/TimePeriodFragmentEditor.kt:63-79 | the session gets the view's key, the period `SetupTimePeriod` reads, and `(timeForNull, timeForNull)` |
| TimePeriodFragmentEditor.Editor.OnEditorResult | lib/src/main/java/net/imoya/android/preference/controller/editor/time/TimePeriodFragmentEditor.kt:96-111 | no preferences or key is an IllegalStateException; RESULT_OK with a period stores its `toString`; RESULT_OK without one removes the key; any other result leaves the store unchanged |
| TimePeriodPreferenceEditorOld.StoredTimePeriod | lib/src/main/java/net/imoya/android/preference/controller/TimePeriodPreferenceEditorOld.kt:149-156 | the parsed stored period when there is one, the default period for a missing, non-string or unparseable value; always valid |
| TimePeriodPreferenceEditorOld.StoredTimePeriodFallsBackToDefault | lib/src/main/java/net/imoya/android/preference/controller/TimePeriodPreferenceEditorOld.kt:149-156 | it equals `TimePeriodPreferenceUtil.getTimePeriod` with the default in place of null or an exception |
| TimePeriodPreferenceEditorOld.SavedPeriodReadsBack | lib/src/main/java/net/imoya/android/preference/controller/TimePeriodPreferenceEditorOld.kt:236-241 | the text the end dialog's OK stores is what the next session starts from |
| TimePeriodPreferenceEditorOld.PickedTime | lib/src/main/java/net/imoya/android/preference/controller/TimePeriodPreferenceEditorOld.kt:209-213 | the dialog's hour and minute, 0 for a missing extra, at second 0 |
| TimePeriodPreferenceEditorOld.Editor.SetupState | lib/src/main/java/net/imoya/android/preference/controller/TimePeriodPreferenceEditorOld.kt:140-147 | without preferences an IllegalStateException with no period; otherwise the session holds `StoredTimePeriod` for the key |
| TimePeriodPreferenceEditorOld.Editor.OnDialogResult | lib/src/main/java/net/imoya/android/preference/controller/TimePeriodPreferenceEditorOld.kt:205-241 | start code: true, and an OK with data sets the start and shows the end dialog from the current end; end code: true, and an OK with data sets the end and stores `toString`, anything else shows the start dialog and writes nothing; other codes: false, no effect; the exceptions of a null session, parent or store |
| PreferenceScreenController.Assign | lib/src/main/java/net/imoya/android/preference/controller/PreferenceScreenController.kt:107-122 | the editor is given the controller's `SharedPreferences`; a dialog editor's request code and a fragment editor's request key are the size before the insert + 1; its kind, views and instance state are kept |
| PreferenceScreenController.Register | lib/src/main/java/net/imoya/android/preference/controller/PreferenceScreenController.kt:107-122 | the table stays a valid insertion-ordered map; the tag maps to the numbered editor; a new tag goes last, a re-used tag keeps its place |
| PreferenceScreenController.FindFrom | lib/src/main/java/net/imoya/android/preference/controller/PreferenceScreenController.kt:168 | the first position in insertion order whose editor matches, or none when none does |
| PreferenceScreenController.Find | lib/src/main/java/net/imoya/android/preference/controller/PreferenceScreenController.kt:167-171 | the first registered tag, in insertion order, whose editor matches; nothing exactly when no editor matches |
| PreferenceScreenController.Restored | lib/src/main/java/net/imoya/android/preference/controller/PreferenceScreenController.kt:143-156 | restoring never adds or drops an editor |
| PreferenceScreenController.SavedEntries | lib/src/main/java/net/imoya/android/preference/controller/PreferenceScreenController.kt:316-323 | saving puts every screen editor's state under its tag and leaves every other entry of the bundle as it was |
| PreferenceScreenController.RestoredEntries | lib/src/main/java/net/imoya/android/preference/controller/PreferenceScreenController.kt:143-156 | restoring gives every screen editor the bundle's entry under its tag, null when missing, and leaves other editors alone |
| PreferenceScreenController.SaveRestore | lib/src/main/java/net/imoya/android/preference/controller/PreferenceScreenController.kt:143-323 | save then restore returns every editor exactly as it was |
| PreferenceScreenController.FreshRegistrationKeepsCodesDistinct | lib/src/main/java/net/imoya/android/preference/controller/PreferenceScreenController.kt:107-122 | while every tag is new, dialog editors' request codes stay distinct and within 1..size |
| PreferenceScreenController.DistinctCodesReachTheirEditor | lib/src/main/java/net/imoya/android/preference/controller/PreferenceScreenController.kt:325-333 | with distinct codes, a result for a dialog editor's code is dispatched to that editor |
| PreferenceScreenController.ReRegistrationSharesCode | lib/src/main/java/net/imoya/android/preference/controller/PreferenceScreenController.kt:107-122 | re-registering a tag (as `setupDefaultEditors` does at lines 283-284) keeps the size, so the next new dialog editor gets the same code, and its results go to the earlier one |
| PreferenceScreenController.ScreenController.RegisterEditor | lib/src/main/java/net/imoya/android/preference/controller/PreferenceScreenController.kt:95-122 | without preferences an IllegalStateException and no change; otherwise the table becomes `Register(table, tag, editor, preferences)`, so the stored editor holds the controller's preferences |
| PreferenceScreenController.ScreenController.FindEditor | lib/src/main/java/net/imoya/android/preference/controller/PreferenceScreenController.kt:131-133 | the editor under the tag, or null exactly when the tag is not registered |
| PreferenceScreenController.ScreenController.SetupPreferenceView | lib/src/main/java/net/imoya/android/preference/controller/PreferenceScreenController.kt:167-205 | binds the first compatible editor and appends the view, or an IllegalArgumentException with no change when none is compatible |
| PreferenceScreenController.ScreenController.SetupPreferenceViewWithTag | lib/src/main/java/net/imoya/android/preference/controller/PreferenceScreenController.kt:185-205 | an unknown tag is an IllegalArgumentException with no change; otherwise the view is appended |
| PreferenceScreenController.ScreenController.RestoreEditorState | lib/src/main/java/net/imoya/android/preference/controller/PreferenceScreenController.kt:143-156 | a null bundle changes nothing; otherwise the loop leaves exactly the editors `Restored` describes |
| PreferenceScreenController.ScreenController.OnSaveInstanceState | lib/src/main/java/net/imoya/android/preference/controller/PreferenceScreenController.kt:316-323 | the loop produces exactly the bundle `Saved` describes |
| PreferenceScreenController.ScreenController.OnDialogResult | lib/src/main/java/net/imoya/android/preference/controller/PreferenceScreenController.kt:325-333 | the loop with its early exit stops at the first dialog editor, in registration order, that claims the code |
| PreferenceScreenController.ScreenController.OnDestroy | lib/src/main/java/net/imoya/android/preference/controller/PreferenceScreenController.kt:308-310 | the editor table is emptied and the views kept |
| PreferenceScreenController.ScreenController.OnDestroyViews | lib/src/main/java/net/imoya/android/preference/controller/PreferenceScreenController.kt:312-314 | the view list is emptied and the editors kept |
| DialogPreferenceEditor.DialogResult | lib/src/main/java/net/imoya/android/preference/controller/DialogPreferenceEditor.java:64-79 | saves exactly for its own code with an OK result, data and a session; returns true exactly for its own code, except an OK result with data and no session |
| DialogPreferenceEditor.Editor.OnDialogResult | lib/src/main/java/net/imoya/android/preference/controller/DialogPreferenceEditor.java:64-87 | returns what `DialogResult` says and calls `saveInput` once exactly when it says so |
| DialogEditor.SavesInput | lib/src/main/java/net/imoya/android/preference/controller/editor/DialogEditor.kt:127-132 | input is saved exactly for results other than RESULT_CANCELED, so always for RESULT_OK |
| DialogEditor.Editor.OnEditorResult | lib/src/main/java/net/imoya/android/preference/controller/editor/DialogEditor.kt:127-132 | calls `saveInput` once exactly when `SavesInput` holds |
| DialogEditor.Editor.OnDialogResult | lib/src/main/java/net/imoya/android/preference/controller/editor/DialogEditor.kt:102-111 | true exactly for its own request code, and then saves unless cancelled; a mismatched code has no effect |
| DialogEditor.Editor.CheckParent | lib/src/main/java/net/imoya/android/preference/controller/editor/DialogEditor.kt:140-142 | an IllegalStateException exactly when no parent is set, else the parent |

## Left out

- Parcel and Bundle serialisation (`writeToParcel`, `createFromParcel`) is not modelled; saved states are opaque values. The byte truncation in `Time.writeToParcel` is therefore not captured.
- `Integer.parseInt` accepts only ASCII digits here; Java's `Character.digit` also accepts other Unicode decimal digits.
- `Locale.US` in `String.format` is implicit: formatting always uses ASCII digits.
- Logging (`PreferenceLog`, `Log`) is left out. `checkAndWarnRequestCode` only logs.
- `SharedPreferences.apply()` is asynchronous; here every edit is applied at once.
- `hashCode` of the legacy `Time` and `TimePeriod` is left out; it is used by no modelled operation.
- Identity and aliasing of `TimePeriod` objects between the START_TIME and END_TIME fragments, and between an activity and its intent, are not modelled. Periods are values, copied where the code hands them on.
- Layout, action bars, menus, titles, `is24HourView` / `show24Hour` and the text of buttons are UI only.
- `TimePeriodInputActivity.InputActivity.OnOptionsItemSelectedOk`: requires the wizard invariant `Valid`, which `Launch` establishes and every event keeps. The RuntimeException of `currentTime` when no picker is shown is therefore not modelled.
- `TimePeriodInputActivity.InputActivity.OnSupportNavigateUp`: requires `Valid` too. The framework's back stack is assumed to pop one picker, and the return value of `super.onSupportNavigateUp()` is not modelled.
- `TimePeriodInputActivity.InputActivity.OnTimeChanged`: requires `Valid` too, so a picker is displayed.
- The system Back key of `TimePeriodInputActivity` is not modelled. The activity overrides only `onSupportNavigateUp`. If the base activity does not handle Back, the framework pops the END picker while `inputStep` stays END, which leaves the wizard invariant. `StepKeepsValid` and `RunKeepsValid` cover only Turn, OK and Up events.
- The base activity's `replaceTo` and `super.onOptionsItemSelected` are external; `replaceTo` is modelled as pushing one picker.
- `TimePeriodEditorFragment.EditorFragment.constructor` takes the state `CreatedState` produced. When `CreatedState` is an error, `onCreate` throws and there is no fragment.
- The fragments' `RoundTripManager`, `returnToHost` and `setResultListener` are external; they are modelled as the messages a fragment sends.
- The fragment's editor state bundle (`editorState`: title, key, `is24hourView`) is not modelled, except for `timePeriod` and `timePeriodForNull`.
- `TimePeriodFragmentEditor.startEditorUI` and `createState` only start the UI.
- `PreferenceScreenController`: `commitSetupPreferenceViews`, the updater, `onCreate` / `onResume` / `onPause` and `setupDefaultEditors` are left out. The double registration at lines 283-284 of `setupDefaultEditors` is covered by `ReRegistrationSharesCode`.
- The collaborators `attach`, `registerDialogCallback` and `registerFragmentCallback`, and the assignment of `parent` and `roundTripManager` to editors, are external.
- `PreferenceScreenController.Assign`: request codes are unbounded integers, so the 32-bit overflow of `editors.size + 1` is not modelled.
- `DialogUtil.getRequestKey(n)` is represented by the number `n` it is made from.
- `PreferenceScreenController.ScreenController.OnDialogResult`: returns the tag of the editor that takes the result. It does not perform that editor's own `onDialogResult`, which `DialogEditor.Editor.OnDialogResult` models. It also assumes the base rule that a dialog editor claims exactly its own request code; overrides of `onDialogResult` in subclasses are not modelled.
- `DialogPreferenceEditor.Editor.OnDialogResult` and `DialogEditor.Editor.OnEditorResult`: `saveInput` is abstract in both classes, so the model records each call, with its arguments, instead of performing it.
- `TimePeriodPreferenceEditorOld`: the `listener?.onEdit` call in `saveInput` is left out.
- The dialogs of `TimePeriodPreferenceEditorOld` are external. A shown dialog is recorded with the hour, minute and request code it is given, and its result extras are the optional hour and minute of `TimeInput`.
- `TimePeriodPreferenceEditorOld.Editor.SetupState`: `super.setupState` is taken to start a new session for the view's key, as the base class does.
- The Kotlin generic `saveInput` overloads of `ListEditorUtil` that take a `saveValue` callback are modelled by the decisions `SelectionAction` and `CheckedAction`. The concrete overloads call them.
- `MultiSelectionStringListView.GetCheckedList` takes `entries.size` as the parameter `entriesCount`; the view attributes it comes from are not modelled.

## Findings

| source | as written | input that shows it | evidently intended | confidence | as-written member | corrected member |
|---|---|---|---|---|---|---|
| lib/src/main/java/net/imoya/android/preference/model/TimePeriod.java:146-182 | `isInPeriod(hourOfDay, minute)` refuses only hour > 23 or minute > 59. The documented "undefined" time (negative hour or minute) then goes through the minute-total comparison. | period 22:00-6:00, time (-1, -1): the target is -61 and -61 <= 360, so the result is true | an undefined time is never in the period (false), as the method's documentation says | not executed | LegacyTimePeriodModel.UndefinedTimeInsideWrappingPeriod | LegacyTimePeriodModel.IsInPeriod |
