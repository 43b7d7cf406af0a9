/**
 * activity/TimePeriodInputActivity.kt: a two-step wizard that picks the start
 * time, then the end time, on a time picker, and returns the period to its
 * caller only when OK is chosen on the end step.
 *
 * The activity is described twice: `Screen` and the transition functions say what
 * each event does to the whole activity, and the class `InputActivity` holds the
 * same fields and performs the events in place, each method proved to match its
 * transition function.
 */
module TimePeriodInputActivity {
  import opened Wrappers
  import opened Text
  import opened Platform
  import TimeModel
  import TimePeriodModel

  /** `InputStep`: which end of the period the displayed picker edits. */
  datatype InputStep = Start | End

  /** The hour and minute a time picker fragment shows. */
  datatype Picker = Picker(hour: Int32, minute: Int32)

  /**
   * The activity at one moment: its `State` (the period being edited and the
   * step), the fragment back stack of time pickers (the last one is displayed),
   * and the result it has set.
   */
  datatype Screen = Screen(
    timePeriod: TimePeriodModel.TimePeriod,
    inputStep: InputStep,
    pickers: seq<Picker>,
    resultCode: Int32,
    resultData: Option<TimePeriodModel.TimePeriod>,
    finished: bool)

  /** What `onSaveInstanceState` keeps: the activity's `State`, and the back stack the framework keeps itself. */
  datatype SavedState = SavedState(timePeriod: TimePeriodModel.TimePeriod, inputStep: InputStep, pickers: seq<Picker>)

  /**
   * The invariant of the wizard: the start step shows the root picker and the end
   * step one picker pushed on it; once past the start step the start time has
   * whole minutes; a result is either CANCELED without data or OK with a period
   * of whole minutes, set only when finishing.
   */
  predicate Valid(s: Screen) {
    1 <= |s.pickers| <= 2 &&
    (s.inputStep == Start <==> |s.pickers| == 1) &&
    (s.inputStep == End ==> s.timePeriod.start.second == 0) &&
    (s.resultCode == RESULT_CANCELED || s.resultCode == RESULT_OK) &&
    (s.resultCode == RESULT_OK <==> s.resultData.Some?) &&
    (s.resultData.Some? ==>
       s.finished && s.resultData.value.start.second == 0 && s.resultData.value.end.second == 0)
  }

  function PickerOf(t: TimeModel.Time): Picker {
    Picker(t.hour, t.minute)
  }

  /** The displayed picker's time, `currentTime`, at second 0. */
  function CurrentTime(s: Screen): TimeModel.Time
    requires |s.pickers| > 0
  {
    var p := s.pickers[|s.pickers| - 1];
    TimeModel.Time(p.hour, p.minute, 0)
  }

  /**
   * `onCreate(null)`: a fresh `State` at START holding the period passed in the
   * launch intent (copied) or the default period, the root picker showing its
   * start, and the result RESULT_CANCELED.
   */
  function Launch(intentPeriod: Option<TimePeriodModel.TimePeriod>): (s: Screen)
    ensures Valid(s) && s.inputStep == Start && !s.finished
    ensures s.timePeriod == if intentPeriod.Some? then intentPeriod.value else TimePeriodModel.DEFAULT_PERIOD
    ensures s.resultCode == RESULT_CANCELED && s.resultData.None?
    ensures s.pickers == [PickerOf(s.timePeriod.start)]
  {
    var p := if intentPeriod.Some? then intentPeriod.value else TimePeriodModel.DEFAULT_PERIOD;
    Screen(p, Start, [PickerOf(p.start)], RESULT_CANCELED, None, false)
  }

  /** `onSaveInstanceState(outState)`. */
  function Save(s: Screen): SavedState {
    SavedState(s.timePeriod, s.inputStep, s.pickers)
  }

  /** `onCreate(savedInstanceState)`: the saved `State` and back stack come back, and the result is RESULT_CANCELED again. */
  function Restore(saved: SavedState): Screen {
    Screen(saved.timePeriod, saved.inputStep, saved.pickers, RESULT_CANCELED, None, false)
  }

  /** The saved instance state brings back the period, the step and the pickers, and a valid wizard stays valid. */
  lemma RestoreSaved(s: Screen)
    requires Valid(s)
    ensures var r := Restore(Save(s));
            Valid(r) && r.timePeriod == s.timePeriod && r.inputStep == s.inputStep && r.pickers == s.pickers
  {
  }

  /** The user turns the displayed picker. */
  function TurnPicker(s: Screen, hour: Int32, minute: Int32): (r: Screen)
    requires |s.pickers| > 0
    ensures r.timePeriod == s.timePeriod && r.inputStep == s.inputStep
    ensures |r.pickers| == |s.pickers| && r.pickers[..|r.pickers| - 1] == s.pickers[..|s.pickers| - 1]
    ensures CurrentTime(r) == TimeModel.Time(hour, minute, 0)
  {
    s.(pickers := s.pickers[|s.pickers| - 1 := Picker(hour, minute)])
  }

  /**
   * `onOptionsItemSelected(OK)`: at END the picked time becomes the end and the
   * whole period is returned with RESULT_OK; at START the picked time becomes the
   * start, the step becomes END and a picker showing the current end is pushed.
   */
  function SelectOk(s: Screen): Screen
    requires |s.pickers| > 0
  {
    var picked := CurrentTime(s);
    if s.inputStep == End then
      var p := s.timePeriod.(end := picked);
      s.(timePeriod := p, resultCode := RESULT_OK, resultData := Some(p), finished := true)
    else
      var p := s.timePeriod.(start := picked);
      s.(timePeriod := p, inputStep := End, pickers := s.pickers + [PickerOf(p.end)])
  }

  /**
   * `onSupportNavigateUp()`: with an empty back stack the activity finishes with
   * the result it has (RESULT_CANCELED); otherwise, at END, the picked time is kept
   * as the end and the step returns to START, and the back stack is popped.
   */
  function NavigateUp(s: Screen): Screen
    requires |s.pickers| > 0
  {
    if |s.pickers| == 1 then s.(finished := true)
    else
      var t := if s.inputStep == End then s.(timePeriod := s.timePeriod.(end := CurrentTime(s)), inputStep := Start)
               else s;
      t.(pickers := t.pickers[..|t.pickers| - 1])
  }

  /** OK at START stores the picked start, keeps the end, moves to END showing the current end, and sets no result. */
  lemma OkAtStart(s: Screen)
    requires Valid(s) && s.inputStep == Start
    ensures var r := SelectOk(s);
            r.timePeriod == TimePeriodModel.TimePeriod(CurrentTime(s), s.timePeriod.end) &&
            r.inputStep == End && CurrentTime(r) == s.timePeriod.end.(second := 0) &&
            r.resultCode == s.resultCode && r.resultData == s.resultData && r.finished == s.finished && Valid(r)
  {
  }

  /** OK at END stores the picked end and returns RESULT_OK with the whole period, start unchanged. */
  lemma OkAtEnd(s: Screen)
    requires Valid(s) && s.inputStep == End
    ensures var r := SelectOk(s);
            r.timePeriod == TimePeriodModel.TimePeriod(s.timePeriod.start, CurrentTime(s)) &&
            r.resultCode == RESULT_OK && r.resultData == Some(r.timePeriod) && r.finished && Valid(r)
  {
  }

  /** Up on the start step finishes the activity with RESULT_CANCELED and no data. */
  lemma UpAtStart(s: Screen)
    requires Valid(s) && s.inputStep == Start && s.resultCode == RESULT_CANCELED
    ensures var r := NavigateUp(s);
            r.finished && r.resultCode == RESULT_CANCELED && r.resultData.None? && r.timePeriod == s.timePeriod
  {
  }

  /** Up on the end step keeps the picked end, returns to START with the start picker, and leaves start unchanged. */
  lemma UpAtEnd(s: Screen)
    requires Valid(s) && s.inputStep == End
    ensures var r := NavigateUp(s);
            r.timePeriod == TimePeriodModel.TimePeriod(s.timePeriod.start, CurrentTime(s)) &&
            r.inputStep == Start && r.pickers == s.pickers[..1] && Valid(r)
  {
  }

  /** What the user can do: turn the displayed picker, choose OK, or navigate up. */
  datatype Event = Turn(hour: Int32, minute: Int32) | Ok | Up

  function Step(s: Screen, e: Event): Screen
    requires |s.pickers| > 0
  {
    match e
    case Turn(h, m) => TurnPicker(s, h, m)
    case Ok => SelectOk(s)
    case Up => NavigateUp(s)
  }

  /** Every event keeps the wizard valid. */
  lemma StepKeepsValid(s: Screen, e: Event)
    requires Valid(s)
    ensures |Step(s, e).pickers| > 0 && Valid(Step(s, e))
  {
    match e
    case Turn(h, m) =>
    case Ok => OkAtStartOrEnd(s);
    case Up =>
  }

  lemma OkAtStartOrEnd(s: Screen)
    requires Valid(s)
    ensures Valid(SelectOk(s))
  {
    if s.inputStep == Start {
      OkAtStart(s);
    } else {
      OkAtEnd(s);
    }
  }

  /** The activity after a run of events, starting from `s`. */
  function Run(s: Screen, events: seq<Event>): Screen
    requires Valid(s)
    decreases |events|
  {
    if |events| == 0 then s
    else
      StepKeepsValid(s, events[0]);
      Run(Step(s, events[0]), events[1..])
  }

  /** Any run of events from a launch stays valid. */
  lemma {:induction false} RunKeepsValid(s: Screen, events: seq<Event>)
    requires Valid(s)
    ensures Valid(Run(s, events))
    decreases |events|
  {
    if |events| > 0 {
      StepKeepsValid(s, events[0]);
      RunKeepsValid(Step(s, events[0]), events[1..]);
    }
  }

  /** Whatever the user does, a returned period has whole minutes: both seconds are 0. */
  lemma CommittedPeriodHasWholeMinutes(intentPeriod: Option<TimePeriodModel.TimePeriod>, events: seq<Event>)
    ensures var r := Run(Launch(intentPeriod), events);
            r.resultCode == RESULT_OK ==>
              r.resultData.Some? && r.resultData.value.start.second == 0 && r.resultData.value.end.second == 0
  {
    RunKeepsValid(Launch(intentPeriod), events);
  }

  /** The activity itself: the same fields, updated in place by its event handlers. */
  class InputActivity {
    var timePeriod: TimePeriodModel.TimePeriod
    var inputStep: InputStep
    var pickers: seq<Picker>
    var resultCode: Int32
    var resultData: Option<TimePeriodModel.TimePeriod>
    var finished: bool

    function Snapshot(): Screen
      reads this
    {
      Screen(timePeriod, inputStep, pickers, resultCode, resultData, finished)
    }

    /** `onCreate(null)` with the launch intent's period, if any. */
    constructor Create(intentPeriod: Option<TimePeriodModel.TimePeriod>)
      ensures Snapshot() == Launch(intentPeriod)
    {
      var period := TimePeriodModel.DEFAULT_PERIOD;
      if intentPeriod.Some? {
        period := intentPeriod.value;
      }
      timePeriod, inputStep := period, Start;
      pickers := [PickerOf(period.start)];
      resultCode, resultData, finished := RESULT_CANCELED, None, false;
    }

    /** `onCreate(savedInstanceState)` with a saved state. */
    constructor Recreate(saved: SavedState)
      ensures Snapshot() == Restore(saved)
    {
      timePeriod, inputStep, pickers := saved.timePeriod, saved.inputStep, saved.pickers;
      resultCode, resultData, finished := RESULT_CANCELED, None, false;
    }

    /** `onSaveInstanceState(outState)`. */
    method OnSaveInstanceState() returns (saved: SavedState)
      ensures saved == Save(Snapshot())
    {
      saved := SavedState(timePeriod, inputStep, pickers);
    }

    /** The user turns the displayed picker. */
    method OnTimeChanged(hour: Int32, minute: Int32)
      requires Valid(Snapshot())
      modifies this
      ensures Snapshot() == TurnPicker(old(Snapshot()), hour, minute)
    {
      pickers := pickers[|pickers| - 1 := Picker(hour, minute)];
    }

    /** `onOptionsItemSelected(item)` for the OK item. */
    method OnOptionsItemSelectedOk()
      requires Valid(Snapshot())
      modifies this
      ensures Snapshot() == SelectOk(old(Snapshot()))
    {
      var current := pickers[|pickers| - 1];
      var picked := TimeModel.Time(current.hour, current.minute, 0);
      if inputStep == End {
        timePeriod := timePeriod.(end := picked);
        resultCode, resultData := RESULT_OK, Some(timePeriod);
        finished := true;
      } else {
        timePeriod := timePeriod.(start := picked);
        inputStep := End;
        pickers := pickers + [PickerOf(timePeriod.end)];
      }
    }

    /** `onSupportNavigateUp()`. */
    method OnSupportNavigateUp()
      requires Valid(Snapshot())
      modifies this
      ensures Snapshot() == NavigateUp(old(Snapshot()))
    {
      if |pickers| == 1 {
        finished := true;
        return;
      }
      if inputStep == End {
        var current := pickers[|pickers| - 1];
        timePeriod := timePeriod.(end := TimeModel.Time(current.hour, current.minute, 0));
        inputStep := Start;
      }
      pickers := pickers[..|pickers| - 1];
    }
  }
}
