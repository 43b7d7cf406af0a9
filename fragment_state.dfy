/**
 * model/state/time/TimePeriodEditorFragmentState.kt: the period being edited and
 * the wizard step, and how they are written to and read from a `Bundle`.
 */
module TimePeriodEditorFragmentState {
  import opened Wrappers
  import opened Text
  import TimePeriodModel

  /** The editing step: START_TIME(0) or END_TIME(1). */
  datatype Step = StartTime | EndTime

  function StepValue(s: Step): Int32 {
    match s
    case StartTime => 0
    case EndTime => 1
  }

  /** `Step.from(value)`: the step with that value, else an IllegalArgumentException. */
  function StepFrom(value: Int32): (r: Result<Step>)
    ensures r.Ok? ==> StepValue(r.value) == value
    ensures r.Err? <==> value != 0 && value != 1
    ensures r.Err? ==> r.error == IllegalArgument
  {
    if value == 0 then Ok(StartTime)
    else if value == 1 then Ok(EndTime)
    else Err(IllegalArgument)
  }

  /** `Step.from(s.value) == s`. */
  lemma StepFromValue(s: Step)
    ensures StepFrom(StepValue(s)) == Ok(s)
  {
  }

  datatype FragmentState = FragmentState(timePeriod: TimePeriodModel.TimePeriod, step: Step)

  /** `TimePeriodEditorFragmentState(timePeriod)`: the step defaults to START_TIME. */
  function Create(timePeriod: TimePeriodModel.TimePeriod): (s: FragmentState)
    ensures s.step == StartTime && s.timePeriod == timePeriod
  {
    FragmentState(timePeriod, StartTime)
  }

  /**
   * The two entries of a state `Bundle`: the period under KEY_TIME_PERIOD and the
   * step value under KEY_STEP, either of which may be missing.
   */
  datatype StateBundle = StateBundle(timePeriod: Option<TimePeriodModel.TimePeriod>, step: Option<Int32>)

  /** `toBundle()`. */
  function ToBundle(s: FragmentState): (b: StateBundle)
    ensures b.timePeriod == Some(s.timePeriod)
    ensures b.step.Some? && StepFrom(b.step.value) == Ok(s.step)
  {
    StateBundle(Some(s.timePeriod), Some(StepValue(s.step)))
  }

  /**
   * `TimePeriodEditorFragmentState(bundle)`: a missing period is an
   * IllegalArgumentException; a missing step reads as 0 (`getInt`), so START_TIME.
   */
  function FromBundle(b: StateBundle): (r: Result<FragmentState>)
    ensures b.timePeriod.None? ==> r == Err(IllegalArgument)
    ensures b.timePeriod.Some? && b.step.None? ==> r == Ok(FragmentState(b.timePeriod.value, StartTime))
    ensures r.Ok? ==> r.value.timePeriod == b.timePeriod.value
  {
    match b.timePeriod
    case None => Err(IllegalArgument)
    case Some(p) =>
      var value := if b.step.Some? then b.step.value else 0;
      match StepFrom(value)
      case Ok(step) => Ok(FragmentState(p, step))
      case Err(e) => Err(e)
  }

  /** Bundle round trip: reading back what `toBundle` wrote gives the same state. */
  lemma FromToBundle(s: FragmentState)
    ensures FromBundle(ToBundle(s)) == Ok(s)
  {
  }
}
