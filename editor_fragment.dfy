/**
 * fragment/editor/time/TimePeriodEditorFragment.kt: the fragment wizard. A
 * fragment at the START_TIME step edits the start and opens a second fragment at
 * the END_TIME step; that one edits the end and reports back; only its OK result
 * goes on to the host.
 *
 * `Fragment` and the transition functions describe each event; the class
 * `EditorFragment` performs them in place and is proved to match them.
 */
module TimePeriodEditorFragment {
  import opened Wrappers
  import opened Text
  import opened Platform
  import TimeModel
  import TimePeriodModel
  import opened TimePeriodEditorFragmentState

  /** What a fragment sends out: a result bundle for its host, or the END_TIME fragment it starts with its arguments. */
  datatype Message =
    | ReturnToHost(resultCode: Int32, selectedTimePeriod: Option<TimePeriodModel.TimePeriod>)
    | OpenEndStep(arguments: FragmentState)

  /** A fragment: its `fragmentState`, the editor state's `timePeriodForNull`, and what it has sent so far. */
  datatype Fragment = Fragment(state: FragmentState, timePeriodForNull: TimePeriodModel.TimePeriod, sent: seq<Message>)

  /**
   * The state `onCreate` sets up: the state bundle of the saved instance state,
   * else of the arguments, else a new state at START_TIME holding the editor's
   * period or, when it has none, `timePeriodForNull`.
   */
  function CreatedState(saved: Option<StateBundle>, arguments: Option<StateBundle>,
                        timePeriod: Option<TimePeriodModel.TimePeriod>,
                        timePeriodForNull: TimePeriodModel.TimePeriod): (r: Result<FragmentState>)
    ensures saved.Some? ==> r == FromBundle(saved.value)
    ensures saved.None? && arguments.Some? ==> r == FromBundle(arguments.value)
    ensures saved.None? && arguments.None? ==>
              r == Ok(FragmentState(if timePeriod.Some? then timePeriod.value else timePeriodForNull, StartTime))
  {
    var bundle := if saved.Some? then saved else arguments;
    if bundle.Some? then FromBundle(bundle.value)
    else Ok(Create(if timePeriod.Some? then timePeriod.value else timePeriodForNull))
  }

  /** The time-changed listener: the picked hour and minute go into the start or the end, by step. */
  function TimeChanged(f: Fragment, hourOfDay: Int32, minute: Int32): Fragment {
    var p := f.state.timePeriod;
    match f.state.step
    case StartTime => f.(state := f.state.(timePeriod := p.(start := p.start.(hour := hourOfDay, minute := minute))))
    case EndTime => f.(state := f.state.(timePeriod := p.(end := p.end.(hour := hourOfDay, minute := minute))))
  }

  /** `toStartTime()`: report RESULT_CANCELED with the period, so the START_TIME fragment shows again. */
  function BackToStart(f: Fragment): Fragment {
    f.(sent := f.sent + [ReturnToHost(RESULT_CANCELED, Some(f.state.timePeriod))])
  }

  /** `toEndTime()`: start an END_TIME fragment whose arguments hold this period. */
  function OpenEnd(f: Fragment): Fragment {
    f.(sent := f.sent + [OpenEndStep(FragmentState(f.state.timePeriod, EndTime))])
  }

  /** `complete()`: report RESULT_OK with the period. */
  function Completed(f: Fragment): Fragment {
    f.(sent := f.sent + [ReturnToHost(RESULT_OK, Some(f.state.timePeriod))])
  }

  /** `cancel()`: report RESULT_CANCELED with the period. */
  function Cancelled(f: Fragment): Fragment {
    f.(sent := f.sent + [ReturnToHost(RESULT_CANCELED, Some(f.state.timePeriod))])
  }

  /** `onClickOkButton()`. */
  function ClickOk(f: Fragment): Fragment {
    match f.state.step
    case StartTime => OpenEnd(f)
    case EndTime => Completed(f)
  }

  /** `onClickBackButton()`: at END_TIME it calls `toEndTime()`, as written. */
  function ClickBack(f: Fragment): Fragment {
    match f.state.step
    case StartTime => Cancelled(f)
    case EndTime => OpenEnd(f)
  }

  /**
   * The START_TIME fragment's listener for the END_TIME result: the end becomes
   * the result's end (or `timePeriodForNull`'s end when it carries no period), and
   * the result bundle is forwarded to the host only when it is RESULT_OK.
   */
  function EndResult(f: Fragment, resultCode: Int32, selected: Option<TimePeriodModel.TimePeriod>): Fragment {
    var end := if selected.Some? then selected.value.end else f.timePeriodForNull.end;
    var g := f.(state := f.state.(timePeriod := f.state.timePeriod.(end := end)));
    if resultCode == RESULT_OK then g.(sent := g.sent + [ReturnToHost(resultCode, selected)]) else g
  }

  /** A picker change writes the side of the current step and leaves the other side and the step alone. */
  lemma TimeChangedWritesOneSide(f: Fragment, hourOfDay: Int32, minute: Int32)
    ensures var g := TimeChanged(f, hourOfDay, minute);
            var p, q := f.state.timePeriod, g.state.timePeriod;
            g.state.step == f.state.step && g.sent == f.sent &&
            (f.state.step == StartTime ==>
               q.end == p.end && q.start == TimeModel.Time(hourOfDay, minute, p.start.second)) &&
            (f.state.step == EndTime ==>
               q.start == p.start && q.end == TimeModel.Time(hourOfDay, minute, p.end.second))
  {
  }

  /** OK at START_TIME opens the END_TIME step with the same period and changes nothing here. */
  lemma OkAtStart(f: Fragment)
    requires f.state.step == StartTime
    ensures ClickOk(f) == f.(sent := f.sent + [OpenEndStep(FragmentState(f.state.timePeriod, EndTime))])
  {
  }

  /** OK at END_TIME returns RESULT_OK with the period. */
  lemma OkAtEnd(f: Fragment)
    requires f.state.step == EndTime
    ensures ClickOk(f) == f.(sent := f.sent + [ReturnToHost(RESULT_OK, Some(f.state.timePeriod))])
  {
  }

  /** Back at START_TIME cancels with RESULT_CANCELED. */
  lemma BackAtStart(f: Fragment)
    requires f.state.step == StartTime
    ensures ClickBack(f) == f.(sent := f.sent + [ReturnToHost(RESULT_CANCELED, Some(f.state.timePeriod))])
  {
  }

  /** Back at END_TIME does what OK at START_TIME does: it opens yet another END_TIME step. */
  lemma BackAtEndOpensEndStep(f: Fragment)
    requires f.state.step == EndTime
    ensures ClickBack(f) == OpenEnd(f) && ClickBack(f).sent[|f.sent|].OpenEndStep?
  {
  }

  /** The END_TIME result always overwrites the end, and only a RESULT_OK reaches the host. */
  lemma EndResultForwardsOnlyOk(f: Fragment, resultCode: Int32, selected: Option<TimePeriodModel.TimePeriod>)
    ensures var g := EndResult(f, resultCode, selected);
            g.state.timePeriod.start == f.state.timePeriod.start && g.state.step == f.state.step &&
            g.state.timePeriod.end == (if selected.Some? then selected.value.end else f.timePeriodForNull.end) &&
            (resultCode == RESULT_OK <==> g.sent == f.sent + [ReturnToHost(resultCode, selected)]) &&
            (resultCode != RESULT_OK <==> g.sent == f.sent)
  {
  }

  /**
   * The whole wizard: OK on the START_TIME fragment opens an END_TIME fragment
   * from its arguments; turning that picker to (h, m) and choosing OK returns a
   * period to the START_TIME fragment, which forwards RESULT_OK with the start it
   * had and the end as picked.
   */
  lemma {:induction false} WizardCommitsPickedEnd(f: Fragment, editorPeriod: Option<TimePeriodModel.TimePeriod>,
                                                  hourOfDay: Int32, minute: Int32)
    requires f.state.step == StartTime
    ensures var g := ClickOk(f);
            var arguments := g.sent[|g.sent| - 1].arguments;
            var created := CreatedState(None, Some(ToBundle(arguments)), editorPeriod, f.timePeriodForNull);
            created.Ok? &&
            var e := ClickOk(TimeChanged(Fragment(created.value, f.timePeriodForNull, []), hourOfDay, minute));
            var result := e.sent[|e.sent| - 1];
            var h := EndResult(g, result.resultCode, result.selectedTimePeriod);
            var p := f.state.timePeriod;
            var picked := TimePeriodModel.TimePeriod(p.start, p.end.(hour := hourOfDay, minute := minute));
            h.state.timePeriod == picked &&
            h.sent == f.sent + [OpenEndStep(FragmentState(p, EndTime)), ReturnToHost(RESULT_OK, Some(picked))]
  {
    var g := ClickOk(f);
    OkAtStart(f);
    var arguments := FragmentState(f.state.timePeriod, EndTime);
    assert g.sent[|g.sent| - 1].arguments == arguments;
    FromToBundle(arguments);
    var e0 := Fragment(arguments, f.timePeriodForNull, []);
    var e1 := TimeChanged(e0, hourOfDay, minute);
    OkAtEnd(e1);
  }

  /** Leaving the END_TIME step with its cancel button keeps the picked end and sends nothing to the host. */
  lemma {:induction false} ReturnToStartKeepsPickedEnd(f: Fragment, e: Fragment)
    requires f.state.step == StartTime
    ensures var result := BackToStart(e).sent[|e.sent|];
            var h := EndResult(f, result.resultCode, result.selectedTimePeriod);
            h.state.timePeriod == f.state.timePeriod.(end := e.state.timePeriod.end) && h.sent == f.sent
  {
  }

  /** The fragment itself: its `fragmentState` fields updated in place by its listeners. */
  class EditorFragment {
    var state: FragmentState
    var timePeriodForNull: TimePeriodModel.TimePeriod
    var sent: seq<Message>

    function Snapshot(): Fragment
      reads this
    {
      Fragment(state, timePeriodForNull, sent)
    }

    /** The fragment once `onCreate` has set up `state`, before it has sent anything. */
    constructor(state: FragmentState, timePeriodForNull: TimePeriodModel.TimePeriod)
      ensures Snapshot() == Fragment(state, timePeriodForNull, [])
    {
      this.state, this.timePeriodForNull, sent := state, timePeriodForNull, [];
    }

    /** The picker's `OnTimeChangedListener`. */
    method OnTimeChanged(hourOfDay: Int32, minute: Int32)
      modifies this
      ensures Snapshot() == TimeChanged(old(Snapshot()), hourOfDay, minute)
    {
      var p := state.timePeriod;
      match state.step {
        case StartTime =>
          state := state.(timePeriod := p.(start := p.start.(hour := hourOfDay, minute := minute)));
        case EndTime =>
          state := state.(timePeriod := p.(end := p.end.(hour := hourOfDay, minute := minute)));
      }
    }

    method ToStartTime()
      modifies this
      ensures Snapshot() == BackToStart(old(Snapshot()))
    {
      sent := sent + [ReturnToHost(RESULT_CANCELED, Some(state.timePeriod))];
    }

    method ToEndTime()
      modifies this
      ensures Snapshot() == OpenEnd(old(Snapshot()))
    {
      sent := sent + [OpenEndStep(FragmentState(state.timePeriod, EndTime))];
    }

    method Complete()
      modifies this
      ensures Snapshot() == Completed(old(Snapshot()))
    {
      sent := sent + [ReturnToHost(RESULT_OK, Some(state.timePeriod))];
    }

    method Cancel()
      modifies this
      ensures Snapshot() == Cancelled(old(Snapshot()))
    {
      sent := sent + [ReturnToHost(RESULT_CANCELED, Some(state.timePeriod))];
    }

    method OnClickOkButton()
      modifies this
      ensures Snapshot() == ClickOk(old(Snapshot()))
    {
      match state.step {
        case StartTime => ToEndTime();
        case EndTime => Complete();
      }
    }

    method OnClickBackButton()
      modifies this
      ensures Snapshot() == ClickBack(old(Snapshot()))
    {
      match state.step {
        case StartTime => Cancel();
        case EndTime => ToEndTime();
      }
    }

    /** The result listener for the END_TIME fragment. */
    method OnEndTimeResult(resultCode: Int32, selected: Option<TimePeriodModel.TimePeriod>)
      modifies this
      ensures Snapshot() == EndResult(old(Snapshot()), resultCode, selected)
    {
      var end := if selected.Some? then selected.value.end else timePeriodForNull.end;
      state := state.(timePeriod := state.timePeriod.(end := end));
      if resultCode == RESULT_OK {
        sent := sent + [ReturnToHost(resultCode, selected)];
      }
    }
  }
}
