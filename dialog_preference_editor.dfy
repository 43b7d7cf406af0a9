/**
 * controller/DialogPreferenceEditor.java: the legacy base of editors that show a
 * dialog and save its input. `onDialogResult` filters the result by request code
 * and hands an OK result with data to `saveInput`, unless the editing session
 * (`state`) is gone.
 */
module DialogPreferenceEditor {
  import opened Wrappers
  import opened Text
  import opened Platform

  /** What `onDialogResult` does with one result: what it returns, and whether it calls `saveInput`. */
  datatype Reaction = Reaction(handled: bool, saves: bool)

  /**
   * `onDialogResult(requestCode, resultCode, data)` for an editor whose code is
   * `ownCode` and whose session is present or not (`hasState`).
   */
  function DialogResult(ownCode: Int32, hasState: bool, requestCode: Int32, resultCode: Int32, hasData: bool): (r: Reaction)
    ensures r.saves <==> requestCode == ownCode && resultCode == RESULT_OK && hasData && hasState
    ensures r.handled <==> requestCode == ownCode && !(resultCode == RESULT_OK && hasData && !hasState)
  {
    if requestCode != ownCode then Reaction(false, false)
    else if resultCode == RESULT_OK && hasData then
      if !hasState then Reaction(false, false) else Reaction(true, true)
    else Reaction(true, false)
  }

  /** One call of `saveInput(resultCode, data)`. */
  datatype SaveCall = SaveCall(resultCode: Int32, data: Intent)

  /** An editor: its request code, whether its session `state` is set, and the `saveInput` calls made so far. */
  class Editor {
    const requestCode: Int32
    var hasState: bool
    var saveCalls: seq<SaveCall>

    constructor(requestCode: Int32, hasState: bool)
      ensures this.requestCode == requestCode && this.hasState == hasState && saveCalls == []
    {
      this.requestCode, this.hasState, saveCalls := requestCode, hasState, [];
    }

    /** `onDialogResult(requestCode, resultCode, data)`. */
    method OnDialogResult(requestCode: Int32, resultCode: Int32, data: Option<Intent>) returns (handled: bool)
      modifies this
      ensures hasState == old(hasState)
      ensures var r := DialogResult(this.requestCode, hasState, requestCode, resultCode, data.Some?);
              handled == r.handled &&
              saveCalls == old(saveCalls) + (if r.saves then [SaveCall(resultCode, data.value)] else [])
    {
      if requestCode == this.requestCode {
        if resultCode == RESULT_OK && data.Some? {
          if !hasState {
            return false;
          }
          saveCalls := saveCalls + [SaveCall(resultCode, data.value)];
        }
        return true;
      }
      return false;
    }
  }
}
