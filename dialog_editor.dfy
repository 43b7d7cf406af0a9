/**
 * controller/editor/DialogEditor.kt: the base of editors that show a dialog on a
 * `DialogParent`. A result with the editor's request code is always taken, and
 * its input saved unless the dialog was cancelled.
 */
module DialogEditor {
  import opened Wrappers
  import opened Text
  import opened Platform

  /** The screen that hosts the dialogs, opaque here. */
  datatype DialogParent = DialogParent(id: nat)

  /** `onEditorResult(resultCode, data)`: whether it calls `saveInput`. */
  function SavesInput(resultCode: Int32): (r: bool)
    ensures r <==> resultCode != RESULT_CANCELED
    ensures resultCode == RESULT_OK ==> r
  {
    resultCode != RESULT_CANCELED
  }

  /** One call of `saveInput(resultCode, data)`. */
  datatype SaveCall = SaveCall(resultCode: Int32, data: Option<Intent>)

  /** An editor: its parent, its request code, and the `saveInput` calls made so far. */
  class Editor {
    var parent: Option<DialogParent>
    var requestCode: Int32
    var saveCalls: seq<SaveCall>

    constructor(parent: Option<DialogParent>, requestCode: Int32)
      ensures this.parent == parent && this.requestCode == requestCode && saveCalls == []
    {
      this.parent, this.requestCode, saveCalls := parent, requestCode, [];
    }

    /** `onEditorResult(resultCode, data)`. */
    method OnEditorResult(resultCode: Int32, data: Option<Intent>)
      modifies this
      ensures parent == old(parent) && requestCode == old(requestCode)
      ensures saveCalls == old(saveCalls) + (if SavesInput(resultCode) then [SaveCall(resultCode, data)] else [])
    {
      if resultCode != RESULT_CANCELED {
        saveCalls := saveCalls + [SaveCall(resultCode, data)];
      }
    }

    /** `onDialogResult(requestCode, resultCode, data)`: true exactly for the editor's own code. */
    method OnDialogResult(requestCode: Int32, resultCode: Int32, data: Option<Intent>) returns (handled: bool)
      modifies this
      ensures parent == old(parent) && this.requestCode == old(this.requestCode)
      ensures handled <==> requestCode == this.requestCode
      ensures saveCalls == old(saveCalls) + (if handled && SavesInput(resultCode) then [SaveCall(resultCode, data)] else [])
    {
      if requestCode == this.requestCode {
        OnEditorResult(resultCode, data);
        return true;
      }
      return false;
    }

    /** `checkParent()`: the parent, or an IllegalStateException when it is not set. */
    method CheckParent() returns (r: Result<DialogParent>)
      ensures parent.None? <==> r == Err(IllegalState)
      ensures parent.Some? ==> r == Ok(parent.value)
    {
      r := if parent.Some? then Ok(parent.value) else Err(IllegalState);
    }
  }
}
