/**
 * controller/PreferenceScreenController.kt: the table of editors of one settings
 * screen. Editors are registered under a tag in a `LinkedHashMap` (insertion
 * order, a re-used tag keeps its place); dialog editors get a request code and
 * fragment editors a request key from the table's size; views are bound to
 * editors; a dialog result goes to the first dialog editor that claims it; the
 * editors' instance states are saved and restored under their tags.
 */
module PreferenceScreenController {
  import opened Wrappers
  import Preferences

  /** The four families of editor the controller tells apart. `PlainEditor` is a `PreferenceEditor` that is no `ScreenEditor`. */
  datatype EditorKind = DialogEditor | FragmentEditor | ActivityEditor | PlainEditor

  /** An editor's saved `instanceState`, opaque here. */
  datatype EditorState = EditorState(id: nat)

  /**
   * A registered editor: its kind, the view types `isCompatibleView` accepts, the
   * request code of a dialog editor, the number a fragment editor's request key
   * is made from (`DialogUtil.getRequestKey(n)`), its instance state, and the
   * `SharedPreferences` it was given (null until it is registered).
   */
  datatype Editor = Editor(kind: EditorKind, compatibleViews: set<string>, requestCode: int,
                           requestKey: Option<int>, instanceState: Option<EditorState>,
                           preferences: Option<Preferences.SharedPreferences>)

  /** A preference view on the screen: its identity and its type. */
  datatype View = View(id: nat, viewType: string)

  /** An instance-state `Bundle`: a parcelable (or null) per key. */
  type Bundle = map<string, Option<EditorState>>

  /** The `editors` map: its keys in insertion order, and the editor under each key. */
  datatype Table = Table(tags: seq<string>, editors: map<string, Editor>)

  /** The keys are listed once each, in insertion order, and are exactly the map's keys. */
  predicate Valid(t: Table) {
    (forall i, j :: 0 <= i < j < |t.tags| ==> t.tags[i] != t.tags[j]) &&
    (forall i :: 0 <= i < |t.tags| ==> t.tags[i] in t.editors) &&
    |t.editors| == |t.tags|
  }

  predicate IsScreenEditor(e: Editor) {
    e.kind != PlainEditor
  }

  /** The editor `registerEditor` stores when the table holds `size` editors. */
  function Assign(e: Editor, size: nat, prefs: Preferences.SharedPreferences): (r: Editor)
    ensures r.kind == e.kind && r.compatibleViews == e.compatibleViews && r.instanceState == e.instanceState
    ensures r.preferences == Some(prefs)
    ensures r.requestCode == if e.kind == DialogEditor then size + 1 else e.requestCode
    ensures r.requestKey == if e.kind == FragmentEditor then Some(size + 1) else e.requestKey
  {
    var shared := e.(preferences := Some(prefs));
    var d := if e.kind == DialogEditor then shared.(requestCode := size + 1) else shared;
    if e.kind == FragmentEditor then d.(requestKey := Some(size + 1)) else d
  }

  /** `registerEditor(tag, editor)` on a table: `editors[tag] = editor`, numbered from the size before the insert. */
  function Register(t: Table, tag: string, e: Editor, prefs: Preferences.SharedPreferences): (r: Table)
    requires Valid(t)
    ensures Valid(r)
    ensures r.editors == t.editors[tag := Assign(e, |t.editors|, prefs)]
    ensures tag in t.editors ==> r.tags == t.tags
    ensures tag !in t.editors ==> r.tags == t.tags + [tag]
  {
    var tags := if tag in t.editors then t.tags else t.tags + [tag];
    var r := Table(tags, t.editors[tag := Assign(e, |t.editors|, prefs)]);
    assert forall i :: 0 <= i < |t.tags| ==> tags[i] == t.tags[i];
    r
  }

  /**
   * The position of the first key, from `i` on, whose editor satisfies `p`:
   * `editors.values.find { ... }` over the insertion order.
   */
  function FindFrom(t: Table, p: Editor -> bool, i: nat): (r: Option<nat>)
    requires Valid(t) && i <= |t.tags|
    ensures r.Some? ==> i <= r.value < |t.tags| && p(t.editors[t.tags[r.value]])
    ensures r.Some? ==> forall k :: i <= k < r.value ==> !p(t.editors[t.tags[k]])
    ensures r.None? ==> forall k :: i <= k < |t.tags| ==> !p(t.editors[t.tags[k]])
    decreases |t.tags| - i
  {
    if i == |t.tags| then None
    else if p(t.editors[t.tags[i]]) then Some(i)
    else FindFrom(t, p, i + 1)
  }

  /** The tag of the first editor, in insertion order, satisfying `p`. */
  function Find(t: Table, p: Editor -> bool): (r: Option<string>)
    requires Valid(t)
    ensures r.Some? ==> r.value in t.editors && p(t.editors[r.value])
    ensures r.Some? ==> exists i :: 0 <= i < |t.tags| && t.tags[i] == r.value &&
                                  forall k :: 0 <= k < i ==> !p(t.editors[t.tags[k]])
    ensures r.None? <==> forall k :: 0 <= k < |t.tags| ==> !p(t.editors[t.tags[k]])
  {
    match FindFrom(t, p, 0)
    case Some(i) => Some(t.tags[i])
    case None => None
  }

  /** `isCompatibleView(view)`. */
  function CompatibleWith(view: View): Editor -> bool {
    (e: Editor) => view.viewType in e.compatibleViews
  }

  /** `editor is DialogEditor && editor.onDialogResult(requestCode, ...)`: the base `onDialogResult` claims exactly its own code. */
  function Claims(requestCode: int): Editor -> bool {
    (e: Editor) => e.kind == DialogEditor && e.requestCode == requestCode
  }

  /** `restoreEditorState` on the keys `tags`, one after another: each screen editor takes the bundle's entry under its key, or null. */
  function Restored(editors: map<string, Editor>, tags: seq<string>, saved: Bundle): (r: map<string, Editor>)
    requires forall i :: 0 <= i < |tags| ==> tags[i] in editors
    ensures r.Keys == editors.Keys
    decreases |tags|
  {
    if |tags| == 0 then editors
    else
      var before := Restored(editors, tags[..|tags| - 1], saved);
      var tag := tags[|tags| - 1];
      if IsScreenEditor(before[tag]) then
        before[tag := before[tag].(instanceState := if tag in saved then saved[tag] else None)]
      else before
  }

  /** `onSaveInstanceState(outState)` on the keys `tags`, one after another: each screen editor's state is put under its key. */
  function Saved(editors: map<string, Editor>, tags: seq<string>, outState: Bundle): Bundle
    requires forall i :: 0 <= i < |tags| ==> tags[i] in editors
    decreases |tags|
  {
    if |tags| == 0 then outState
    else
      var before := Saved(editors, tags[..|tags| - 1], outState);
      var tag := tags[|tags| - 1];
      if IsScreenEditor(editors[tag]) then before[tag := editors[tag].instanceState] else before
  }

  /** What saving puts in the bundle: every screen editor's state under its key; every other entry is left as it was. */
  lemma {:induction false} SavedEntries(editors: map<string, Editor>, tags: seq<string>, outState: Bundle)
    requires forall i :: 0 <= i < |tags| ==> tags[i] in editors
    ensures forall k :: k in tags && IsScreenEditor(editors[k]) ==>
              k in Saved(editors, tags, outState) && Saved(editors, tags, outState)[k] == editors[k].instanceState
    ensures forall k :: !(k in tags && IsScreenEditor(editors[k])) ==>
              (k in Saved(editors, tags, outState) <==> k in outState) &&
              (k in outState ==> Saved(editors, tags, outState)[k] == outState[k])
    decreases |tags|
  {
    if |tags| > 0 {
      var init := tags[..|tags| - 1];
      SavedEntries(editors, init, outState);
      assert forall k :: k in tags <==> k in init || k == tags[|tags| - 1];
    }
  }

  /** What restoring does to each editor: a screen editor gets the bundle's entry under its key (null when missing); others are untouched. */
  lemma {:induction false} RestoredEntries(editors: map<string, Editor>, tags: seq<string>, saved: Bundle)
    requires forall i :: 0 <= i < |tags| ==> tags[i] in editors
    ensures forall k :: k in tags && IsScreenEditor(editors[k]) ==>
              Restored(editors, tags, saved)[k] == editors[k].(instanceState := if k in saved then saved[k] else None)
    ensures forall k :: k in editors && !(k in tags && IsScreenEditor(editors[k])) ==>
              Restored(editors, tags, saved)[k] == editors[k]
    decreases |tags|
  {
    if |tags| > 0 {
      var init := tags[..|tags| - 1];
      RestoredEntries(editors, init, saved);
      assert forall k :: k in tags <==> k in init || k == tags[|tags| - 1];
    }
  }

  /** Save then restore: every editor comes back exactly as it was. */
  lemma SaveRestore(t: Table, outState: Bundle)
    requires Valid(t)
    ensures Restored(t.editors, t.tags, Saved(t.editors, t.tags, outState)) == t.editors
  {
    var saved := Saved(t.editors, t.tags, outState);
    var r := Restored(t.editors, t.tags, saved);
    SavedEntries(t.editors, t.tags, outState);
    RestoredEntries(t.editors, t.tags, saved);
    forall k | k in t.editors
      ensures r[k] == t.editors[k]
    {
      if k in t.tags && IsScreenEditor(t.editors[k]) {
        assert r[k] == t.editors[k].(instanceState := t.editors[k].instanceState);
      }
    }
  }

  /** Request codes of dialog editors lie in 1..size and differ from each other. */
  predicate DistinctCodes(t: Table)
    requires Valid(t)
  {
    (forall i :: 0 <= i < |t.tags| && t.editors[t.tags[i]].kind == DialogEditor ==>
       1 <= t.editors[t.tags[i]].requestCode <= |t.tags|) &&
    (forall i, j ::
       0 <= i < j < |t.tags| && t.editors[t.tags[i]].kind == DialogEditor && t.editors[t.tags[j]].kind == DialogEditor
       ==> t.editors[t.tags[i]].requestCode != t.editors[t.tags[j]].requestCode)
  }

  /** While every tag is new, registration keeps the dialog editors' request codes distinct. */
  lemma FreshRegistrationKeepsCodesDistinct(t: Table, tag: string, e: Editor, prefs: Preferences.SharedPreferences)
    requires Valid(t) && DistinctCodes(t) && tag !in t.editors
    ensures DistinctCodes(Register(t, tag, e, prefs))
  {
    var r := Register(t, tag, e, prefs);
    assert forall i :: 0 <= i < |t.tags| ==> r.tags[i] == t.tags[i] && r.editors[r.tags[i]] == t.editors[t.tags[i]];
  }

  /** With distinct request codes, a dialog editor's own code is claimed by that editor and no other. */
  lemma DistinctCodesReachTheirEditor(t: Table, i: nat)
    requires Valid(t) && DistinctCodes(t) && i < |t.tags| && t.editors[t.tags[i]].kind == DialogEditor
    ensures Find(t, Claims(t.editors[t.tags[i]].requestCode)) == Some(t.tags[i])
  {
    var p := Claims(t.editors[t.tags[i]].requestCode);
    assert p(t.editors[t.tags[i]]);
    var r := FindFrom(t, p, 0);
    assert r.Some? && r.value <= i;
  }

  /**
   * Registering a tag again keeps the table's size, so the next new tag's dialog
   * editor gets the same request code, and every result for that code goes to the
   * one registered first.
   */
  lemma {:induction false} ReRegistrationSharesCode(t: Table, a: string, b: string, e1: Editor, e2: Editor, e3: Editor,
                                                    prefs: Preferences.SharedPreferences)
    requires Valid(t) && DistinctCodes(t) && a !in t.editors && b !in t.editors && a != b
    requires e2.kind == DialogEditor && e3.kind == DialogEditor
    ensures var r := Register(Register(Register(t, a, e1, prefs), a, e2, prefs), b, e3, prefs);
            r.editors[a].requestCode == r.editors[b].requestCode == |t.tags| + 2 &&
            Find(r, Claims(|t.tags| + 2)) == Some(a)
  {
    var r1 := Register(t, a, e1, prefs);
    var r2 := Register(r1, a, e2, prefs);
    var r := Register(r2, b, e3, prefs);
    assert r.tags == t.tags + [a, b];
    assert forall k :: 0 <= k < |t.tags| ==> r.tags[k] == t.tags[k] && r.editors[r.tags[k]] == t.editors[t.tags[k]];
    assert Claims(|t.tags| + 2)(r.editors[r.tags[|t.tags|]]);
  }

  /** The screen controller: its editor table and view list, changed in place. */
  class ScreenController {
    var preferences: Preferences.SharedPreferences?
    var tags: seq<string>
    var editors: map<string, Editor>
    var views: seq<View>

    function Editors(): Table
      reads this
    {
      Table(tags, editors)
    }

    constructor(preferences: Preferences.SharedPreferences?)
      ensures this.preferences == preferences && Editors() == Table([], map[]) && views == []
    {
      this.preferences := preferences;
      tags, editors, views := [], map[], [];
    }

    /** `registerEditor(tag, editor)`: without preferences an IllegalStateException, and nothing changes. */
    method RegisterEditor(tag: string, editor: Editor) returns (o: Outcome)
      requires Valid(Editors())
      modifies this
      ensures preferences == old(preferences) && views == old(views) && Valid(Editors())
      ensures old(preferences) == null ==> o == Fail(IllegalState) && Editors() == old(Editors())
      ensures old(preferences) != null ==> o == Pass && Editors() == Register(old(Editors()), tag, editor, old(preferences))
    {
      if preferences == null {
        return Fail(IllegalState);
      }
      var registered := Assign(editor, |editors|, preferences);
      ghost var r := Register(Editors(), tag, editor, preferences);
      if tag !in editors {
        tags := tags + [tag];
      }
      editors := editors[tag := registered];
      return Pass;
    }

    /** `findEditor(tag)`. */
    method FindEditor(tag: string) returns (r: Option<Editor>)
      ensures tag in editors <==> r.Some?
      ensures r.Some? ==> r.value == editors[tag]
    {
      r := if tag in editors then Some(editors[tag]) else None;
    }

    /** `setupPreferenceView(view)`: binds the first compatible editor, or an IllegalArgumentException when none is. */
    method SetupPreferenceView(view: View) returns (r: Result<string>)
      requires Valid(Editors())
      modifies this
      ensures Editors() == old(Editors()) && preferences == old(preferences)
      ensures Find(Editors(), CompatibleWith(view)).None? ==> r == Err(IllegalArgument) && views == old(views)
      ensures Find(Editors(), CompatibleWith(view)).Some? ==>
                r == Ok(Find(Editors(), CompatibleWith(view)).value) && views == old(views) + [view]
    {
      var found := Find(Editors(), CompatibleWith(view));
      if found.None? {
        return Err(IllegalArgument);
      }
      views := views + [view];
      return Ok(found.value);
    }

    /** `setupPreferenceView(view, editorTag)`: an unknown tag is an IllegalArgumentException. */
    method SetupPreferenceViewWithTag(view: View, editorTag: string) returns (r: Result<string>)
      modifies this
      ensures Editors() == old(Editors()) && preferences == old(preferences)
      ensures editorTag !in editors ==> r == Err(IllegalArgument) && views == old(views)
      ensures editorTag in editors ==> r == Ok(editorTag) && views == old(views) + [view]
    {
      if editorTag !in editors {
        return Err(IllegalArgument);
      }
      views := views + [view];
      return Ok(editorTag);
    }

    /** `restoreEditorState(savedInstanceState)`: a null bundle changes nothing. */
    method RestoreEditorState(savedInstanceState: Option<Bundle>)
      requires Valid(Editors())
      modifies this
      ensures tags == old(tags) && views == old(views) && preferences == old(preferences) && Valid(Editors())
      ensures savedInstanceState.None? ==> editors == old(editors)
      ensures savedInstanceState.Some? ==> editors == Restored(old(editors), old(tags), savedInstanceState.value)
    {
      if savedInstanceState.None? {
        return;
      }
      var saved := savedInstanceState.value;
      ghost var original := editors;
      var i := 0;
      while i < |tags|
        invariant 0 <= i <= |tags|
        invariant tags == old(tags) && views == old(views) && preferences == old(preferences)
        invariant forall k :: 0 <= k < |tags| ==> tags[k] in original
        invariant editors == Restored(original, tags[..i], saved)
      {
        assert tags[..i + 1][..i] == tags[..i];
        var tag := tags[i];
        var editor := editors[tag];
        if IsScreenEditor(editor) {
          editors := editors[tag := editor.(instanceState := if tag in saved then saved[tag] else None)];
        }
        i := i + 1;
      }
      assert tags[..i] == tags;
    }

    /** `onSaveInstanceState(outState)`: the bundle with every screen editor's state put under its tag. */
    method OnSaveInstanceState(outState: Bundle) returns (r: Bundle)
      requires Valid(Editors())
      ensures r == Saved(editors, tags, outState)
    {
      r := outState;
      var i := 0;
      while i < |tags|
        invariant 0 <= i <= |tags|
        invariant r == Saved(editors, tags[..i], outState)
      {
        assert tags[..i + 1][..i] == tags[..i];
        var tag := tags[i];
        if IsScreenEditor(editors[tag]) {
          r := r[tag := editors[tag].instanceState];
        }
        i := i + 1;
      }
      assert tags[..i] == tags;
    }

    /**
     * `onDialogResult(requestCode, resultCode, data)`: offers the result to the
     * dialog editors in registration order and stops at the first that claims it.
     * Returns the tag of that editor, if any.
     */
    method OnDialogResult(requestCode: int) returns (handledBy: Option<string>)
      requires Valid(Editors())
      ensures handledBy == Find(Editors(), Claims(requestCode))
    {
      var t := Editors();
      var i := 0;
      handledBy := None;
      while i < |tags|
        invariant 0 <= i <= |tags|
        invariant FindFrom(t, Claims(requestCode), 0) == FindFrom(t, Claims(requestCode), i)
      {
        var editor := editors[tags[i]];
        if editor.kind == DialogEditor && editor.requestCode == requestCode {
          handledBy := Some(tags[i]);
          return;
        }
        i := i + 1;
      }
    }

    /** `onDestroy()`: the editor table is emptied. */
    method OnDestroy()
      modifies this
      ensures Editors() == Table([], map[]) && views == old(views) && preferences == old(preferences)
    {
      tags, editors := [], map[];
    }

    /** `onDestroyViews()`: the view list is emptied. */
    method OnDestroyViews()
      modifies this
      ensures views == [] && Editors() == old(Editors()) && preferences == old(preferences)
    {
      views := [];
    }
  }
}
