/**
 * controller/editor/list/ListEditorUtil.kt: how a list editor commits the user's
 * choice. A single selection stores the chosen entry value, or removes the key
 * when nothing was chosen. A multi-selection stores the checked values joined by
 * ',' in list order, or removes the key when nothing is checked.
 */
module ListEditorUtil {
  import opened Wrappers
  import opened Text
  import opened Preferences

  /** What the two generic `saveInput` overloads decide to do. */
  datatype Action = RemoveKey | Throw(error: Error) | CallSaveValue

  /**
   * `saveInput(prefs, key, entrySize, selection, saveValue)`: -1 means "nothing
   * chosen" and removes the key; any other index outside [0, entrySize) is a
   * RuntimeException; a valid index calls back `saveValue`.
   */
  function SelectionAction(entrySize: int, selection: Int32): (a: Action)
    ensures a == RemoveKey <==> selection == -1
    ensures a == CallSaveValue <==> 0 <= selection < entrySize
    ensures a.Throw? ==> a.error == Runtime
  {
    if selection == -1 then RemoveKey
    else if selection < 0 || selection >= entrySize then Throw(Runtime)
    else CallSaveValue
  }

  /**
   * `saveInput(prefs, key, entrySize, checkedList, saveValue)`: a checked list of
   * the wrong length is a RuntimeException before anything is written; nothing
   * checked removes the key; otherwise `saveValue` is called back.
   */
  function CheckedAction(entrySize: int, checked: seq<bool>): (a: Action)
    ensures a.Throw? <==> |checked| != entrySize
    ensures a.Throw? ==> a.error == Runtime
    ensures a == RemoveKey <==> |checked| == entrySize && true !in checked
    ensures a == CallSaveValue <==> |checked| == entrySize && true in checked
  {
    if |checked| != entrySize then Throw(Runtime)
    else if !(exists i :: 0 <= i < |checked| && checked[i]) then RemoveKey
    else CallSaveValue
  }

  /** `values.filterIndexed { i, _ -> checked[i] }`: the checked values, in list order. */
  function Selected<T>(values: seq<T>, checked: seq<bool>): seq<T>
    requires |values| <= |checked|
    decreases |values|
  {
    if |values| == 0 then []
    else (if checked[0] then [values[0]] else []) + Selected(values[1..], checked[1..])
  }

  /** A value is selected exactly when it sits at some checked position. */
  lemma {:induction false} SelectedMembership<T>(values: seq<T>, checked: seq<bool>, x: T)
    requires |values| <= |checked|
    ensures x in Selected(values, checked) <==> exists i :: 0 <= i < |values| && checked[i] && values[i] == x
    decreases |values|
  {
    if |values| > 0 {
      SelectedMembership(values[1..], checked[1..], x);
      if exists i :: 0 <= i < |values| && checked[i] && values[i] == x {
        var i :| 0 <= i < |values| && checked[i] && values[i] == x;
        if i > 0 {
          assert checked[1..][i - 1] && values[1..][i - 1] == x;
        }
      }
      if exists j :: 0 <= j < |values| - 1 && checked[1..][j] && values[1..][j] == x {
        var j :| 0 <= j < |values| - 1 && checked[1..][j] && values[1..][j] == x;
        assert checked[j + 1] && values[j + 1] == x;
      }
    }
  }

  /** Nothing is selected exactly when no position is checked. */
  lemma SelectedIsEmpty<T>(values: seq<T>, checked: seq<bool>)
    requires |values| <= |checked|
    ensures Selected(values, checked) == [] <==> forall i :: 0 <= i < |values| ==> !checked[i]
  {
    var r := Selected(values, checked);
    if r != [] {
      SelectedMembership(values, checked, r[0]);
    }
    if exists i :: 0 <= i < |values| && checked[i] {
      var i :| 0 <= i < |values| && checked[i];
      SelectedMembership(values, checked, values[i]);
    }
  }

  /**
   * `createPreferenceValue(entryValues: Array<String>, checkedList)`: the checked
   * values joined with ','. A checked list shorter than the values makes
   * `filterIndexed` index past its end.
   */
  function CreatePreferenceValue(values: seq<string>, checked: seq<bool>): (r: Result<string>)
    ensures r.Err? <==> |checked| < |values|
    ensures r.Err? ==> r.error == IndexOutOfBounds
  {
    if |checked| < |values| then Err(IndexOutOfBounds) else Ok(Join(Selected(values, checked), ','))
  }

  /** Every checked value is a token of the created text, in list order, when no value holds ','. */
  lemma {:induction false} CreatePreferenceValueTokens(values: seq<string>, checked: seq<bool>)
    requires |values| <= |checked|
    requires forall i :: 0 <= i < |values| ==> ',' !in values[i]
    requires exists i :: 0 <= i < |values| && checked[i]
    ensures Split(CreatePreferenceValue(values, checked).value, ',') == Selected(values, checked)
  {
    var s := Selected(values, checked);
    SelectedIsEmpty(values, checked);
    forall k | 0 <= k < |s|
      ensures ',' !in s[k]
    {
      assert s[k] in s;
      SelectedMembership(values, checked, s[k]);
    }
    SplitJoin(s, ',');
  }

  /** The decimal texts of a list of `Int`s. */
  function IntTexts(xs: seq<Int32>): (r: seq<string>)
    ensures |r| == |xs|
    ensures forall i :: 0 <= i < |xs| ==> r[i] == IntToString(xs[i])
  {
    if |xs| == 0 then [] else [IntToString(xs[0])] + IntTexts(xs[1..])
  }

  /** `createPreferenceValue(entryValues: IntArray, checkedList)`: the checked values in decimal, joined with ','. */
  function CreateIntPreferenceValue(values: seq<Int32>, checked: seq<bool>): (r: Result<string>)
    ensures r.Err? <==> |checked| < |values|
    ensures r.Err? ==> r.error == IndexOutOfBounds
  {
    if |checked| < |values| then Err(IndexOutOfBounds) else Ok(Join(IntTexts(Selected(values, checked)), ','))
  }

  /** The decimal text of an `Int` holds no ','. */
  lemma IntTextHasNoComma(x: Int32)
    ensures ',' !in IntToString(x)
  {
    if x < 0 {
      NotInDigits(NatToString(-(x as int)), ',');
    } else {
      NotInDigits(NatToString(x as int), ',');
    }
  }

  /** Splitting the created text and parsing each token gives back the checked values, in list order. */
  lemma {:induction false} CreateIntPreferenceValueTokens(values: seq<Int32>, checked: seq<bool>)
    requires |values| <= |checked|
    requires exists i :: 0 <= i < |values| && checked[i]
    ensures var tokens := Split(CreateIntPreferenceValue(values, checked).value, ',');
            var s := Selected(values, checked);
            |tokens| == |s| && forall k :: 0 <= k < |s| ==> ParseInt(tokens[k]) == Some(s[k])
  {
    var s := Selected(values, checked);
    SelectedIsEmpty(values, checked);
    var texts := IntTexts(s);
    forall k | 0 <= k < |texts|
      ensures ',' !in texts[k]
    {
      IntTextHasNoComma(s[k]);
    }
    SplitJoin(texts, ',');
    forall k | 0 <= k < |s|
      ensures ParseInt(texts[k]) == Some(s[k])
    {
      ParseIntToString(s[k]);
    }
  }

  /** `saveInput(prefs, key, entryValues: IntArray, selection)`. */
  method SaveSelectedInt(prefs: SharedPreferences, key: string, entryValues: seq<Int32>, selection: Int32)
    returns (o: Outcome)
    modifies prefs
    ensures selection == -1 ==> o == Pass && prefs.data == old(prefs.data) - {key}
    ensures selection != -1 && !(0 <= selection < |entryValues|) ==>
              o == Fail(Runtime) && prefs.data == old(prefs.data)
    ensures 0 <= selection < |entryValues| ==>
              o == Pass && prefs.data == old(prefs.data)[key := IntValue(entryValues[selection])]
  {
    match SelectionAction(|entryValues|, selection)
    case RemoveKey =>
      prefs.Remove(key);
      o := Pass;
    case Throw(e) =>
      o := Fail(e);
    case CallSaveValue =>
      prefs.PutInt(key, entryValues[selection]);
      o := Pass;
  }

  /** `saveInput(prefs, key, entryValues: Array<String>, selection)`. */
  method SaveSelectedString(prefs: SharedPreferences, key: string, entryValues: seq<string>, selection: Int32)
    returns (o: Outcome)
    modifies prefs
    ensures selection == -1 ==> o == Pass && prefs.data == old(prefs.data) - {key}
    ensures selection != -1 && !(0 <= selection < |entryValues|) ==>
              o == Fail(Runtime) && prefs.data == old(prefs.data)
    ensures 0 <= selection < |entryValues| ==>
              o == Pass && prefs.data == old(prefs.data)[key := StringValue(entryValues[selection])]
  {
    match SelectionAction(|entryValues|, selection)
    case RemoveKey =>
      prefs.Remove(key);
      o := Pass;
    case Throw(e) =>
      o := Fail(e);
    case CallSaveValue =>
      prefs.PutString(key, entryValues[selection]);
      o := Pass;
  }

  /**
   * `saveInput(prefs, key, entryValues: IntArray, checkedList, createPreferenceValue)`:
   * the text the caller's `encode` makes of the values and the checked list is
   * stored; an exception from `encode` escapes before the write.
   */
  method SaveCheckedInts(prefs: SharedPreferences, key: string, entryValues: seq<Int32>, checked: seq<bool>,
                         encode: (seq<Int32>, seq<bool>) -> Result<string>)
    returns (o: Outcome)
    modifies prefs
    ensures |checked| != |entryValues| ==> o == Fail(Runtime) && prefs.data == old(prefs.data)
    ensures |checked| == |entryValues| && true !in checked ==> o == Pass && prefs.data == old(prefs.data) - {key}
    ensures |checked| == |entryValues| && true in checked ==>
              match encode(entryValues, checked)
              case Ok(text) => o == Pass && prefs.data == old(prefs.data)[key := StringValue(text)]
              case Err(e) => o == Fail(e) && prefs.data == old(prefs.data)
  {
    match CheckedAction(|entryValues|, checked)
    case RemoveKey =>
      prefs.Remove(key);
      o := Pass;
    case Throw(e) =>
      o := Fail(e);
    case CallSaveValue =>
      match encode(entryValues, checked)
      case Ok(text) =>
        prefs.PutString(key, text);
        o := Pass;
      case Err(e) =>
        o := Fail(e);
  }

  /**
   * `saveInput(prefs, key, entryValues: Array<String>, checkedList, createPreferenceValue)`:
   * the text the caller's `encode` makes of the values and the checked list is
   * stored; an exception from `encode` escapes before the write.
   */
  method SaveCheckedStrings(prefs: SharedPreferences, key: string, entryValues: seq<string>, checked: seq<bool>,
                            encode: (seq<string>, seq<bool>) -> Result<string>)
    returns (o: Outcome)
    modifies prefs
    ensures |checked| != |entryValues| ==> o == Fail(Runtime) && prefs.data == old(prefs.data)
    ensures |checked| == |entryValues| && true !in checked ==> o == Pass && prefs.data == old(prefs.data) - {key}
    ensures |checked| == |entryValues| && true in checked ==>
              match encode(entryValues, checked)
              case Ok(text) => o == Pass && prefs.data == old(prefs.data)[key := StringValue(text)]
              case Err(e) => o == Fail(e) && prefs.data == old(prefs.data)
  {
    match CheckedAction(|entryValues|, checked)
    case RemoveKey =>
      prefs.Remove(key);
      o := Pass;
    case Throw(e) =>
      o := Fail(e);
    case CallSaveValue =>
      match encode(entryValues, checked)
      case Ok(text) =>
        prefs.PutString(key, text);
        o := Pass;
      case Err(e) =>
        o := Fail(e);
  }
}
