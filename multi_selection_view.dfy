/**
 * `getCheckedList` of view/list/MultiSelectionStringListPreferenceView.kt: the
 * stored comma-joined text decoded back into one check mark per list entry.
 */
module MultiSelectionStringListView {
  import opened Wrappers
  import opened Text
  import opened Preferences
  import ListEditorUtil

  /** The stored selection text: `getString(key, "") ?: ""`, so a missing key reads as "". */
  function SelectionText(store: Store, key: string): (r: Result<string>)
    ensures key !in store ==> r == Ok("")
    ensures key in store && store[key].StringValue? ==> r == Ok(store[key].text)
    ensures key in store && !store[key].StringValue? ==> r == Err(ClassCast)
  {
    match GetString(store, key, Some(""))
    case Err(e) => Err(e)
    case Ok(None) => Ok("")
    case Ok(Some(text)) => Ok(text)
  }

  /**
   * Entry i gets a check mark when its value is one of the tokens and no earlier
   * entry holds the same value (`indexOf` finds the first one).
   */
  predicate Marked(values: seq<string>, tokens: seq<string>, i: int)
    requires 0 <= i < |values|
  {
    values[i] in tokens && values[i] !in values[..i]
  }

  /** `indexOf` finds an entry exactly when that entry is the first holding its value. */
  lemma FirstIndex(values: seq<string>, i: int)
    requires 0 <= i < |values| && values[i] !in values[..i]
    ensures IndexOfValue(values, values[i]) == i
  {
    var r := IndexOfValue(values, values[i]);
    assert forall k :: 0 <= k < i ==> values[..i][k] == values[k];
    assert forall k :: 0 <= k < r ==> values[..r][k] == values[k];
  }

  /**
   * The meaning of `getCheckedList` for a selection text: one mark per entry
   * (`count` = `entries.size`), set exactly on the entries `Marked` by the tokens
   * of `text.split(',')`. A token whose first position is at or past `count`
   * indexes past the end of the array.
   */
  function CheckedList(text: string, values: seq<string>, count: nat): (r: Result<seq<bool>>)
    ensures r.Ok? ==> |r.value| == count
    ensures r.Ok? ==> forall i, j :: 0 <= i < j < count && j < |values| && values[i] == values[j] ==> !r.value[j]
    ensures r.Err? ==> r.error == IndexOutOfBounds
  {
    var tokens := Split(text, ',');
    if exists i :: count <= i < |values| && Marked(values, tokens, i) then Err(IndexOutOfBounds)
    else
      var marks := seq(count, i requires 0 <= i < count => i < |values| && Marked(values, tokens, i));
      assert forall i, j :: 0 <= i < j < count && j < |values| && values[i] == values[j] ==> values[j] in values[..j] by {
        forall i, j | 0 <= i < j < count && j < |values| && values[i] == values[j]
          ensures values[j] in values[..j]
        {
          assert values[..j][i] == values[j];
        }
      }
      Ok(marks)
  }

  /** One more token marks exactly the entry `indexOf` finds for it. */
  lemma MarkStep(values: seq<string>, tokens: seq<string>, j: nat, i: int)
    requires j < |tokens| && 0 <= i < |values|
    ensures Marked(values, tokens[..j + 1], i) <==>
            Marked(values, tokens[..j], i) || i == IndexOfValue(values, tokens[j])
  {
    assert tokens[..j + 1] == tokens[..j] + [tokens[j]];
    if values[i] == tokens[j] && values[i] !in values[..i] {
      FirstIndex(values, i);
    }
    var r := IndexOfValue(values, tokens[j]);
    if r == i {
      assert values[i] == tokens[j];
    }
  }

  /** When `indexOf` finds every token before `count`, no entry at or past `count` is marked. */
  lemma NoMarkPastCount(values: seq<string>, tokens: seq<string>, count: nat)
    requires forall k :: 0 <= k < |tokens| ==> IndexOfValue(values, tokens[k]) < count
    ensures forall i :: count <= i < |values| ==> !Marked(values, tokens, i)
  {
    forall i | count <= i < |values| && values[i] !in values[..i]
      ensures values[i] !in tokens
    {
      FirstIndex(values, i);
    }
  }

  /** `getCheckedList(prefs)`: read the stored text and mark each entry whose value is one of its tokens. */
  method GetCheckedList(store: Store, key: string, entriesCount: nat, entryValues: seq<string>)
    returns (r: Result<seq<bool>>)
    ensures SelectionText(store, key).Err? ==> r == Err(ClassCast)
    ensures SelectionText(store, key).Ok? ==> r == CheckedList(SelectionText(store, key).value, entryValues, entriesCount)
  {
    var stored := SelectionText(store, key);
    if stored.Err? {
      return Err(stored.error);
    }
    var text := stored.value;
    var indices := new bool[entriesCount](_ => false);
    var tokens := Split(text, ',');
    var j := 0;
    while j < |tokens|
      invariant 0 <= j <= |tokens|
      invariant forall i :: 0 <= i < entriesCount ==>
                  indices[i] == (i < |entryValues| && Marked(entryValues, tokens[..j], i))
      invariant forall k :: 0 <= k < j ==> IndexOfValue(entryValues, tokens[k]) < entriesCount
    {
      var index := IndexOfValue(entryValues, tokens[j]);
      if index != -1 {
        if index >= entriesCount {
          assert Marked(entryValues, tokens, index);
          return Err(IndexOutOfBounds);
        }
        indices[index] := true;
      }
      forall i | 0 <= i < entriesCount && i < |entryValues| {
        MarkStep(entryValues, tokens, j, i);
      }
      j := j + 1;
    }
    assert tokens[..j] == tokens;
    NoMarkPastCount(entryValues, tokens, entriesCount);
    var expected := CheckedList(text, entryValues, entriesCount);
    assert expected.value == indices[..];
    return Ok(indices[..]);
  }

  /** No two entries share a value, none is empty, none holds ','. */
  predicate WellFormedValues(values: seq<string>) {
    (forall i, j :: 0 <= i < j < |values| ==> values[i] != values[j]) &&
    (forall i :: 0 <= i < |values| ==> values[i] != "" && ',' !in values[i])
  }

  /** Round trip: decoding what `createPreferenceValue` made of a checked list gives the checked list back. */
  lemma {:induction false} CheckedListOfCreatedValue(values: seq<string>, checked: seq<bool>)
    requires WellFormedValues(values) && |checked| == |values|
    ensures CheckedList(ListEditorUtil.CreatePreferenceValue(values, checked).value, values, |values|) == Ok(checked)
  {
    var text := ListEditorUtil.CreatePreferenceValue(values, checked).value;
    var tokens := Split(text, ',');
    forall i | 0 <= i < |values|
      ensures values[i] !in values[..i]
    {
      assert forall k :: 0 <= k < i ==> values[..i][k] == values[k];
    }
    if exists i :: 0 <= i < |values| && checked[i] {
      ListEditorUtil.CreatePreferenceValueTokens(values, checked);
      forall i | 0 <= i < |values|
        ensures values[i] in tokens <==> checked[i]
      {
        ListEditorUtil.SelectedMembership(values, checked, values[i]);
      }
    } else {
      ListEditorUtil.SelectedIsEmpty(values, checked);
      assert text == "";
      assert tokens == [""] by {
        assert IndexOf("", ',', 0) == -1;
      }
    }
    assert forall i :: 0 <= i < |values| ==> (Marked(values, tokens, i) <==> checked[i]);
    var r := CheckedList(text, values, |values|);
    assert r.Ok? && r.value == checked;
  }

  /**
   * What `ListEditorUtil.saveInput` with `createPreferenceValue` leaves in the store
   * reads back as the same checked list: nothing checked removes the key, and a
   * missing key reads as "".
   */
  lemma SavedCheckedListReadsBack(store: Store, key: string, values: seq<string>, checked: seq<bool>)
    requires WellFormedValues(values) && |checked| == |values|
    ensures var saved := if true in checked
                         then store[key := StringValue(ListEditorUtil.CreatePreferenceValue(values, checked).value)]
                         else store - {key};
            SelectionText(saved, key).Ok? &&
            CheckedList(SelectionText(saved, key).value, values, |values|) == Ok(checked)
  {
    CheckedListOfCreatedValue(values, checked);
    if true !in checked {
      ListEditorUtil.SelectedIsEmpty(values, checked);
    }
  }

  /** A token that is no entry's value changes nothing: unknown values in the stored text are ignored. */
  lemma UnknownTokenIgnored(text: string, unknown: string, values: seq<string>, count: nat)
    requires unknown !in values && ',' !in unknown
    ensures CheckedList(text + [','] + unknown, values, count) == CheckedList(text, values, count)
  {
    SplitAppend(text, ',', unknown);
    var tokens := Split(text, ',');
    assert forall i :: 0 <= i < |values| ==> (Marked(values, tokens + [unknown], i) <==> Marked(values, tokens, i));
    var a, b := CheckedList(text + [','] + unknown, values, count), CheckedList(text, values, count);
    assert a.Ok? <==> b.Ok?;
    if a.Ok? {
      assert forall i :: 0 <= i < count ==> a.value[i] == b.value[i];
      assert a.value == b.value;
    }
  }
}
