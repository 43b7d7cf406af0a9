/**
 * type/SingleSelectionType.kt: how a single-choice list confirms the choice,
 * stored by its numeric id.
 */
module SingleSelectionTypeModel {
  import opened Wrappers
  import opened Text

  datatype SingleSelectionType = OkCancel | ItemClick

  /** The `id` each constant is declared with: OK_CANCEL(0), ITEM_CLICK(1). */
  function Id(t: SingleSelectionType): Int32 {
    match t
    case OkCancel => 0
    case ItemClick => 1
  }

  /** `values()`: the constants in declaration order. */
  const VALUES: seq<SingleSelectionType> := [OkCancel, ItemClick]

  /** `types.find { it.id == id }`: the first constant carrying the id. */
  function FindById(types: seq<SingleSelectionType>, id: Int32): (r: Option<SingleSelectionType>)
    ensures r.Some? ==> r.value in types && Id(r.value) == id
    ensures r.None? ==> forall t :: t in types ==> Id(t) != id
  {
    if |types| == 0 then None
    else if Id(types[0]) == id then Some(types[0])
    else FindById(types[1..], id)
  }

  /** `SingleSelectionType.from(id)`: the constant with that id, else an IllegalArgumentException. */
  function From(id: Int32): (r: Result<SingleSelectionType>)
    ensures r.Ok? ==> Id(r.value) == id
    ensures r.Err? ==> r.error == IllegalArgument
  {
    match FindById(VALUES, id)
    case Some(t) => Ok(t)
    case None => Err(IllegalArgument)
  }

  /** Every constant is found again from its id. */
  lemma FromId(t: SingleSelectionType)
    ensures From(Id(t)) == Ok(t)
  {
    assert t in VALUES;
  }

  /** Ids other than 0 and 1 are refused. */
  lemma FromRejectsUnknownId(id: Int32)
    ensures From(id).Err? <==> id != 0 && id != 1
  {
    if id == 0 {
      FromId(OkCancel);
    } else if id == 1 {
      FromId(ItemClick);
    }
  }
}
