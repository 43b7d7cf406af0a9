/**
 * Android's `SharedPreferences`, reduced to what the library uses: a map from keys
 * to typed values, typed reads with a default, and single-key edits that are
 * applied at once (`edit().putX(key, v).apply()`, `edit().remove(key).apply()`).
 */
module Preferences {
  import opened Wrappers
  import opened Text

  /** A stored value: the types the modelled code reads or writes. */
  datatype Value = StringValue(text: string) | IntValue(number: Int32) | BoolValue(flag: bool)

  type Store = map<string, Value>

  /** `getString(key, default)`: the stored string, the default when the key is absent, ClassCastException for another type. */
  function GetString(store: Store, key: string, default: Option<string>): (r: Result<Option<string>>)
    ensures key !in store ==> r == Ok(default)
    ensures key in store ==> (r.Ok? <==> store[key].StringValue?)
  {
    if key !in store then Ok(default)
    else match store[key]
      case StringValue(text) => Ok(Some(text))
      case _ => Err(ClassCast)
  }

  /** `getInt(key, default)`: the stored int, the default when the key is absent, ClassCastException for another type. */
  function GetInt(store: Store, key: string, default: Int32): (r: Result<Int32>)
    ensures key !in store ==> r == Ok(default)
    ensures key in store ==> (r.Ok? <==> store[key].IntValue?)
  {
    if key !in store then Ok(default)
    else match store[key]
      case IntValue(number) => Ok(number)
      case _ => Err(ClassCast)
  }

  /** The two stores agree on every key other than `key`. */
  ghost predicate SameExcept(a: Store, b: Store, key: string) {
    forall k :: k != key ==> (k in a <==> k in b) && (k in a ==> a[k] == b[k])
  }

  /** A `SharedPreferences` instance; its content is replaced by every applied edit. */
  class SharedPreferences {
    var data: Store

    constructor(initial: Store)
      ensures data == initial
    {
      data := initial;
    }

    /** `edit().putString(key, value).apply()`. */
    method PutString(key: string, value: string)
      modifies this
      ensures data == old(data)[key := StringValue(value)]
    {
      data := data[key := StringValue(value)];
    }

    /** `edit().putInt(key, value).apply()`. */
    method PutInt(key: string, value: Int32)
      modifies this
      ensures data == old(data)[key := IntValue(value)]
    {
      data := data[key := IntValue(value)];
    }

    /** `edit().remove(key).apply()`. */
    method Remove(key: string)
      modifies this
      ensures data == old(data) - {key}
    {
      data := data - {key};
    }
  }
}
