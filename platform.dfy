/** The Android platform values the modelled code relies on. */
module Platform {
  import opened Text
  import opened Preferences

  /** `Activity.RESULT_OK`. */
  const RESULT_OK: Int32 := -1
  /** `Activity.RESULT_CANCELED`. */
  const RESULT_CANCELED: Int32 := 0

  /** An `Intent`'s extras: a value per key. */
  datatype Intent = Intent(extras: map<string, Value>)
}
