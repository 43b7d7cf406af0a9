/** Optional values, the exceptions of the library, and results that carry either. */
module Wrappers {

  /** A Kotlin `T?` / a Java reference that may be null. */
  datatype Option<+T> = None | Some(value: T)

  /** The exceptions the modelled code throws, by class. */
  datatype Error =
    | IllegalArgument      // java.lang.IllegalArgumentException, also from Kotlin `require`
    | IllegalState         // java.lang.IllegalStateException
    | NullPointer          // java.lang.NullPointerException, also Kotlin `!!` on null
    | ClassCast            // SharedPreferences.getString on a value that is not a String
    | Runtime              // a bare java.lang.RuntimeException
    | IndexOutOfBounds     // java.lang.ArrayIndexOutOfBoundsException
    | UninitializedProperty // reading a Kotlin `lateinit` property before it is set

  /** A value, or the exception thrown instead of returning one. */
  datatype Result<+T> = Ok(value: T) | Err(error: Error)

  /** The outcome of a call that returns nothing: it completes, or it throws. */
  datatype Outcome = Pass | Fail(error: Error)
}
