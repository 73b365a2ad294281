/** The failures the combat engine can raise, and the wrappers that carry a
    value or a failure. */
module Results {

  /** What a call can raise instead of returning a value. */
  datatype Error =
    | EmptyAttackList                     // picking an attack out of an empty list
    | UninitializedProperty(name: string) // reading a builder field that was never set

  datatype Result<T> = Ok(value: T) | Err(error: Error)

  datatype Option<T> = None | Some(value: T)
}
