/** Option type standing in for Java's nullable references and for operations that throw. */
module Base {

  /** `None` is a Java `null` or, for an operation that can throw, the exception. */
  datatype Option<+T> = None | Some(value: T)
}
