/** How operations and reconcile stages end. */
module Results {
  datatype Option<T> = None | Some(value: T)

  /** A stage lets the reconcile go on, makes it wait for a later one, or fails it. */
  datatype Flow = Proceed | Wait | Fail
}
