/** Optional values and success-or-error results, used for Python's `None`
    defaults and for the `ValueError` the dispatcher raises. */
module Results {

  datatype Option<+T> = None | Some(value: T)

  datatype Result<+T, +E> = Success(value: T) | Failure(error: E)
}
