/** Failure-carrying values shared by the whole model. Go returns `(value, error)`
    pairs; a call that can fail is modelled as a `Result`, an optional field
    (a Go pointer that may be nil) as an `Option`. */
module Results {

  datatype Option<+T> = None | Some(value: T)

  datatype Result<+R, +E> = Success(value: R) | Failure(error: E)
}
