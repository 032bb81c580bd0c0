/** Return values shared by the category packages: Go's `(value, error)` pairs and
    bare `error` returns, written as Dafny datatypes. */
module Results {

  datatype Option<+T> = None | Some(value: T)

  /** The errors the modelled code can produce. */
  datatype Error =
    | ElementNotFound(key: string)     // inMemory.Get: element "<key>" not found
    | NoValidParent                    // FindMainCategory: Find returned no category
    | ParentNotFound(looked: int)      // FindMainCategory: more than 10 parent hops
    | TypeMismatch(key: string)        // a cached value of the wrong shape (a panic in Go)
    | StoreFailure(reason: string)     // any failure of the key-value store behind a repository

  /** A Go `(T, error)` pair where exactly one of the two is meaningful. */
  datatype Result<+T> = Ok(value: T) | Err(error: Error)

  /** A Go `error` return: nil is `Pass`. */
  datatype Outcome = Pass | Fail(error: Error)
}
