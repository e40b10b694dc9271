/**
 * The crate's error type (src/error.rs) and the outcomes an operation can
 * have. Rust's `Result<T, StemError>` becomes `Outcome<T>`; a panic (an
 * `expect` on an error, an index or slice out of bounds) aborts the thread
 * and is kept apart as a third outcome so that the model can say when it
 * cannot happen.
 */
module Errors {

  /** Mirrors `StemError`; `Manifest` is the variant `ensure_model` uses for
      an unresolvable primary artifact. */
  datatype StemError =
    | Anyhow(message: string)
    | Registry(message: string)
    | Checksum(path: string)
    | CacheDirUnavailable
    | Manifest(message: string)

  datatype Outcome<+T> =
    | Ok(value: T)
    | Err(error: StemError)
    | Panic(message: string)

  datatype Option<+T> = None | Some(value: T)

  /** The `?` operator: a failure passed on unchanged to a caller with
      another result type. */
  function Propagate<T, U>(o: Outcome<T>): (r: Outcome<U>)
    requires !o.Ok?
    ensures o.Err? ==> r == Err(o.error)
    ensures o.Panic? ==> r == Panic(o.message)
  {
    if o.Err? then Err(o.error) else Panic(o.message)
  }
}
