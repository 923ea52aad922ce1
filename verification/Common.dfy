/** Values used across the model. */
module Common {
  newtype byte = x: int | 0 <= x < 256

  /** Seconds for which one scan of a container answers for it. */
  const SCAN_TTL: nat := 300

  datatype Option<+T> = None | Some(value: T)

  function Min(a: int, b: int): int {
    if a < b then a else b
  }

  function Max(a: int, b: int): int {
    if a > b then a else b
  }

  /** How a failed request to the object store ends. */
  datatype RequestError = Canceled | NotFound | AccessDenied | AlreadyRemoved | OtherError

  datatype Errno = OK | EINVAL | EOVERFLOW | EINTR | EROFS | ENOTSUP | EXDEV | ENOENT | EACCES | EIO

  /** The error number a failed request is reported as. */
  function ErrnoOf(err: RequestError): (e: Errno)
    ensures e in {ENOENT, EACCES, EIO}
    ensures e == ENOENT <==> err == NotFound || err == AlreadyRemoved
    ensures e == EACCES <==> err == AccessDenied
  {
    match err
    case NotFound => ENOENT
    case AccessDenied => EACCES
    case AlreadyRemoved => ENOENT
    case _ => EIO
  }
}
