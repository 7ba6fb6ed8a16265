/**
 Failure-carrying values shared by the whole model.

 Go returns `(value, error)` pairs where exactly one side is meaningful; here that
 pair is a `Result`. A Go pointer that may be nil is an `Option`.
 */
module Results {

  datatype Option<+T> = None | Some(value: T)

  datatype Result<+T, +E> = Success(value: T) | Failure(error: E)
  {
    /** The error carried by a failed result, if any. */
    function ErrorOf(): Option<E>
    {
      match this
      case Success(_) => None
      case Failure(e) => Some(e)
    }
  }

  /**
   The errors the modelled code can end with.
   - `Collaborator`: an error value returned by a remote call or a foreign library
     (HTTP transport, remote non-2xx, retry exhaustion, RSA); the modelled code
     never inspects it and hands it on unchanged.
   - `Formatted`: an error the modelled code builds itself with `fmt.Errorf`.
   - `Panic`: not an error return at all but a Go runtime panic (a nil pointer
     dereference); kept as a terminal outcome so that the call trace up to it
     can still be stated.
   */
  datatype Error =
    | Collaborator(cause: string)
    | Formatted(message: string)
    | Panic(reason: string)
}
