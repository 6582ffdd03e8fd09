/** Result and error types shared by every part of the finance backend model. */
module Common {

  datatype Option<T> = None | Some(value: T) {
    /** Python's `x or default` for a nullable column. */
    function GetOr(default: T): T {
      if Some? then value else default
    }
  }

  /** The HTTP errors the route handlers raise. */
  datatype HttpError = Forbidden | NotFound | ServerError {
    function Status(): int {
      match this
      case Forbidden => 403
      case NotFound => 404
      case ServerError => 500
    }
  }

  /** A handler outcome: the JSON body, or the HTTPException it raises. */
  datatype Result<T> = Ok(value: T) | Err(error: HttpError)

  /**
   * The wrapper `except Exception as e: raise HTTPException(500, detail=str(e))` that most
   * handlers put around their whole body. FastAPI's HTTPException is itself an Exception, so
   * a 403 or 404 raised inside the `try` comes out as a 500.
   */
  function Caught<T>(r: Result<T>): (c: Result<T>)
    ensures c.Ok? <==> r.Ok?
    ensures r.Ok? ==> c == r
    ensures c.Err? ==> c.error.Status() == 500
  {
    if r.Ok? then r else Err(ServerError)
  }

  /** `os.getenv(key, default)`: a set variable wins, even when it is empty. */
  function Getenv(env: map<string, string>, key: string, default: string): (v: string)
    ensures key in env ==> v == env[key]
    ensures key !in env ==> v == default
  {
    if key in env then env[key] else default
  }
}
