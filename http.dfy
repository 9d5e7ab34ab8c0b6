/** The HTTP responses the two Spring controllers build: a status code and a body. */
module Http {
  import opened Common

  const OK: int := 200
  const CREATED: int := 201
  const NO_CONTENT: int := 204
  const BAD_REQUEST: int := 400
  const NOT_FOUND: int := 404
  const INTERNAL_SERVER_ERROR: int := 500

  /** A `ResponseEntity`: a status code and an optional body (`None` is a null body). */
  datatype Response<+B> = Response(status: int, body: Option<B>)

  /** A 2xx status, the range in which the browser's `response.ok` is true. */
  predicate IsSuccess(status: int)
  {
    200 <= status <= 299
  }

  /**
   * `catch (RuntimeException e) { rejected } catch (Exception e) { 500 }` around a call that
   * answers `success` with its value: the catch blocks of the lookup and mutation handlers.
   */
  function MapOutcome<T>(r: Result<T>, success: int, rejected: int): (resp: Response<T>)
    requires IsSuccess(success) && !IsSuccess(rejected) && rejected != INTERNAL_SERVER_ERROR
    ensures resp.status == success <==> r.Ok?
    ensures resp.status == rejected <==> r.Err? && r.failure.Runtime?
    ensures resp.status == INTERNAL_SERVER_ERROR <==> r.Err? && r.failure.Checked?
    ensures resp.body.Some? <==> r.Ok?
    ensures r.Ok? ==> resp.body.value == r.value
  {
    match r
    case Ok(v) => Response(success, Some(v))
    case Err(Runtime(_)) => Response(rejected, None)
    case Err(Checked(_)) => Response(INTERNAL_SERVER_ERROR, None)
  }
}
