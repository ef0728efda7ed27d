/**
 * What a portal handler hands back to the transport layer: a status, a body and
 * the cache-validator headers, and the error records of the portal's error body.
 */
module Http {
  import opened Optional

  /** One entry of the portal's error body. */
  datatype Error = Error(code: string, status: string, message: string)

  /**
   * A handler's response. Ok carries the ETag and Last-Modified headers when the
   * handler sets them; NotFound carries the error body; ServerError stands for an
   * unchecked exception (a null dereference) escaping the handler.
   */
  datatype Response<+B> =
    | Ok(body: B, etag: Option<string>, lastModified: Option<int>)
    | Created(body: B)
    | NoContent
    | BadRequest(message: string)
    | Forbidden
    | NotFound(errors: seq<Error>)
    | ServerError

  /** The HTTP status code a response is sent with. */
  function StatusCode<B>(r: Response<B>): (code: int)
    ensures 200 <= code < 600
    ensures code < 300 <==> r.Ok? || r.Created? || r.NoContent?
  {
    match r
    case Ok(_, _, _) => 200
    case Created(_) => 201
    case NoContent => 204
    case BadRequest(_) => 400
    case Forbidden => 403
    case NotFound(_) => 404
    case ServerError => 500
  }

  const API_NOT_FOUND_CODE := "errors.api.notFound"
  const API_NOT_FOUND_PREFIX := "Api ["
  const API_NOT_FOUND_SUFFIX := "] can not be found."

  /** The error body an ApiNotFoundException renders to. */
  function ApiNotFound(apiId: string): (errors: seq<Error>)
  {
    [Error(API_NOT_FOUND_CODE, "404", API_NOT_FOUND_PREFIX + apiId + API_NOT_FOUND_SUFFIX)]
  }

  /**
   * A not-found body holds exactly one error, with the fixed code, the status
   * "404", and a message that embeds the API id right after "Api [".
   */
  lemma ApiNotFoundShape(apiId: string)
    ensures |ApiNotFound(apiId)| == 1
    ensures ApiNotFound(apiId)[0].code == "errors.api.notFound"
    ensures ApiNotFound(apiId)[0].status == "404"
    ensures ApiNotFound(apiId)[0].message == "Api [" + apiId + "] can not be found."
  {
  }

  /** The not-found body identifies the API: different ids give different bodies. */
  lemma ApiNotFoundInjective(a: string, b: string)
    ensures ApiNotFound(a) == ApiNotFound(b) ==> a == b
  {
    if ApiNotFound(a) == ApiNotFound(b) {
      var ma, mb := ApiNotFound(a)[0].message, ApiNotFound(b)[0].message;
      assert |a| == |b|;
      forall i | 0 <= i < |a|
        ensures a[i] == b[i]
      {
        assert ma[|API_NOT_FOUND_PREFIX| + i] == a[i];
        assert mb[|API_NOT_FOUND_PREFIX| + i] == b[i];
      }
    }
  }
}
