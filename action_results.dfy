/**
 * The action results the controller builds through the helpers of its
 * ASP.NET base class, and the HTTP status code each one carries.
 */
module ActionResults {
  import opened Models

  const Status200OK := 200
  const Status201Created := 201
  const Status204NoContent := 204
  const Status400BadRequest := 400
  const Status404NotFound := 404
  const Status500InternalServerError := 500

  /** Where a 201 response points: the action that reads the new resource and its route id. */
  datatype RouteTarget = RouteTarget(actionName: string, id: Option<int>)

  /** One constructor per helper the controller calls. */
  datatype ActionResult<T> =
    | OkObject(okValue: Option<T>)                                // Ok(value)
    | NotFoundResult                                              // NotFound()
    | BadRequestResult                                            // BadRequest()
    | NoContentResult                                             // NoContent()
    | StatusCodeResult(code: int)                                 // StatusCode(code)
    | ProblemResult(detail: string)                               // Problem(detail)
    | CreatedAtActionResult(target: RouteTarget, createdValue: Option<T>) // CreatedAtAction(...)
  {
    /** The HTTP status code of the response; `Problem` without a status code means 500. */
    function Status(): int {
      match this
      case OkObject(_) => Status200OK
      case NotFoundResult => Status404NotFound
      case BadRequestResult => Status400BadRequest
      case NoContentResult => Status204NoContent
      case StatusCodeResult(c) => c
      case ProblemResult(_) => Status500InternalServerError
      case CreatedAtActionResult(_, _) => Status201Created
    }

    /** The payload the response carries, if any. */
    function Body(): Option<T> {
      match this
      case OkObject(v) => v
      case CreatedAtActionResult(_, v) => v
      case _ => None
    }

    /** The route a 201 response names as the location of the new resource. */
    function Location(): Option<RouteTarget> {
      if CreatedAtActionResult? then Some(target) else None
    }

    /** The detail message of a problem response. */
    function Detail(): Option<string> {
      if ProblemResult? then Some(detail) else None
    }
  }
}
