/**
 * The song controller: each action forwards its request to the song service
 * and turns the service's response into an action result. The service is
 * not modelled; what it answers is the parameter of each action.
 */
module SongController {
  import opened Models
  import opened ActionResults

  /** The detail of the problem response a failed creation returns. */
  const NullSongSetDetail := "Entity set 'SongContext.Songs' is null."

  /** The action a 201 response points the client to. */
  const GetSongActionName := "GetSong"

  /** GET api/song: every song, or 404 when the service says there is nothing to find. */
  function GetSongs(response: ServiceResponse<seq<Song>>): (r: ActionResult<seq<Song>>)
    ensures r.Status() == Status404NotFound <==> response.result == NotFound
    ensures r.Status() in {Status200OK, Status404NotFound}
    ensures r.Status() == Status200OK ==> r.Body() == response.data
    ensures r.Status() == Status404NotFound ==> r.Body() == None
  {
    if response.result == NotFound then NotFoundResult else OkObject(response.data)
  }

  /** GET api/song/{id}: the song, or 404 when the service cannot find it. */
  function GetSong(response: ServiceResponse<Song>): (r: ActionResult<Song>)
    ensures r.Status() == Status404NotFound <==> response.result == NotFound
    ensures r.Status() in {Status200OK, Status404NotFound}
    ensures r.Status() == Status200OK ==> r.Body() == response.data
    ensures r.Status() == Status404NotFound ==> r.Body() == None
  {
    if response.result == NotFound then NotFoundResult else OkObject(response.data)
  }

  /** PUT api/song/{id}: one distinct status per service result, never a body. */
  function PutSong(response: PlainResponse): (r: ActionResult<()>)
    ensures r.Status() == Status204NoContent <==> response.result == Ok
    ensures r.Status() == Status400BadRequest <==> response.result == BadRequest
    ensures r.Status() == Status404NotFound <==> response.result == NotFound
    ensures r.Status() == Status500InternalServerError <==> response.result == Err
    ensures r.Body() == None
  {
    match response.result
    case BadRequest => BadRequestResult
    case NotFound => NotFoundResult
    case Ok => NoContentResult
    case _ => StatusCodeResult(Status500InternalServerError)
  }

  /**
   * POST api/song: a problem response when the service reports an error,
   * otherwise 201 with the service's song and a route to GetSong carrying its id.
   */
  function PostSong(response: ServiceResponse<Song>): (r: ActionResult<Song>)
    ensures r.Status() == Status500InternalServerError <==> response.result == Err
    ensures r.Status() in {Status201Created, Status500InternalServerError}
    ensures r.Status() == Status500InternalServerError ==>
              r.Detail() == Some(NullSongSetDetail) && r.Body() == None
    ensures r.Status() == Status201Created ==>
              && r.Body() == response.data
              && r.Location().Some?
              && r.Location().value.actionName == GetSongActionName
              && (r.Location().value.id.Some? <==> response.data.Some?)
              && (response.data.Some? ==> r.Location().value.id.value == response.data.value.id)
  {
    if response.result == Err then
      ProblemResult(NullSongSetDetail)
    else
      var id := if response.data.Some? then Some(response.data.value.id) else None;
      CreatedAtActionResult(RouteTarget(GetSongActionName, id), response.data)
  }

  /** DELETE api/song/{id}: 404 when the service cannot find the song, otherwise 204. */
  function DeleteSong(response: PlainResponse): (r: ActionResult<()>)
    ensures r.Status() == Status404NotFound <==> response.result == NotFound
    ensures r.Status() in {Status204NoContent, Status404NotFound}
    ensures r.Body() == None
  {
    if response.result == NotFound then NotFoundResult else NoContentResult
  }

  /** How a client reads the status of a PUT back into the service's result. */
  function PutResultOf(status: int): Option<Result> {
    if status == Status204NoContent then Some(Ok)
    else if status == Status400BadRequest then Some(BadRequest)
    else if status == Status404NotFound then Some(NotFound)
    else if status == Status500InternalServerError then Some(Err)
    else None
  }

  /** PUT is the one action whose status tells the client exactly what the service said. */
  lemma PutStatusDeterminesResult(response: PlainResponse, status: int)
    ensures PutResultOf(PutSong(response).Status()) == Some(response.result)
    ensures PutResultOf(status) == Some(response.result) ==> PutSong(response).Status() == status
  {
  }

  /** For the actions that carry data, the status depends on the service's result alone. */
  lemma StatusIgnoresPayload(x: ServiceResponse<seq<Song>>, y: ServiceResponse<seq<Song>>,
                             u: ServiceResponse<Song>, v: ServiceResponse<Song>)
    requires x.result == y.result && u.result == v.result
    ensures GetSongs(x).Status() == GetSongs(y).Status()
    ensures GetSong(u).Status() == GetSong(v).Status()
    ensures PostSong(u).Status() == PostSong(v).Status()
  {
  }

  /** GET api/song/{id} answers an error or a bad request exactly as it answers success. */
  lemma GetSongHidesFailures(data: Option<Song>)
    ensures GetSong(ServiceResponse(Err, data)) == GetSong(ServiceResponse(Ok, data))
    ensures GetSong(ServiceResponse(BadRequest, data)) == GetSong(ServiceResponse(Ok, data))
  {
  }

  /** DELETE answers an error or a bad request with the same 204 as a deletion. */
  lemma DeleteSongHidesFailures()
    ensures DeleteSong(PlainResponse(Err)) == DeleteSong(PlainResponse(Ok)) == NoContentResult
    ensures DeleteSong(PlainResponse(BadRequest)) == DeleteSong(PlainResponse(Ok))
  {
  }

  /** POST answers "not found" and "bad request" with the same 201 as a creation. */
  lemma PostSongHidesRejections(data: Option<Song>)
    ensures PostSong(ServiceResponse(NotFound, data)) == PostSong(ServiceResponse(Ok, data))
    ensures PostSong(ServiceResponse(BadRequest, data)) == PostSong(ServiceResponse(Ok, data))
    ensures PostSong(ServiceResponse(Ok, data)).Status() == Status201Created
  {
  }

  /**
   * Whatever list an Ok carries, GET api/song answers 200 with it unchanged; in
   * particular an empty list is a 200, not the "no songs exist" 404 the
   * action's documentation announces.
   */
  lemma EmptyListIsOk()
    ensures forall data :: GetSongs(ServiceResponse(Ok, data)) == OkObject(data)
    ensures GetSongs(ServiceResponse(Ok, Some([]))).Status() == Status200OK
  {
  }

  /** Only PUT can answer 400, and only when the service says the request is bad. */
  lemma OnlyPutAnswersBadRequest(list: ServiceResponse<seq<Song>>, one: ServiceResponse<Song>,
                                 created: ServiceResponse<Song>, update: PlainResponse,
                                 removal: PlainResponse)
    ensures GetSongs(list).Status() != Status400BadRequest
    ensures GetSong(one).Status() != Status400BadRequest
    ensures PostSong(created).Status() != Status400BadRequest
    ensures DeleteSong(removal).Status() != Status400BadRequest
    ensures PutSong(update).Status() == Status400BadRequest <==> update.result == BadRequest
  {
  }
}
