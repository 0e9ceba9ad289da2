/**
 * The statuses the controller's doc comments and response-type attributes
 * announce for each action, set against the statuses its code produces.
 */
module DocumentedContract {
  import opened Models
  import opened ActionResults
  import opened SongController

  datatype Action = GetSongsAction | GetSongAction | PutSongAction | PostSongAction | DeleteSongAction

  /** Every result a service operation can report. */
  const AllResults: set<Result> := {Ok, NotFound, BadRequest, Err}

  /**
   * The status action `a` answers when the service reports `r`; the payload
   * does not affect it (SongController.StatusIgnoresPayload).
   */
  function StatusOf(a: Action, r: Result): int {
    match a
    case GetSongsAction => GetSongs(ServiceResponse(r, None)).Status()
    case GetSongAction => GetSong(ServiceResponse(r, None)).Status()
    case PutSongAction => PutSong(PlainResponse(r)).Status()
    case PostSongAction => PostSong(ServiceResponse(r, None)).Status()
    case DeleteSongAction => DeleteSong(PlainResponse(r)).Status()
  }

  /** The statuses action `a` can answer, over every result of the service. */
  function Produced(a: Action): set<int> {
    set r | r in AllResults :: StatusOf(a, r)
  }

  /** The statuses the doc comment and the response-type attributes of action `a` announce. */
  function Documented(a: Action): set<int> {
    match a
    case GetSongsAction => {Status200OK, Status404NotFound}
    case GetSongAction => {Status200OK, Status404NotFound}
    case PutSongAction =>
      {Status200OK, Status400BadRequest, Status404NotFound, Status500InternalServerError}
    case PostSongAction => {Status201Created, Status400BadRequest}
    case DeleteSongAction => {Status204NoContent, Status404NotFound}
  }

  /** Exactly which statuses each action can answer. */
  lemma ProducedStatuses(a: Action)
    ensures Produced(a) == match a
      case GetSongsAction => {Status200OK, Status404NotFound}
      case GetSongAction => {Status200OK, Status404NotFound}
      case PutSongAction =>
        {Status204NoContent, Status400BadRequest, Status404NotFound, Status500InternalServerError}
      case PostSongAction => {Status201Created, Status500InternalServerError}
      case DeleteSongAction => {Status204NoContent, Status404NotFound}
  {
  }

  /**
   * Where code and documentation part: PUT answers 204 where 200 is announced,
   * POST answers an unannounced 500 and never the announced 400; the other
   * three actions answer exactly what they announce.
   */
  lemma DocumentationGaps(a: Action)
    ensures Produced(a) - Documented(a) ==
      if a == PutSongAction then {Status204NoContent}
      else if a == PostSongAction then {Status500InternalServerError}
      else {}
    ensures Documented(a) - Produced(a) ==
      if a == PutSongAction then {Status200OK}
      else if a == PostSongAction then {Status400BadRequest}
      else {}
  {
  }

  /** A response falls outside its action's documentation exactly for a successful PUT and a failed POST. */
  lemma UndocumentedAnswer(a: Action, r: Result)
    ensures StatusOf(a, r) !in Documented(a) <==>
              (a == PutSongAction && r == Ok) || (a == PostSongAction && r == Err)
  {
  }

  /** The status alone tells a client what the service reported exactly when the action is PUT. */
  lemma StatusRevealsResult(a: Action)
    ensures (forall r1, r2 :: StatusOf(a, r1) == StatusOf(a, r2) ==> r1 == r2) <==> a == PutSongAction
  {
    // Two different results the action answers alike, when it is not PUT.
    match a
    case GetSongsAction =>
      assert StatusOf(a, Ok) == StatusOf(a, Err);
    case GetSongAction =>
      assert StatusOf(a, Ok) == StatusOf(a, Err);
    case PostSongAction =>
      assert StatusOf(a, Ok) == StatusOf(a, BadRequest);
    case DeleteSongAction =>
      assert StatusOf(a, Ok) == StatusOf(a, Err);
    case PutSongAction =>
  }
}
