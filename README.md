# Song API controller — a Dafny model

The song API exposes create, read, update and delete over one resource, the
`Song` (`id`, `name`, `artist`, `imageUrl`), at `api/song`. Each controller
action hands its request to the song service. The service answers with a
`ServiceResponse` holding a `Result` (`Ok`, `NotFound`, `BadRequest`, `Err`)
and, for the list, get and add operations, optional `Data`. The action then
turns that answer into an HTTP result.

This project models that translation. Each of the five actions is a pure
function from the service's answer to an action result. The service is not
modelled: what it answers is the function's parameter.

Files:

- `models.dfy` (module `Models`): `Song`, `Result`, `ServiceResponse<T>` (result
  and optional data) and `PlainResponse` (result only, for update and delete).
- `action_results.dfy` (module `ActionResults`): the action results the
  controller builds (`Ok`, `NotFound`, `BadRequest`, `NoContent`,
  `StatusCode`, `Problem`, `CreatedAtAction`), with the status code, body,
  location and problem detail of each.
- `song_controller.dfy` (module `SongController`): the five actions, their
  contracts, and lemmas relating actions and results.
- `documented_contract.dfy` (module `DocumentedContract`): the statuses each
  action's doc comment and response-type attributes announce, compared with
  the statuses its code can produce.

Where the code and the documentation disagree, the model follows the code
and proves the disagreement:

- PUT answers 204 on success, not the documented 200.
- POST can never answer the documented 400. When the service reports `Err`,
  it answers a 500 that is not documented.
- GET list answers 404 when the service reports `NotFound`. An empty list
  reported as `Ok` is still a 200.
- GET by id and DELETE do not map `Err` to 500, and GET list and POST do not
  map `BadRequest` to 400. Only PUT has a distinct status for each result.

## Model

| member | source | states |
|---|---|---|
| `SongController.GetSongs` | Song.API/Controllers/SongController.cs:26-34 | 404 iff the service reports NotFound, and then no body; otherwise 200 with the service's data unchanged, including an empty or absent list |
| `SongController.GetSong` | Song.API/Controllers/SongController.cs:46-54 | 404 iff the service reports NotFound; every other result, Err and BadRequest included, gives 200 with the data unchanged, possibly absent |
| `SongController.PutSong` | Song.API/Controllers/SongController.cs:84-101 | 204 iff Ok, 400 iff BadRequest, 404 iff NotFound, 500 iff Err; never a body |
| `SongController.PostSong` | Song.API/Controllers/SongController.cs:124-132 | 500 iff the service reports Err, with the detail "Entity set 'SongContext.Songs' is null." and no song in the body; otherwise 201 carrying the service's data and a route to GetSong whose id is present iff the data is present and equals the data's id |
| `SongController.DeleteSong` | Song.API/Controllers/SongController.cs:144-151 | 404 iff the service reports NotFound; every other result gives 204; never a body |
| `SongController.PutStatusDeterminesResult` | Song.API/Controllers/SongController.cs:87-100 | a client's reading of the PUT status gives back exactly the service's result, and no other status reads as that result |
| `SongController.StatusIgnoresPayload` | Song.API/Controllers/SongController.cs:30-131 | for GET list, GET by id and POST, two service answers with the same result get the same status, whatever their data |
| `SongController.GetSongHidesFailures` | Song.API/Controllers/SongController.cs:50-53 | GET by id answers Err and BadRequest exactly as it answers Ok with the same data |
| `SongController.DeleteSongHidesFailures` | Song.API/Controllers/SongController.cs:147-150 | DELETE answers Err and BadRequest with the same 204 No Content as Ok |
| `SongController.PostSongHidesRejections` | Song.API/Controllers/SongController.cs:128-131 | POST answers NotFound and BadRequest exactly as it answers Ok, which is 201 |
| `SongController.EmptyListIsOk` | Song.API/Controllers/SongController.cs:22-33 | every Ok answers 200 with the service's list unchanged; in particular an empty list gives 200, not the 404 "if no songs exists" the doc comment announces |
| `SongController.OnlyPutAnswersBadRequest` | Song.API/Controllers/SongController.cs:26-151 | no action but PUT can answer 400, and PUT answers 400 iff the service reports BadRequest |
| `DocumentedContract.ProducedStatuses` | Song.API/Controllers/SongController.cs:26-151 | the statuses each action can produce over all results: GET list and GET by id {200, 404}; PUT {204, 400, 404, 500}; POST {201, 500}; DELETE {204, 404} |
| `DocumentedContract.DocumentationGaps` | Song.API/Controllers/SongController.cs:17-143 | against the announced statuses, PUT produces an unannounced 204 and never the announced 200; POST produces an unannounced 500 and never the announced 400; the other actions match their documentation exactly |
| `DocumentedContract.UndocumentedAnswer` | Song.API/Controllers/SongController.cs:75-131 | an action answers with a status outside its documentation iff it is a PUT whose service result is Ok or a POST whose service result is Err |
| `DocumentedContract.StatusRevealsResult` | Song.API/Controllers/SongController.cs:30-150 | the status determines the service's result iff the action is PUT; each other action answers two different results alike |

## Left out

- The song service and its storage are not part of this model. Their answer
  is a parameter of each action, so the model invents no lookup, insert or
  delete semantics.
- The request's `id` and `song` arguments are only forwarded to the service,
  so they do not appear in the action functions.
- The controller's constructor only stores the service. Having no service,
  the model has nothing to store.
- `async`, `Task` and `await`: each action is modelled as a plain function,
  because nothing in it runs concurrently.
- Routing, the `[Http*]`, `[Route]`, `[Produces]` and `[ProducesResponseType]`
  attributes, and URL generation for `CreatedAtAction`. The announced
  statuses are kept only as data in `DocumentedContract.Documented`.
- Framework behaviour that runs outside the action bodies is not modelled:
  - `[ApiController]` answers 400 on its own when the request body cannot be
    bound. `SongController.OnlyPutAnswersBadRequest` speaks only of what the
    action code returns.
  - ASP.NET's output formatter writes an `Ok` result with a null value as a
    204 on the wire. The model keeps the action's own result, a 200 with an
    absent body.
  - When POST gets a non-`Err` answer without data, `CreatedAtAction` is
    given a null route id and cannot build a URL to the `{id}` route when it
    executes. The model describes the 201 result the action returns, whose
    route id is absent; that 201 is not what reaches the client.
- `Result` is modelled as closed. C# enum values outside the four named ones
  are not modelled: PUT's `default:` branch would send them to 500, and the
  other actions would treat them like `Ok`.
- The problem details of `Problem(...)` other than its status and detail
  (title, type, trace id), and JSON serialization with camel-case names.
