/**
 * Value types shared by the song service and the HTTP controller: the song
 * entity, the service's outcome classification and the response wrappers
 * the service hands to the controller.
 */
module Models {

  /** An optional value; `None` stands for a C# `null`. */
  datatype Option<+T> = None | Some(value: T)

  /** A song as stored by the service and sent over the wire. */
  datatype Song = Song(id: int, name: string, artist: string, imageUrl: string)

  /** How a service operation classifies its outcome: exactly one per call. */
  datatype Result = Ok | NotFound | BadRequest | Err

  /** The outcome of a service operation that returns data (list, get, add). */
  datatype ServiceResponse<T> = ServiceResponse(result: Result, data: Option<T>)

  /** The outcome of a service operation without a return value (update, delete). */
  datatype PlainResponse = PlainResponse(result: Result)
}
