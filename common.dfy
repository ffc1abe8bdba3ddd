/** Shared vocabulary of the marketplace back end and front end: optional
    values, request outcomes and the identifiers the records refer to. */
module Common {

  /** A value that may be missing (JavaScript `undefined`). */
  datatype Option<+T> = None | Some(value: T) {
    function GetOr(default: T): T {
      match this
      case Some(v) => v
      case None => default
    }
  }

  /** `m[k]` on a dictionary: None when the key is absent. */
  function Lookup<K, V>(m: map<K, V>, k: K): (r: Option<V>)
    ensures r.Some? <==> k in m
    ensures r.Some? ==> r.value == m[k]
  {
    if k in m then Some(m[k]) else None
  }

  /** A database object id (a Mongo ObjectId). */
  type Id = nat

  /** A point in time, in milliseconds since the epoch. */
  type Time = int

  /** How a request handler fails: the HTTP status it answers with and its message. */
  datatype Failure =
    | BadRequest(message: string)    // 400
    | Forbidden(message: string)     // 403
    | NotFound(message: string)      // 404
    | ServerError(message: string)   // 500, the handlers' catch blocks

  /** The JSON answer of a handler: the value it sends, or its failure. */
  datatype Result<+T> = Ok(value: T) | Err(failure: Failure)

  /** The user a bearer token names (`req.user`): its id and role. */
  datatype Caller = Caller(id: Id, role: string)

  /** A file received in a multipart request. The object store is not part of
      this model: `stored` is what the upload answered for this file, the secure
      URL of the stored copy, or None when the upload threw. */
  datatype UploadedFile = UploadedFile(fieldName: string, stored: Option<string>)

  /** True when every file in `files` was stored. */
  predicate AllStored(files: seq<UploadedFile>)
  {
    forall i :: 0 <= i < |files| ==> files[i].stored.Some?
  }

  /** The URLs of `files`, in upload order. */
  function StoredUrls(files: seq<UploadedFile>): (urls: seq<string>)
    requires AllStored(files)
    ensures |urls| == |files|
    ensures forall i :: 0 <= i < |files| ==> urls[i] == files[i].stored.value
  {
    if files == [] then [] else [files[0].stored.value] + StoredUrls(files[1..])
  }
}
