/** The shapes the SDK exchanges with the server (global.d.ts), the decoded
    response envelope, and the descriptor of one API call. */
module CmsTypes {
  import opened JsValues

  datatype APIError = APIError(status: int, message: string)

  datatype User = User(
    id: string,
    username: Option<string>,
    email: Option<string>,
    pn: Option<string>,
    role: int,
    crtime: int,
    profile: Record)

  /** `{ user }`: the user field is whatever the response carried. */
  datatype Session = Session(user: Slot<User>)

  datatype Post = Post(
    id: string,
    alias: string,
    owner: string,
    status: int,
    crtime: int,
    modtime: int,
    tags: seq<string>,
    kv: Record)

  datatype ReadAccess = ReadPrivate | ReadPublic
  datatype WriteAccess = WritePrivate | WriteMember | WritePublic
  datatype BucketACL = BucketACL(read: ReadAccess, write: WriteAccess)

  /** The part of the server's bucket record the SDK reads. */
  datatype BucketRecord = BucketRecord(alias: string)

  datatype SFSObject = SFSObject(id: string, hashname: string, owner: string, crtime: int, meta: Record)

  /** The decoded JSON body of a response; each operation destructures the
      fields it needs. */
  datatype Envelope = Envelope(
    error: Slot<APIError>,
    token: Slot<string>,
    user: Slot<User>,
    posts: Slot<seq<Post>>,
    post: Slot<Post>,
    bucket: Slot<BucketRecord>,
    sfsObject: Slot<SFSObject>)

  /** One call into the API object: `api.query(endpoint, params)` or
      `api.mutation(endpoint, data)`; None stands for an omitted argument. */
  datatype ApiCall =
    | QueryCall(endpoint: string, params: Option<Record>)
    | MutationCall(endpoint: string, data: Option<Record>)

  /** What an async operation throws. */
  datatype Thrown = Rejected(error: APIError) | TypeError

  datatype Result<+T> = Ok(value: T) | Err(thrown: Thrown)

  /** `if (error) { throw error } return payload`. */
  function Settle<T>(error: Slot<APIError>, payload: T): (r: Result<T>)
    ensures r.Err? <==> error.Has?
    ensures r.Err? ==> r.thrown == Rejected(error.value)
    ensures r.Ok? ==> r.value == payload
  {
    if error.Has? then Err(Rejected(error.value)) else Ok(payload)
  }
}
