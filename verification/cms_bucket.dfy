/** PostCMSBucket: the post operations of one named bucket. Each maps its
    arguments to one API call and the decoded answer to a thrown error or a
    returned payload field; a bucket holds nothing but its name. */
module CmsBucket {
  import opened JsValues
  import opened CmsTypes
  import CmsApi

  datatype PostCMSBucket = PostCMSBucket(name: string)

  /** `getPosts(filter)`: a query to the bucket's path; the filter object, as
      given, is the query parameters. */
  function GetPostsCall(b: PostCMSBucket, filter: Option<Record>): (c: ApiCall)
    ensures c.QueryCall? && c.endpoint == "/" + b.name
    ensures c.params == filter
  {
    QueryCall("/" + b.name, filter)
  }

  /** `getPost(id, kv)`: a query to the post's path with `{ kv }` as the
      parameters when kv is given (an empty array included), and none otherwise. */
  function GetPostCall(b: PostCMSBucket, id: string, kv: Option<seq<string>>): (c: ApiCall)
    ensures c.QueryCall? && c.endpoint == "/" + b.name + "/" + id
    ensures c.params.Some? <==> kv.Some?
    ensures kv.Some? ==> Keys(c.params.value) == ["kv"] && Lookup(c.params.value, "kv") == Some(Arr(Strs(kv.value)))
  {
    QueryCall("/" + b.name + "/" + id, if kv.Some? then Some([("kv", Arr(Strs(kv.value)))]) else None)
  }

  /** `createPost(data)`: the data as given; the bucket's name is not sent. */
  function CreatePostCall(b: PostCMSBucket, data: Option<Record>): (c: ApiCall)
    ensures c.MutationCall? && c.endpoint == "create-post"
    ensures c.data == data
  {
    MutationCall("create-post", data)
  }

  /** `updatePost(id, data)`: `{ ...data, id }`, which reads `id` as the
      argument and every other key as data does. */
  function UpdatePostCall(b: PostCMSBucket, id: string, data: Record): (c: ApiCall)
    ensures c.MutationCall? && c.endpoint == "update-post" && c.data.Some?
    ensures Lookup(c.data.value, "id") == Some(Str(id))
    ensures forall k :: k != "id" ==> Lookup(c.data.value, k) == Lookup(data, k)
  {
    AssignSpec(data, "id", Str(id));
    MutationCall("update-post", Some(Assign(data, "id", Str(id))))
  }

  /** `deletePost(id)`: `{ id }`. */
  function DeletePostCall(b: PostCMSBucket, id: string): (c: ApiCall)
    ensures c.MutationCall? && c.endpoint == "delete-post" && c.data.Some?
    ensures Keys(c.data.value) == ["id"] && Lookup(c.data.value, "id") == Some(Str(id))
  {
    MutationCall("delete-post", Some([("id", Str(id))]))
  }

  /** `if (error) throw error; return posts`. */
  function GetPostsOutcome(env: Envelope): (r: Result<Slot<seq<Post>>>)
    ensures r.Err? <==> env.error.Has?
    ensures r.Err? ==> r.thrown == Rejected(env.error.value)
    ensures r.Ok? ==> r.value == env.posts
  {
    Settle(env.error, env.posts)
  }

  /** `if (error) throw error; return post`. */
  function GetPostOutcome(env: Envelope): (r: Result<Slot<Post>>)
    ensures r.Err? <==> env.error.Has?
    ensures r.Err? ==> r.thrown == Rejected(env.error.value)
    ensures r.Ok? ==> r.value == env.post
  {
    Settle(env.error, env.post)
  }

  /** `if (error) throw error; return post`. */
  function CreatePostOutcome(env: Envelope): (r: Result<Slot<Post>>)
    ensures r.Err? <==> env.error.Has?
    ensures r.Err? ==> r.thrown == Rejected(env.error.value)
    ensures r.Ok? ==> r.value == env.post
  {
    Settle(env.error, env.post)
  }

  /** `if (error) throw error`, and nothing is returned. */
  function UpdatePostOutcome(env: Envelope): (r: Result<()>)
    ensures r.Err? <==> env.error.Has?
    ensures r.Err? ==> r.thrown == Rejected(env.error.value)
  {
    Settle(env.error, ())
  }

  /** `if (error) throw error`, and nothing is returned. */
  function DeletePostOutcome(env: Envelope): (r: Result<()>)
    ensures r.Err? <==> env.error.Has?
    ensures r.Err? ==> r.thrown == Rejected(env.error.value)
  {
    Settle(env.error, ())
  }

  /** Every bucket endpoint starts with '/', so the request URL has two
      slashes after the host; getPosts passes its filter through unchanged. */
  lemma BucketUrlDoubleSlash(host: string, b: PostCMSBucket, filter: Option<Record>, id: string, kv: Option<seq<string>>)
    ensures CmsApi.BaseUrl(host, GetPostsCall(b, filter).endpoint) == "https://" + host + "//" + b.name
    ensures CmsApi.BaseUrl(host, GetPostCall(b, id, kv).endpoint) == "https://" + host + "//" + b.name + "/" + id
    ensures GetPostsCall(b, filter).params == filter
  {
  }

  /** The full getPost URL: with kv given, exactly one parameter `kv` whose
      value is the names joined by ',' and encoded; without, no query string. */
  lemma GetPostUrl(bi: Builtins, host: string, b: PostCMSBucket, id: string, kv: Option<seq<string>>)
    ensures var call := GetPostCall(b, id, kv);
      CmsApi.QueryUrl(host, call.endpoint, CmsApi.ParamPairs(bi, call.params)) ==
        "https://" + host + "//" + b.name + "/" + id +
        if kv.Some? then "?kv=" + bi.encodeURIComponent(JoinWith(kv.value, ",")) else ""
  {
    if kv.Some? {
      var p: Record := [("kv", Arr(Strs(kv.value)))];
      assert p[..|p| - 1] == [];
      assert CmsApi.SearchPairs(bi, p[..|p| - 1]) == [];
      assert "kv" + "=" == "kv=";
      assert CmsApi.SearchPairs(bi, p) == ["kv=" + bi.encodeURIComponent(JoinValues(Strs(kv.value)))];
      JoinStrings(kv.value);
    }
  }

  /** The update payload reads `id` as the argument, whatever data held under
      `id`, and every other key as data does; `id` keeps its place if data had
      one and goes last otherwise. */
  lemma UpdatePostPayload(b: PostCMSBucket, id: string, data: Record)
    ensures UpdatePostCall(b, id, data).endpoint == "update-post"
    ensures var p := UpdatePostCall(b, id, data).data.value;
      && Lookup(p, "id") == Some(Str(id))
      && (forall k :: k != "id" ==> Lookup(p, k) == Lookup(data, k))
      && Keys(p) == (if "id" in Keys(data) then Keys(data) else Keys(data) + ["id"])
      && (DistinctKeys(data) ==> DistinctKeys(p))
  {
    AssignSpec(data, "id", Str(id));
  }

  /** deletePost posts one form field, `id`, to `delete-post`; createPost
      sends the data as given, the same for every bucket. */
  lemma PostMutationPayloads(bi: Builtins, b: PostCMSBucket, b': PostCMSBucket, id: string, data: Option<Record>)
    ensures DeletePostCall(b, id).endpoint == "delete-post"
    ensures CmsApi.DataEntries(bi, DeletePostCall(b, id).data) == [CmsApi.TextEntry("id", id)]
    ensures CreatePostCall(b, data) == CreatePostCall(b', data) == MutationCall("create-post", data)
  {
    var p: Record := [("id", Str(id))];
    assert p[..|p| - 1] == [];
    assert CmsApi.FormEntries(bi, p[..|p| - 1]) == [];
  }
}
