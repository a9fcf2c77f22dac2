/** PostCMS: the client object. It keeps a registry of event listeners, the
    current session, and (in the browser's shared storage) the session token;
    login, logout, user creation and session verification move the session
    and the stored token together and notify the `sessionupdate` listeners.
    Bucket lifecycle calls are described by the calls they make. Every
    server answer is a parameter: `resp` is the decoded answer to the call
    the operation makes. */
module Cms {
  import opened JsValues
  import opened CmsTypes
  import Browser
  import CmsApi
  import CmsBucket

  const Host: string := "postcms.x-static.io"
  const SessionEvent: string := "sessionupdate"

  /** A callback, known only by its identity (`indexOf` compares references). */
  datatype Listener = Listener(id: nat)

  /** One call of a listener, with the name of the event it was given. */
  datatype Notification = Notification(listener: Listener, event: string)

  type Registry = map<string, seq<Listener>>

  // ---------------------------------------------------------------- listener registry

  /** The registry's invariant: a name is either absent or has listeners. */
  predicate NoEmptyLists(events: Registry)
  {
    forall name :: name in events ==> events[name] != []
  }

  function ListenersOf(events: Registry, name: string): seq<Listener>
  {
    if name in events then events[name] else []
  }

  /** `a.indexOf(x)`: the first position of x, or -1. */
  function IndexOf(a: seq<Listener>, x: Listener): (i: int)
    ensures -1 <= i < |a|
    ensures i == -1 <==> x !in a
    ensures 0 <= i ==> a[i] == x && x !in a[..i]
  {
    if a == [] then -1
    else if a[0] == x then 0
    else
      var j := IndexOf(a[1..], x);
      if j == -1 then -1
      else
        assert a[..j + 1] == [a[0]] + a[1..][..j];
        j + 1
  }

  /** `a.splice(start, 1)`: a negative start counts back from the end and is
      clamped at 0; a start at or past the end removes nothing. */
  function SpliceOne(a: seq<Listener>, start: int): seq<Listener>
  {
    var s := if start < 0 then (if |a| + start < 0 then 0 else |a| + start)
             else if start > |a| then |a| else start;
    if s < |a| then a[..s] + a[s + 1..] else a
  }

  /** The list without the first occurrence of x. */
  function RemoveFirst(a: seq<Listener>, x: Listener): seq<Listener>
  {
    if a == [] then [] else if a[0] == x then a[1..] else [a[0]] + RemoveFirst(a[1..], x)
  }

  /** `on(name, cb)`: name's list, or an empty one, with cb appended. */
  function WithListener(events: Registry, name: string, cb: Listener): Registry
  {
    events[name := ListenersOf(events, name) + [cb]]
  }

  /** `off(name, cb)`: without cb, the entry goes; with cb, one element is
      spliced out at `indexOf(cb)` and an emptied entry goes. */
  function WithoutListener(events: Registry, name: string, cb: Option<Listener>): Registry
  {
    if name !in events then events
    else if cb.None? then events - {name}
    else
      var a := SpliceOne(events[name], IndexOf(events[name], cb.value));
      if |a| == 0 then events - {name} else events[name := a]
  }

  /** The element `off` removes: the first occurrence of the callback, or, when
      the callback is not registered (indexOf gives -1), the last listener. */
  lemma SpliceAtIndexOf(a: seq<Listener>, x: Listener)
    ensures var r := SpliceOne(a, IndexOf(a, x));
      && (a != [] ==> |r| == |a| - 1)
      && (x in a ==> r == RemoveFirst(a, x))
      && (x !in a && a != [] ==> r == a[..|a| - 1])
  {
    if x in a {
      SpliceFound(a, x);
    } else if a != [] {
      assert a[..|a| - 1] + a[|a|..] == a[..|a| - 1];
    }
  }

  /** Splicing at the first occurrence of a present element removes exactly it. */
  lemma {:induction false} SpliceFound(a: seq<Listener>, x: Listener)
    requires x in a
    ensures SpliceOne(a, IndexOf(a, x)) == RemoveFirst(a, x)
  {
    if a[0] == x {
      assert a[..0] + a[1..] == a[1..];
    } else {
      assert x in a[1..];
      SpliceFound(a[1..], x);
      var j := IndexOf(a[1..], x);
      assert a[..j + 1] == [a[0]] + a[1..][..j];
      assert a[j + 2..] == a[1..][j + 1..];
    }
  }

  /** `on` appends cb to name's list, leaves every other name alone and keeps
      the registry free of empty lists. */
  lemma OnSpec(events: Registry, name: string, cb: Listener)
    ensures ListenersOf(WithListener(events, name, cb), name) == ListenersOf(events, name) + [cb]
    ensures forall n :: n != name ==> ListenersOf(WithListener(events, name, cb), n) == ListenersOf(events, n)
    ensures forall n :: n != name ==> (n in WithListener(events, name, cb) <==> n in events)
    ensures NoEmptyLists(events) ==> NoEmptyLists(WithListener(events, name, cb))
  {
  }

  /** `off` on an unknown name changes nothing; without a callback it drops
      the name; with one, on a registry free of empty lists, name's list loses
      exactly one element (the first occurrence of the callback, or the last
      listener when it is not registered) and an emptied name disappears.
      Other names never change, and the invariant is kept. */
  lemma OffSpec(events: Registry, name: string, cb: Option<Listener>)
    ensures name !in events ==> WithoutListener(events, name, cb) == events
    ensures name in events && cb.None? ==> WithoutListener(events, name, cb) == events - {name}
    ensures NoEmptyLists(events) && name in events && cb.Some? ==>
      var a := events[name];
      var r := ListenersOf(WithoutListener(events, name, cb), name);
      && |r| == |a| - 1
      && r == (if cb.value in a then RemoveFirst(a, cb.value) else a[..|a| - 1])
      && (name in WithoutListener(events, name, cb) <==> |a| > 1)
    ensures forall n :: n != name ==> ListenersOf(WithoutListener(events, name, cb), n) == ListenersOf(events, n)
    ensures forall n :: n != name ==> (n in WithoutListener(events, name, cb) <==> n in events)
    ensures NoEmptyLists(events) ==> NoEmptyLists(WithoutListener(events, name, cb))
  {
    if name in events && cb.Some? {
      SpliceAtIndexOf(events[name], cb.value);
    }
  }

  /** Removing a callback that was not registered under name undoes adding it. */
  lemma OffUndoesOn(events: Registry, name: string, cb: Listener)
    requires NoEmptyLists(events)
    requires cb !in ListenersOf(events, name)
    ensures WithoutListener(WithListener(events, name, cb), name, Some(cb)) == events
  {
    var a := ListenersOf(events, name);
    var e := WithListener(events, name, cb);
    SpliceAtIndexOf(a + [cb], cb);
    RemoveFirstAppend(a, cb);
    if name in events {
      assert e[name := a] == events;
    } else {
      assert e - {name} == events;
    }
  }

  lemma {:induction false} RemoveFirstAppend(a: seq<Listener>, x: Listener)
    requires x !in a
    ensures RemoveFirst(a + [x], x) == a
  {
    if a != [] {
      assert (a + [x])[1..] == a[1..] + [x];
      RemoveFirstAppend(a[1..], x);
    }
  }

  // ---------------------------------------------------------------- session

  /** `token && user`: a non-empty token and a user object. */
  predicate SignedIn(token: Slot<string>, user: Slot<User>)
  {
    token.Has? && token.value != "" && user.Has?
  }

  function SessionAfter(token: Slot<string>, user: Slot<User>): Option<Session>
  {
    if SignedIn(token, user) then Some(Session(user)) else None
  }

  function StoreAfter(items: map<string, string>, token: Slot<string>, user: Slot<User>): map<string, string>
  {
    if SignedIn(token, user) then items[CmsApi.TokenKey := token.value] else items - {CmsApi.TokenKey}
  }

  /** JavaScript's String() of a token field, as storage records it. */
  function StoredText(token: Slot<string>): string
  {
    match token
    case Has(t) => t
    case NullField => "null"
    case Missing => "undefined"
  }

  /** One notification per listener, in list order. */
  function Notifications(ls: seq<Listener>): (ns: seq<Notification>)
    ensures |ns| == |ls|
    ensures forall i :: 0 <= i < |ls| ==> ns[i] == Notification(ls[i], SessionEvent)
  {
    if ls == [] then [] else Notifications(ls[..|ls| - 1]) + [Notification(ls[|ls| - 1], SessionEvent)]
  }

  /** A session update moves the session and the stored token in lockstep: a
      session exists exactly when a token is stored afterwards, and then the
      stored token is the given one and the session holds the given user.
      No other storage key changes. Clearing first, as verifySession does on
      a 401, leaves the same storage. */
  lemma SessionLockstep(items: map<string, string>, token: Slot<string>, user: Slot<User>)
    ensures var s := SessionAfter(token, user);
            var st := StoreAfter(items, token, user);
      && (s.Some? <==> CmsApi.TokenKey in st)
      && (s.Some? ==> st[CmsApi.TokenKey] == token.value != "" && s.value.user == user && user.Has?)
      && (forall k :: k != CmsApi.TokenKey ==> (k in st <==> k in items) && (k in st ==> st[k] == items[k]))
    ensures StoreAfter(StoreAfter(items, NullField, NullField), token, user) == StoreAfter(items, token, user)
  {
  }

  // ---------------------------------------------------------------- the client

  class PostCMS {
    const id: string
    const api: CmsApi.PostCMSAPI
    const storage: Browser.LocalStorage
    var events: Registry
    var session: Option<Session>
    /** Every listener call made so far, in order. */
    var trace: seq<Notification>

    ghost predicate Valid()
      reads this
    {
      api.storage == storage && NoEmptyLists(events)
    }

    /** The client for tenant `id`. The stored token is left as it is and the
        session starts empty. */
    constructor (id: string, storage: Browser.LocalStorage, builtins: Builtins)
      ensures Valid() && fresh(api)
      ensures this.id == id && this.storage == storage
      ensures api.host == id + "." + Host && api.builtins == builtins
      ensures events == map[] && session == None && trace == []
    {
      this.id := id;
      this.storage := storage;
      this.api := new CmsApi.PostCMSAPI(id + "." + Host, storage, builtins);
      this.events := map[];
      this.session := None;
      this.trace := [];
    }

    method On(name: string, cb: Listener)
      requires Valid()
      modifies this
      ensures Valid()
      ensures events == WithListener(old(events), name, cb)
      ensures session == old(session) && trace == old(trace)
    {
      if name in events {
        events := events[name := events[name] + [cb]];
      } else {
        assert [] + [cb] == [cb];
        events := events[name := [cb]];
      }
    }

    method Off(name: string, cb: Option<Listener>)
      requires Valid()
      modifies this
      ensures Valid()
      ensures events == WithoutListener(old(events), name, cb)
      ensures session == old(session) && trace == old(trace)
    {
      OffSpec(events, name, cb);
      if name in events {
        if cb.Some? {
          var a := events[name];
          a := SpliceOne(a, IndexOf(a, cb.value));
          events := events[name := a];
          if |a| == 0 {
            events := events - {name};
          }
        } else {
          events := events - {name};
        }
      }
    }

    /** `_updateSession(token, user)`. */
    method UpdateSession(token: Slot<string>, user: Slot<User>)
      requires Valid()
      modifies this, storage
      ensures Valid()
      ensures events == old(events)
      ensures session == SessionAfter(token, user)
      ensures storage.items == StoreAfter(old(storage.items), token, user)
      ensures trace == old(trace) + Notifications(ListenersOf(events, SessionEvent))
    {
      if token.Has? && token.value != "" && user.Has? {
        session := Some(Session(user));
        storage.items := storage.items[CmsApi.TokenKey := token.value];
      } else {
        session := None;
        storage.items := storage.items - {CmsApi.TokenKey};
      }
      if SessionEvent in events {
        var ls := events[SessionEvent];
        var i := 0;
        while i < |ls|
          invariant 0 <= i <= |ls|
          invariant trace == old(trace) + Notifications(ls[..i])
          invariant events == old(events) && session == SessionAfter(token, user)
          invariant storage.items == StoreAfter(old(storage.items), token, user)
        {
          trace := trace + [Notification(ls[i], SessionEvent)];
          assert ls[..i + 1][..i] == ls[..i];
          i := i + 1;
        }
        assert ls[..|ls|] == ls;
      }
    }

    /** `login(id, password)`, given the answer to `LoginCall(id, password)`. */
    method Login(resp: Envelope) returns (result: Result<Session>)
      requires Valid()
      modifies this, storage
      ensures Valid() && events == old(events)
      ensures resp.error.Has? ==>
        && result == Err(Rejected(resp.error.value))
        && session == old(session) && storage.items == old(storage.items) && trace == old(trace)
      ensures !resp.error.Has? ==>
        && result == Ok(Session(resp.user))
        && session == SessionAfter(resp.token, resp.user)
        && storage.items == StoreAfter(old(storage.items), resp.token, resp.user)
        && trace == old(trace) + Notifications(ListenersOf(events, SessionEvent))
    {
      if resp.error.Has? {
        result := Err(Rejected(resp.error.value));
        return;
      }
      UpdateSession(resp.token, resp.user);
      result := Ok(Session(resp.user));
    }

    method Logout()
      requires Valid()
      modifies this, storage
      ensures Valid() && events == old(events)
      ensures session == None
      ensures storage.items == old(storage.items) - {CmsApi.TokenKey}
      ensures trace == old(trace) + Notifications(ListenersOf(events, SessionEvent))
    {
      UpdateSession(NullField, NullField);
    }

    /** `createUser(props)`, given the answer to `CreateUserCall(props)`: on
        success the session and the stored token are set from the answer as
        they are, unchecked, and no listener is called. */
    method CreateUser(resp: Envelope) returns (result: Result<Slot<User>>)
      requires Valid()
      modifies this, storage
      ensures Valid() && events == old(events) && trace == old(trace)
      ensures resp.error.Has? ==>
        && result == Err(Rejected(resp.error.value))
        && session == old(session) && storage.items == old(storage.items)
      ensures !resp.error.Has? ==>
        && result == Ok(resp.user)
        && session == Some(Session(resp.user))
        && storage.items == old(storage.items)[CmsApi.TokenKey := StoredText(resp.token)]
    {
      if resp.error.Has? {
        result := Err(Rejected(resp.error.value));
        return;
      }
      session := Some(Session(resp.user));
      storage.items := storage.items[CmsApi.TokenKey := StoredText(resp.token)];
      result := Ok(resp.user);
    }

    /** `verifySession()`, given the answer to `SessionCall()` (used only when
        a token is stored). Without a non-empty stored token nothing is sent
        and nothing changes. Otherwise a 401 clears the session first (and
        notifies), any other error only alerts, and then the session is
        updated from the answer; the user field is returned as a session. */
    method VerifySession(resp: Envelope) returns (result: Option<Session>)
      requires Valid()
      modifies this, storage
      ensures Valid() && events == old(events)
      ensures var stored := old(storage.GetItem(CmsApi.TokenKey));
        result.Some? <==> stored.Some? && stored.value != ""
      ensures result.None? ==>
        session == old(session) && storage.items == old(storage.items) && trace == old(trace)
      ensures result.Some? ==>
        var n := Notifications(ListenersOf(events, SessionEvent));
        && result == Some(Session(resp.user))
        && session == SessionAfter(resp.token, resp.user)
        && storage.items == StoreAfter(old(storage.items), resp.token, resp.user)
        && trace == old(trace) + (if resp.error.Has? && resp.error.value.status == 401 then n + n else n)
    {
      var stored := storage.GetItem(CmsApi.TokenKey);
      if stored.Some? && stored.value != "" {
        SessionLockstep(storage.items, resp.token, resp.user);
        if resp.error.Has? {
          if resp.error.value.status == 401 {
            UpdateSession(NullField, NullField);
          }
          // any other status raises an alert, which changes no state
        }
        UpdateSession(resp.token, resp.user);
        result := Some(Session(resp.user));
      } else {
        result := None;
      }
    }
  }

  // ---------------------------------------------------------------- calls and buckets

  /** The ACL code of createBucket and updateBucketACL: 0 or 1 for the read
      access, plus 1 for member or 2 for public write access. */
  function AclCode(acl: BucketACL): (n: int)
    ensures 0 <= n <= 3
  {
    var base := if acl.read == ReadPrivate then 0 else 1;
    if acl.write == WriteMember then base + 1
    else if acl.write == WritePublic then base + 2
    else base
  }

  /** The four documented codes, and the two pairs of access settings the
      encoding does not tell apart. */
  lemma AclCodeTable()
    ensures AclCode(BucketACL(ReadPrivate, WritePrivate)) == 0
    ensures AclCode(BucketACL(ReadPublic, WritePrivate)) == 1
    ensures AclCode(BucketACL(ReadPublic, WriteMember)) == 2
    ensures AclCode(BucketACL(ReadPublic, WritePublic)) == 3
    ensures AclCode(BucketACL(ReadPrivate, WriteMember)) == AclCode(BucketACL(ReadPublic, WritePrivate))
    ensures AclCode(BucketACL(ReadPrivate, WritePublic)) == AclCode(BucketACL(ReadPublic, WriteMember))
  {
  }

  /** `login(id, password)`: `{ id, password }` posted to `login`. */
  function LoginCall(id: string, password: string): (c: ApiCall)
    ensures c.MutationCall? && c.endpoint == "login" && c.data.Some?
    ensures Keys(c.data.value) == ["id", "password"]
    ensures Lookup(c.data.value, "id") == Some(Str(id)) && Lookup(c.data.value, "password") == Some(Str(password))
  {
    MutationCall("login", Some([("id", Str(id)), ("password", Str(password))]))
  }

  /** `createUser(props)`: the properties, as given, posted to `create-user`. */
  function CreateUserCall(props: Record): (c: ApiCall)
    ensures c.MutationCall? && c.endpoint == "create-user"
    ensures c.data == Some(props)
  {
    MutationCall("create-user", Some(props))
  }

  /** `verifySession`: a query to `session` with no parameters. */
  function SessionCall(): (c: ApiCall)
    ensures c.QueryCall? && c.endpoint == "session" && c.params.None?
  {
    QueryCall("session", None)
  }

  /** `createBucket(name, acl)`: `{ alias: name, acl: code }` posted to `create-bucket`. */
  function CreateBucketCall(name: string, acl: BucketACL): (c: ApiCall)
    ensures c.MutationCall? && c.endpoint == "create-bucket" && c.data.Some?
    ensures Keys(c.data.value) == ["alias", "acl"]
    ensures Lookup(c.data.value, "alias") == Some(Str(name))
    ensures Lookup(c.data.value, "acl") == Some(Num(AclCode(acl)))
  {
    MutationCall("create-bucket", Some([("alias", Str(name)), ("acl", Num(AclCode(acl)))]))
  }

  /** `deleteBucket(name)`: `{ id: name }`, posted to `create-bucket` as written. */
  function DeleteBucketCall(name: string): (c: ApiCall)
    ensures c.MutationCall? && c.endpoint == "create-bucket" && c.data.Some?
    ensures Keys(c.data.value) == ["id"] && Lookup(c.data.value, "id") == Some(Str(name))
  {
    MutationCall("create-bucket", Some([("id", Str(name))]))
  }

  /** `updateBucketACL(name, acl)`: `{ id: name, acl: code }`, posted to
      `create-bucket` as written. */
  function UpdateBucketAclCall(name: string, acl: BucketACL): (c: ApiCall)
    ensures c.MutationCall? && c.endpoint == "create-bucket" && c.data.Some?
    ensures Keys(c.data.value) == ["id", "acl"]
    ensures Lookup(c.data.value, "id") == Some(Str(name))
    ensures Lookup(c.data.value, "acl") == Some(Num(AclCode(acl)))
  {
    MutationCall("create-bucket", Some([("id", Str(name)), ("acl", Num(AclCode(acl)))]))
  }

  /** `uploadFile(file, path)`: `{ file, path }`, path undefined when omitted,
      posted to `create-bucket` as written. */
  function UploadFileCall(file: Value, path: Option<string>): (c: ApiCall)
    requires file.File?
    ensures c.MutationCall? && c.endpoint == "create-bucket" && c.data.Some?
    ensures Keys(c.data.value) == ["file", "path"]
    ensures Lookup(c.data.value, "file") == Some(file)
    ensures Lookup(c.data.value, "path") == Some(if path.Some? then Str(path.value) else Undef)
  {
    MutationCall("create-bucket", Some([("file", file), ("path", if path.Some? then Str(path.value) else Undef)]))
  }

  /** `createBucket`: the thrown error, or a bucket named by the answer's
      alias; an answer with no bucket record fails reading `.alias`. */
  function CreateBucketOutcome(env: Envelope): (r: Result<CmsBucket.PostCMSBucket>)
    ensures r.Err? <==> env.error.Has? || !env.bucket.Has?
    ensures env.error.Has? ==> r == Err(Rejected(env.error.value))
    ensures !env.error.Has? && !env.bucket.Has? ==> r == Err(TypeError)
    ensures r.Ok? ==> r.value.name == env.bucket.value.alias
  {
    if env.error.Has? then Err(Rejected(env.error.value))
    else if env.bucket.Has? then Ok(CmsBucket.PostCMSBucket(env.bucket.value.alias))
    else Err(TypeError)
  }

  /** `deleteBucket`: `if (error) throw error`, and nothing is returned. */
  function DeleteBucketOutcome(env: Envelope): (r: Result<()>)
    ensures r.Err? <==> env.error.Has?
    ensures r.Err? ==> r.thrown == Rejected(env.error.value)
  {
    Settle(env.error, ())
  }

  /** `updateBucketACL`: `if (error) throw error`, and nothing is returned. */
  function UpdateBucketAclOutcome(env: Envelope): (r: Result<()>)
    ensures r.Err? <==> env.error.Has?
    ensures r.Err? ==> r.thrown == Rejected(env.error.value)
  {
    Settle(env.error, ())
  }

  /** `uploadFile`: the thrown error, or the answer's `object` field as it is. */
  function UploadFileOutcome(env: Envelope): (r: Result<Slot<SFSObject>>)
    ensures r.Err? <==> env.error.Has?
    ensures r.Err? ==> r.thrown == Rejected(env.error.value)
    ensures r.Ok? ==> r.value == env.sfsObject
  {
    Settle(env.error, env.sfsObject)
  }

  /** createBucket and updateBucketACL send the same code for the same ACL;
      deleteBucket, updateBucketACL and uploadFile all post to the
      `create-bucket` endpoint. */
  lemma BucketCallsAgree(name: string, name': string, acl: BucketACL, file: Value, path: Option<string>)
    requires file.File?
    ensures CreateBucketCall(name, acl).data.value[1] == UpdateBucketAclCall(name', acl).data.value[1]
              == ("acl", Num(AclCode(acl)))
    ensures DeleteBucketCall(name).endpoint == UpdateBucketAclCall(name, acl).endpoint
              == UploadFileCall(file, path).endpoint == CreateBucketCall(name, acl).endpoint == "create-bucket"
  {
  }

  /** The login form carries the id and the password as text fields. */
  lemma LoginForm(b: Builtins, id: string, password: string)
    ensures LoginCall(id, password).endpoint == "login"
    ensures CmsApi.DataEntries(b, LoginCall(id, password).data) ==
              [CmsApi.TextEntry("id", id), CmsApi.TextEntry("password", password)]
  {
    var login: Record := [("id", Str(id)), ("password", Str(password))];
    assert login[..1][..0] == [] && login[..1] == [login[0]];
    assert CmsApi.FormEntries(b, login[..1]) == [CmsApi.TextEntry("id", id)];
  }

  /** The upload form carries the file as a blob under the file's own name
      (a File is sent as a file, not as a bare Blob), then the path as a text
      field when one is given; an omitted path is skipped. */
  lemma UploadForm(b: Builtins, file: Value, p: string)
    requires file.File?
    ensures CmsApi.DataEntries(b, UploadFileCall(file, None).data) ==
              [CmsApi.BlobEntry("file", file, Some(file.name))]
    ensures CmsApi.DataEntries(b, UploadFileCall(file, Some(p)).data) ==
              [CmsApi.BlobEntry("file", file, Some(file.name)), CmsApi.TextEntry("path", p)]
  {
    var upload: Record := [("file", file), ("path", Undef)];
    assert upload[..1][..0] == [] && upload[..1] == [upload[0]];
    assert CmsApi.FormEntries(b, upload[..1]) == [CmsApi.BlobEntry("file", file, Some(file.name))];
    var withPath: Record := [("file", file), ("path", Str(p))];
    assert withPath[..1] == upload[..1];
  }
}
