# PostCMS browser SDK — a Dafny model of its client core

This project models the logic of the PostCMS browser SDK that can be stated
exactly. That is three classes of the TypeScript source:

- **`PostCMS`** (`cms.dfy`, module `Cms`) is the client object. It keeps an
  event registry (`_events`: event name → list of listeners) and the current
  session, and it keeps the session token in the browser's `localStorage`.
  `on` and `off` edit the registry in place. `_updateSession` sets or clears
  the session and the stored token together, then calls every
  `sessionupdate` listener in order. `login`, `logout`, `createUser` and
  `verifySession` drive those transitions. The class is a Dafny `class` with
  a `map<string, seq<Listener>>` field, an `Option<Session>` field, and a
  `trace` field that records each listener call. The storage is a separate
  `Browser.LocalStorage` object, shared with the API client as in the
  browser. The methods are proved against pure functions: `WithListener`,
  `WithoutListener`, `SessionAfter`, `StoreAfter`, `StoredText` and
  `Notifications`, and a plain map removal for `logout`.
  Lemmas state what those functions promise. The bucket lifecycle calls
  (`createBucket`, `deleteBucket`, `updateBucketACL`, `uploadFile`) and the
  ACL code are pure functions.
- **`PostCMSAPI`** (`cms_api.dfy`, module `CmsApi`) builds HTTP requests.
  `query` makes a GET whose URL carries the parameters as a query string.
  `mutation` makes a POST with a multipart form body. Both attach an
  `X-Session` header when a non-empty token is stored. In the model,
  `Query` and `Mutation` are methods with the source's loops. They are
  proved against `SearchPairs` and `FormEntries`, and lemmas relate those
  functions to reference definitions organised by kind of value.
- **`PostCMSBucket`** (`cms_bucket.dfy`, module `CmsBucket`) is one named
  bucket. Each post operation maps its arguments to one API call (an
  endpoint and a payload). It maps the decoded answer either to a thrown
  error or to the payload field it returns.

Shared pieces:

- `js_values.dfy` (`JsValues`) holds the JavaScript values the SDK passes
  around (`Str`, `Num`, `Bool`, `Arr`, `Obj`, `File`, `Blob`, `Null`,
  `Undef`) and plain objects as ordered key/value sequences. It also
  defines `String()`, `Array.prototype.join` and the object spread.
- `cms_types.dfy` (`CmsTypes`) holds the shapes from `global.d.ts`, the
  decoded response envelope, and the `throw error` / `return payload` rule.
- `browser.dfy` (`Browser`) holds `localStorage`.

Server answers are inputs. Each state-changing method takes `resp: Envelope`,
the decoded JSON answer to the call that the operation makes (`LoginCall`,
`CreateUserCall`, `SessionCall`). A field of an answer is `Missing`,
`NullField` or `Has(v)`, so the model tells JavaScript's `undefined` apart
from `null` where the difference shows. `encodeURIComponent` and
`JSON.stringify` are not defined here. They are the two function-typed
fields of a `Builtins` value, given to the API client when it is built.

Behaviour kept exactly as the code has it:

- `off(name, cb)` with a callback that is not registered splices at index
  -1, which removes the *last* listener (`SpliceAtIndexOf`, `OffSpec`).
- `verifySession` on a 401 updates the session twice, so the listeners run
  twice.
- `createUser` sets the session and stores the token without checking
  either, and it calls no listener. (How the token is stored is under
  "Left out".)
- `deleteBucket`, `updateBucketACL` and `uploadFile` all post to
  `create-bucket`.
- Bucket endpoints begin with `/`, so their URLs contain `//`.
- An empty `kv` array is truthy, so `getPost` then still sends `kv=`.
- The ACL code gives the same value to two different settings:
  (private read, member write) and (public read, private write) both give 1,
  and (private, public) and (public, member) both give 2
  (`AclCodeTable`). The server's reading of the code is not part of this
  model, so the model records the overlap and does not call it a defect.

## Model

| member | source | states |
|---|---|---|
| `Cms.PostCMS.constructor` | src/PostCMS.ts:12-17 | the API client's host is `id + ".postcms.x-static.io"` and shares the page's storage; registry and session start empty; the stored token is not touched |
| `Cms.PostCMS.On` | src/PostCMS.ts:27-33 | the registry becomes `WithListener(old, name, cb)` and stays free of empty lists; session and listener calls are unchanged |
| `Cms.OnSpec` | src/PostCMS.ts:27-33 | after `on`, name's list is the old list (or empty) with cb appended; every other name is unchanged; no name maps to an empty list |
| `Cms.PostCMS.Off` | src/PostCMS.ts:35-47 | the registry becomes `WithoutListener(old, name, cb)` and stays free of empty lists; session and listener calls are unchanged |
| `Cms.OffSpec` | src/PostCMS.ts:35-47 | `off` on an unknown name changes nothing. Without a callback it drops the name. With one, name's list loses exactly one element: the first occurrence of cb, or the last listener if cb is absent. An emptied name is deleted. Other names are untouched and the invariant holds |
| `Cms.IndexOf` | src/PostCMS.ts:39 | `indexOf` gives -1 exactly when the callback is absent; otherwise it gives the position of its first occurrence |
| `Cms.SpliceAtIndexOf` | src/PostCMS.ts:38-39 | `splice(indexOf(cb), 1)` on a non-empty list removes one element: the first cb, or the last element when cb is not there |
| `Cms.OffUndoesOn` | src/PostCMS.ts:27-47 | `off(name, cb)` right after `on(name, cb)` restores the registry, provided cb was not already registered under name |
| `Cms.Notifications` | src/PostCMS.ts:73-75 | the `forEach` gives each `sessionupdate` listener exactly one call, in list order |
| `Cms.PostCMS.UpdateSession` | src/PostCMS.ts:65-76 | with a non-empty token and a user, the session holds that user and the token is stored; otherwise the session is null and the token is removed. Every listener is then called once, in order. The registry is unchanged |
| `Cms.SessionLockstep` | src/PostCMS.ts:65-76 | after an update, a session exists exactly when a token is stored; that token is non-empty and the session's user is the given one; no other storage key changes; clearing first makes no difference to storage |
| `Cms.PostCMS.Login` | src/PostCMS.ts:78-85 | an error answer is thrown, and session, storage and listener calls stay as they were; otherwise the session is updated from the answer and `{ user }` is returned |
| `Cms.PostCMS.Logout` | src/PostCMS.ts:87-89 | afterwards there is no session and no stored token, nothing else in storage changes, and each listener has been called once |
| `Cms.PostCMS.CreateUser` | src/PostCMS.ts:95-103 | an error answer is thrown and nothing changes; otherwise the session takes the answer's user and storage takes the `String()` of its token, unchecked, with no listener call; the user is returned |
| `Cms.PostCMS.VerifySession` | src/PostCMS.ts:49-63 | without a non-empty stored token it returns null and changes nothing. Otherwise it returns `{ user }` and session and storage follow the answer. The listeners run twice on a 401 and once otherwise. With no token or user in the answer, the session and the stored token are cleared |
| `Cms.AclCode` | src/PostCMS.ts:124-129 | the ACL code always lies in 0..3 |
| `Cms.AclCodeTable` | src/PostCMS.ts:145-150 | {private,private}→0, {public,private}→1, {public,member}→2, {public,public}→3; (private,member) and (private,public) share codes with (public,private) and (public,member) |
| `Cms.BucketCallsAgree` | src/PostCMS.ts:123-158 | createBucket and updateBucketACL send the same `acl` code for the same ACL; deleteBucket, updateBucketACL and uploadFile all use the endpoint `create-bucket` |
| `Cms.CreateBucketOutcome` | src/PostCMS.ts:130-134 | createBucket throws the answer's error if there is one. An answer with no bucket record fails on `.alias`. Otherwise it returns a bucket named by the answer's alias |
| `Cms.LoginForm` | src/PostCMS.ts:79 | login posts to `login` a form with exactly the text fields `id` and `password` |
| `Cms.UploadForm` | src/PostCMS.ts:157-158 | uploadFile posts the file as a blob under its own name (the File test comes before the Blob test); with a path, a text entry `path` follows; without one, the undefined path is skipped |
| `Cms.LoginCall` | src/PostCMS.ts:79 | login posts to `login` an object with exactly the keys `id` and `password`, holding the two arguments |
| `Cms.CreateUserCall` | src/PostCMS.ts:96 | createUser posts its properties, as given, to `create-user` |
| `Cms.SessionCall` | src/PostCMS.ts:51 | verifySession queries `session` with no parameters |
| `Cms.CreateBucketCall` | src/PostCMS.ts:123-130 | createBucket posts to `create-bucket` an object with exactly the keys `alias` (the name) and `acl` (the ACL code) |
| `Cms.DeleteBucketCall` | src/PostCMS.ts:138 | deleteBucket posts `{ id: name }`, to `create-bucket` as written |
| `Cms.UpdateBucketAclCall` | src/PostCMS.ts:144-151 | updateBucketACL posts `{ id: name, acl: code }`, to `create-bucket` as written |
| `Cms.UploadFileCall` | src/PostCMS.ts:158 | uploadFile posts `{ file, path }`, to `create-bucket` as written; the file is the argument and the path is the given text, or undefined when omitted |
| `Cms.DeleteBucketOutcome` | src/PostCMS.ts:139-141 | deleteBucket throws exactly when the answer has an error, and throws that error |
| `Cms.UpdateBucketAclOutcome` | src/PostCMS.ts:152-154 | updateBucketACL throws exactly when the answer has an error, and throws that error |
| `Cms.UploadFileOutcome` | src/PostCMS.ts:159-162 | uploadFile throws the answer's error if there is one; otherwise it returns the answer's `object` field as it is |
| `CmsTypes.Settle` | src/PostCMSBucket.ts:12-15 | the result is an error exactly when the answer's error is present; the thrown value is that error; otherwise the payload field is returned unchanged |
| `Browser.LocalStorage.GetItem` | src/PostCMSAPI.ts:29 | `getItem` gives the stored text, or null when the key is absent |
| `CmsApi.SessionHeaders` | src/PostCMSAPI.ts:28-32 | at most one header; an `X-Session` header is present exactly when the stored token is a non-empty string, and its value is that token |
| `CmsApi.QueryPairSpec` | src/PostCMSAPI.ts:13-22 | a parameter is skipped exactly when it is null or undefined. Otherwise its pair is the key, verbatim, then `=`, then the encoded value text: scalars as text, arrays comma-joined, any other object as JSON |
| `CmsApi.SearchPairsSpec` | src/PostCMSAPI.ts:11-24 | one pair per non-null, non-undefined parameter, in parameter order, so never more pairs than parameters |
| `CmsApi.SearchPairsAppend` | src/PostCMSAPI.ts:12-24 | each parameter contributes on its own: the pairs of concatenated parameter lists are the concatenated pairs |
| `CmsApi.QueryUrlSpec` | src/PostCMSAPI.ts:25-27 | the URL is `https://host/endpoint` when params are absent or all null/undefined; otherwise that URL, then `?`, then the pairs joined by `&` |
| `CmsApi.PostCMSAPI.Query` | src/PostCMSAPI.ts:8-34 | the request is a GET with no body. Its URL is the base URL plus the query string built from the parameter pairs. Its headers are the session headers for the stored token |
| `CmsApi.FormEntryForSpec` | src/PostCMSAPI.ts:46-57 | a field is skipped exactly when it is null or undefined; otherwise its entry is determined by the value's kind (`FormValue`) |
| `CmsApi.FormEntriesSpec` | src/PostCMSAPI.ts:43-58 | one form entry per non-null, non-undefined field, in field order, under the field's key. Strings are copied; numbers and booleans go through toString; a File carries its name; a Blob is copied as-is; other objects become JSON |
| `CmsApi.PostCMSAPI.Mutation` | src/PostCMSAPI.ts:36-61 | the request is a POST to exactly `https://host/endpoint`, with the session headers; its body is the form entries of the data, or an empty form when data is absent |
| `JsValues.PresentFields` | src/PostCMSAPI.ts:11-24 | the kept fields are never more than the given ones, and none of them is null or undefined |
| `JsValues.PresentFieldsAppend` | src/PostCMSAPI.ts:11-24 | the parameter loop keeps or skips each property on its own and keeps their order: the kept fields of concatenated objects are the concatenated kept fields |
| `JsValues.PresentFieldsSpec` | src/PostCMSAPI.ts:44-58 | a field is kept exactly when it is present and not null or undefined; nothing is kept exactly when every field is null or undefined |
| `JsValues.JoinStrings` | src/PostCMSAPI.ts:18 | joining an array of strings with `,` gives the strings joined by `,` |
| `JsValues.AssignSpec` | src/PostCMSBucket.ts:35 | `{...r, k: v}` reads v under k and the old value under every other key. Its keys are the old keys, with k appended if it was new. Distinct keys stay distinct |
| `CmsBucket.GetPostsCall` | src/PostCMSBucket.ts:11 | getPosts queries `"/" + name` with the filter, as given, as the parameters |
| `CmsBucket.GetPostCall` | src/PostCMSBucket.ts:19 | getPost queries `"/" + name + "/" + id`; it has parameters exactly when kv is given, and they are the single key `kv` holding the names |
| `CmsBucket.CreatePostCall` | src/PostCMSBucket.ts:27 | createPost posts its data, as given, to `create-post` |
| `CmsBucket.UpdatePostCall` | src/PostCMSBucket.ts:35 | updatePost posts to `update-post` an object reading `id` as the argument and every other key as in data |
| `CmsBucket.DeletePostCall` | src/PostCMSBucket.ts:42 | deletePost posts to `delete-post` an object with the single key `id` holding the argument |
| `CmsBucket.GetPostsOutcome` | src/PostCMSBucket.ts:12-15 | getPosts throws exactly when the answer has an error, and throws that error; otherwise it returns the answer's `posts` field as it is |
| `CmsBucket.GetPostOutcome` | src/PostCMSBucket.ts:20-23 | getPost throws exactly when the answer has an error, and throws that error; otherwise it returns the answer's `post` field as it is |
| `CmsBucket.CreatePostOutcome` | src/PostCMSBucket.ts:28-31 | createPost throws exactly when the answer has an error, and throws that error; otherwise it returns the answer's `post` field as it is |
| `CmsBucket.UpdatePostOutcome` | src/PostCMSBucket.ts:36-38 | updatePost throws exactly when the answer has an error, and throws that error |
| `CmsBucket.DeletePostOutcome` | src/PostCMSBucket.ts:43-45 | deletePost throws exactly when the answer has an error, and throws that error |
| `CmsBucket.BucketUrlDoubleSlash` | src/PostCMSBucket.ts:11-19 | the URLs of `getPosts` and `getPost` are `https://host//name` and `https://host//name/id`; getPosts passes its filter through unchanged |
| `CmsBucket.GetPostUrl` | src/PostCMSBucket.ts:19 | getPost's URL has exactly one parameter, `kv=` followed by the encoded comma-joined names, when kv is given, and no query string otherwise |
| `CmsBucket.UpdatePostPayload` | src/PostCMSBucket.ts:35 | updatePost posts to `update-post` data plus `id` equal to the argument, which overrides any `id` in data; every other key reads as in data |
| `CmsBucket.PostMutationPayloads` | src/PostCMSBucket.ts:27-42 | deletePost posts to `delete-post` a form of exactly one text field, `id`; createPost sends the data unchanged to `create-post`, the same for every bucket |

## Left out

- React bindings (`src/hooks.ts`, `src/PostProvider.ts`, `src/CMSProvider.ts`) are left out. They are effects, state hooks, abort controllers and a 5-minute timer.
- `tsc.js` is a build script and `global.d.ts` holds only declarations. The model uses the latter's shapes for its datatypes.
- Transport is left out: `fetch`, `resp.json()`, `Headers`, `FormData`, `AbortSignal` and `onProgress`. A request is a `Request` value, and each answer is an `Envelope` input.
- `encodeURIComponent` and `JSON.stringify` are left uninterpreted, as the two fields of `Builtins`.
- `alert` on a non-401 verification error is a UI effect and changes no modelled state.
- `getUsers`, `updateUser`, `updateUserPassword` and `forgetUserPassword` only throw "not implemented" and are not modelled.
- Async interleaving, overlapping verifications and cancellation are left out. Every operation runs to completion, one at a time.
- Listeners are identities with no behaviour. A listener that calls `on` or `off` while `_updateSession` iterates over the list is not modelled.
- Listener lists are sequence values. So the difference between `on` (which stores a fresh copy of the array) and `off` (which splices the stored array in place) is visible only through the registry's value. Aliasing of that array is not modelled.
- JavaScript numbers are integers here, and unbounded ones. A JavaScript number holds integers exactly only up to 2^53, and from 10^21 on its text is in exponent form (`1e+21`), which `NumberText` does not produce; so query and form text of such numbers is not modelled. Fractions, `NaN`, `Infinity` and `-0`, and their text forms, are not modelled either. Values of `typeof` `function`, `symbol` or `bigint` are not among the value kinds.
- A plain object is the sequence of its own enumerable properties in `for...in` order, taken as given. Records are taken to have distinct keys (`DistinctKeys`), as every JavaScript object does; the request builders do not require it, so on a record with a repeated key they emit one pair or entry per occurrence, which no real object produces. JavaScript's rule that integer-like keys enumerate first, and inherited enumerable properties, are not modelled.
- `QueryPostsFilter` is taken as the plain object it becomes; its field types are not enforced.
- Cms.PostCMS.UpdateSession, Cms.PostCMS.CreateUser: the source stores the token with `localStorage.addItem`, which the Web Storage interface does not have, so in a browser that call throws a TypeError. In `_updateSession` (src/PostCMS.ts:68), on the signed-in branch, it throws after `_session` is set, before the token is stored and before any listener runs; `login` and `verifySession` then reject in the same state. In `createUser` (src/PostCMS.ts:101) it throws after the session is set, so the token is not stored and the user is not returned. The model follows the evidently intended `setItem` and stores the token (the `String()` of it in `createUser`), so it does not capture that throw.
- The ACL code's meaning on the server, and the server's behaviour in general, are outside the model.
- The `api` and `session` getters are the class's fields. `bucket(name)` is the `CmsBucket.PostCMSBucket(name)` constructor.
