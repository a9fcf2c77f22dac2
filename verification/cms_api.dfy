/** PostCMSAPI: turns one call into an HTTP request. `query` is a GET whose
    parameters go into the URL's query string; `mutation` is a POST whose data
    becomes a multipart form. Both carry the stored session token, if any, in
    an `X-Session` header. The request is the result here; sending it and
    decoding the answer are outside the model. */
module CmsApi {
  import opened JsValues
  import Browser

  /** The storage key under which the session token is kept. */
  const TokenKey: string := "postcms/session-token"
  const SessionHeader: string := "X-Session"

  datatype HttpMethod = GET | POST

  /** One `body.append(...)`: a text field, or a blob with the file name given. */
  datatype FormEntry =
    | TextEntry(key: string, text: string)
    | BlobEntry(key: string, blob: Value, filename: Option<string>)

  datatype Body = NoBody | Form(entries: seq<FormEntry>)

  datatype Request = Request(verb: HttpMethod, url: string, headers: seq<(string, string)>, body: Body)

  function BaseUrl(host: string, endpoint: string): string
  {
    "https://" + host + "/" + endpoint
  }

  /** The headers built from `localStorage.getItem(TokenKey)`: one X-Session
      header exactly when the token is a non-empty string. */
  function SessionHeaders(token: Option<string>): (h: seq<(string, string)>)
    ensures |h| <= 1
    ensures h != [] <==> token.Some? && token.value != ""
    ensures h != [] ==> h[0] == (SessionHeader, token.value)
  {
    if token.Some? && token.value != "" then [(SessionHeader, token.value)] else []
  }

  // ---------------------------------------------------------------- query

  /** The `key=value` text one parameter contributes, following the branches
      of the parameter loop; None when the value is skipped. */
  function QueryPair(b: Builtins, key: string, v: Value): Option<string>
  {
    if v.Str? || v.Num? || v.Bool? then
      Some(key + "=" + b.encodeURIComponent(ToText(v)))
    else if IsTypeofObject(v) && (v.Arr? || !v.Null?) then
      if v.Arr? then Some(key + "=" + b.encodeURIComponent(JoinValues(v.elems)))
      else if !v.Null? then Some(key + "=" + b.encodeURIComponent(b.stringify(v)))
      else None
    else None
  }

  /** What the value of a present parameter turns into before encoding,
      by kind: scalars as text, arrays comma-joined, other objects as JSON. */
  function QueryValueText(b: Builtins, v: Value): string
  {
    match v
    case Str(s) => s
    case Num(n) => NumberText(n)
    case Bool(x) => BoolText(x)
    case Arr(elems) => JoinValues(elems)
    case _ => b.stringify(v)
  }

  /** The pairs the loop pushes onto `search`, in parameter order. */
  function SearchPairs(b: Builtins, params: Record): seq<string>
  {
    if params == [] then []
    else
      var last := params[|params| - 1];
      var pair := QueryPair(b, last.0, last.1);
      SearchPairs(b, params[..|params| - 1]) + if pair.Some? then [pair.value] else []
  }

  function ParamPairs(b: Builtins, params: Option<Record>): seq<string>
  {
    if params.Some? then SearchPairs(b, params.value) else []
  }

  function QueryUrl(host: string, endpoint: string, pairs: seq<string>): string
  {
    BaseUrl(host, endpoint) + if |pairs| > 0 then "?" + JoinWith(pairs, "&") else ""
  }

  /** A parameter is skipped exactly when it is null or undefined; otherwise
      its pair is the key, verbatim, then '=' and the encoded value text. */
  lemma QueryPairSpec(b: Builtins, key: string, v: Value)
    ensures QueryPair(b, key, v).None? <==> IsNullish(v)
    ensures !IsNullish(v) ==> QueryPair(b, key, v) == Some(key + "=" + b.encodeURIComponent(QueryValueText(b, v)))
  {
  }

  /** The query string lists one pair per present parameter, in order: the
      pairs are those of the non-null, non-undefined parameters. */
  lemma {:induction false} SearchPairsSpec(b: Builtins, params: Record)
    ensures |SearchPairs(b, params)| == |PresentFields(params)| <= |params|
    ensures forall j :: 0 <= j < |PresentFields(params)| ==>
              SearchPairs(b, params)[j] ==
                PresentFields(params)[j].0 + "=" + b.encodeURIComponent(QueryValueText(b, PresentFields(params)[j].1))
  {
    if params != [] {
      var init := params[..|params| - 1];
      var last := params[|params| - 1];
      SearchPairsSpec(b, init);
      QueryPairSpec(b, last.0, last.1);
    }
  }

  /** Parameters contribute independently: the pairs of a concatenation are
      the concatenation of the pairs. */
  lemma {:induction false} SearchPairsAppend(b: Builtins, p1: Record, p2: Record)
    ensures SearchPairs(b, p1 + p2) == SearchPairs(b, p1) + SearchPairs(b, p2)
    decreases |p2|
  {
    if p2 == [] {
      assert p1 + p2 == p1;
    } else {
      var init := p2[..|p2| - 1];
      assert (p1 + p2)[..|p1 + p2| - 1] == p1 + init;
      assert (p1 + p2)[|p1 + p2| - 1] == p2[|p2| - 1];
      SearchPairsAppend(b, p1, init);
    }
  }

  /** The URL is the base URL alone when no parameter yields a pair, and the
      base URL, '?', and the pairs joined by '&' otherwise. */
  lemma QueryUrlSpec(b: Builtins, host: string, endpoint: string, params: Option<Record>)
    ensures var url := QueryUrl(host, endpoint, ParamPairs(b, params));
      if params.None? || forall i :: 0 <= i < |params.value| ==> IsNullish(params.value[i].1) then
        url == BaseUrl(host, endpoint)
      else
        url == BaseUrl(host, endpoint) + "?" + JoinWith(SearchPairs(b, params.value), "&")
  {
    if params.Some? {
      SearchPairsSpec(b, params.value);
      PresentFieldsSpec(params.value);
    }
  }

  // ---------------------------------------------------------------- mutation

  /** The form entry one data field contributes, following the branches of the
      data loop (File is tested before Blob); None when the value is skipped. */
  function FormEntryFor(b: Builtins, key: string, v: Value): Option<FormEntry>
  {
    if v.Str? then Some(TextEntry(key, v.s))
    else if v.Num? || v.Bool? then Some(TextEntry(key, ToText(v)))
    else if v.File? then Some(BlobEntry(key, v, Some(v.name)))
    else if IsBlob(v) then Some(BlobEntry(key, v, None))
    else if IsTypeofObject(v) && (v.Arr? || !v.Null?) then Some(TextEntry(key, b.stringify(v)))
    else None
  }

  /** The entry of a present field, by kind. */
  function FormValue(b: Builtins, key: string, v: Value): FormEntry
    requires !IsNullish(v)
  {
    match v
    case Str(s) => TextEntry(key, s)
    case Num(n) => TextEntry(key, NumberText(n))
    case Bool(x) => TextEntry(key, BoolText(x))
    case File(name, _) => BlobEntry(key, v, Some(name))
    case Blob(_) => BlobEntry(key, v, None)
    case Arr(_) => TextEntry(key, b.stringify(v))
    case Obj(_) => TextEntry(key, b.stringify(v))
  }

  /** The entries the loop appends to the form, in field order. */
  function FormEntries(b: Builtins, data: Record): seq<FormEntry>
  {
    if data == [] then []
    else
      var last := data[|data| - 1];
      var entry := FormEntryFor(b, last.0, last.1);
      FormEntries(b, data[..|data| - 1]) + if entry.Some? then [entry.value] else []
  }

  function DataEntries(b: Builtins, data: Option<Record>): seq<FormEntry>
  {
    if data.Some? then FormEntries(b, data.value) else []
  }

  lemma FormEntryForSpec(b: Builtins, key: string, v: Value)
    ensures FormEntryFor(b, key, v).None? <==> IsNullish(v)
    ensures !IsNullish(v) ==> FormEntryFor(b, key, v) == Some(FormValue(b, key, v))
  {
  }

  /** The form has one entry per present field, in field order, under the
      field's own key. */
  lemma {:induction false} FormEntriesSpec(b: Builtins, data: Record)
    ensures |FormEntries(b, data)| == |PresentFields(data)| <= |data|
    ensures forall j :: 0 <= j < |PresentFields(data)| ==>
              FormEntries(b, data)[j] == FormValue(b, PresentFields(data)[j].0, PresentFields(data)[j].1)
    ensures forall j :: 0 <= j < |FormEntries(b, data)| ==> FormEntries(b, data)[j].key == PresentFields(data)[j].0
  {
    if data != [] {
      var init := data[..|data| - 1];
      var last := data[|data| - 1];
      FormEntriesSpec(b, init);
      FormEntryForSpec(b, last.0, last.1);
    }
  }

  // ---------------------------------------------------------------- the client

  class PostCMSAPI {
    const host: string
    const storage: Browser.LocalStorage
    const builtins: Builtins

    constructor (host: string, storage: Browser.LocalStorage, builtins: Builtins)
      ensures this.host == host && this.storage == storage && this.builtins == builtins
    {
      this.host := host;
      this.storage := storage;
      this.builtins := builtins;
    }

    /** `query(endpoint, params)`: a GET to the endpoint with the parameter
        pairs as its query string. */
    method Query(endpoint: string, params: Option<Record>) returns (req: Request)
      ensures req.verb == GET && req.body == NoBody
      ensures req.url == QueryUrl(host, endpoint, ParamPairs(builtins, params))
      ensures req.headers == SessionHeaders(storage.GetItem(TokenKey))
    {
      var url := BaseUrl(host, endpoint);
      var search: seq<string> := [];
      if params.Some? {
        var p := params.value;
        var i := 0;
        while i < |p|
          invariant 0 <= i <= |p|
          invariant search == SearchPairs(builtins, p[..i])
        {
          var (key, value) := p[i];
          if value.Str? || value.Num? || value.Bool? {
            search := search + [key + "=" + builtins.encodeURIComponent(ToText(value))];
          } else if IsTypeofObject(value) && (value.Arr? || !value.Null?) {
            if value.Arr? {
              search := search + [key + "=" + builtins.encodeURIComponent(JoinValues(value.elems))];
            } else if !value.Null? {
              search := search + [key + "=" + builtins.encodeURIComponent(builtins.stringify(value))];
            }
          }
          assert p[..i + 1][..i] == p[..i];
          i := i + 1;
        }
        assert p[..|p|] == p;
      }
      if |search| > 0 {
        url := url + "?" + JoinWith(search, "&");
      }
      var headers: seq<(string, string)> := [];
      var token := storage.GetItem(TokenKey);
      if token.Some? && token.value != "" {
        headers := headers + [(SessionHeader, token.value)];
      }
      req := Request(GET, url, headers, NoBody);
    }

    /** `mutation(endpoint, data)`: a POST to the endpoint, no query string,
        with the data fields as a multipart form. */
    method Mutation(endpoint: string, data: Option<Record>) returns (req: Request)
      ensures req.verb == POST
      ensures req.url == BaseUrl(host, endpoint)
      ensures req.headers == SessionHeaders(storage.GetItem(TokenKey))
      ensures req.body == Form(DataEntries(builtins, data))
    {
      var url := BaseUrl(host, endpoint);
      var headers: seq<(string, string)> := [];
      var token := storage.GetItem(TokenKey);
      if token.Some? && token.value != "" {
        headers := headers + [(SessionHeader, token.value)];
      }
      var body: seq<FormEntry> := [];
      if data.Some? {
        var d := data.value;
        var i := 0;
        while i < |d|
          invariant 0 <= i <= |d|
          invariant body == FormEntries(builtins, d[..i])
        {
          var (key, value) := d[i];
          if value.Str? {
            body := body + [TextEntry(key, value.s)];
          } else if value.Num? || value.Bool? {
            body := body + [TextEntry(key, ToText(value))];
          } else if value.File? {
            body := body + [BlobEntry(key, value, Some(value.name))];
          } else if IsBlob(value) {
            body := body + [BlobEntry(key, value, None)];
          } else if IsTypeofObject(value) && (value.Arr? || !value.Null?) {
            body := body + [TextEntry(key, builtins.stringify(value))];
          }
          assert d[..i + 1][..i] == d[..i];
          i := i + 1;
        }
        assert d[..|d|] == d;
      }
      req := Request(POST, url, headers, Form(body));
    }
  }
}
