/**
 * The HTTP client of src/api/client.ts with `fetch` abstracted: the request a
 * verb would send is described by a value (URL and RequestInit), and the
 * server's answer to it is a parameter (a Reply).
 */
module Client {
  import opened Wrappers
  import opened JsonValues
  import Text

  /**
   * What the client sees of a response. `body` is what `response.json()`
   * resolves to, or None when the body is not JSON (empty bodies included).
   */
  datatype Response = Response(ok: bool, status: nat, statusText: string, body: Option<Json>)

  /** The outcome of `fetch`: it rejects on network failure, otherwise yields a response. */
  datatype Reply = NetworkFailure | Answered(response: Response)

  /**
   * ApiError: `message` is the value handed to the Error constructor (usually a
   * string, but a truthy non-string `message` member of the body is passed on
   * as it is), `status` the HTTP status, `data` the error body.
   */
  datatype ApiError = ApiError(message: Json, status: nat, data: Json)

  /** Why a client call rejects. */
  datatype ClientError =
    | NetworkError          // fetch itself rejected
    | Http(error: ApiError) // a non-ok response
    | TypeError             // a non-ok response whose body is JSON null: reading `.message` throws

  /** What a client call resolves to: the body (None for `undefined`) or an error. */
  type ClientResult = Result<Option<Json>, ClientError>

  // ---------------------------------------------------------------------------
  // handleResponse

  /** `errorData`: the parsed error body, or `{message: statusText}` when it is not JSON. */
  function ErrorData(r: Response): Json
  {
    if r.body.Some? then r.body.value else JObj(map["message" := JStr(r.statusText)])
  }

  /** The message used when the error body has no truthy `message`. */
  function FallbackMessage(status: nat): string
  {
    "HTTP " + Text.Decimal(status)
  }

  function HandleResponse(r: Response): (result: ClientResult)
    ensures result.Success? <==> r.ok
  {
    if !r.ok then
      var errorData := ErrorData(r);
      if errorData.JNull? then Failure(TypeError)
      else
        var message := Member(errorData, "message");
        Failure(Http(ApiError(
          if message.Some? && Truthy(message.value) then message.value else JStr(FallbackMessage(r.status)),
          r.status,
          errorData)))
    else if r.status == 204 then Success(None)
    else Success(r.body)
  }

  /** How a client call settles for a given reply. */
  function Settle(reply: Reply): ClientResult
  {
    match reply
    case NetworkFailure => Failure(NetworkError)
    case Answered(r) => HandleResponse(r)
  }

  /**
   * Classification of a response. A non-ok response rejects with an ApiError
   * carrying its status and its error body (unless that body is JSON null);
   * its message is the body's truthy `message`, else the status text of a
   * non-JSON body, else "HTTP <status>". An ok 204 yields undefined without
   * looking at the body, and an ok body that is not JSON yields undefined.
   */
  lemma HandleResponseClassification(r: Response)
    ensures !r.ok && r.body == Some(JNull) ==> HandleResponse(r) == Failure(TypeError)
    ensures !r.ok && r.body != Some(JNull) ==>
              HandleResponse(r).Failure? && HandleResponse(r).error.Http? &&
              HandleResponse(r).error.error.status == r.status &&
              HandleResponse(r).error.error.data ==
                (if r.body.Some? then r.body.value else JObj(map["message" := JStr(r.statusText)]))
    ensures !r.ok && r.body.Some? && r.body.value.JObj? && "message" in r.body.value.fields &&
            Truthy(r.body.value.fields["message"]) ==>
              HandleResponse(r).error.error.message == r.body.value.fields["message"]
    ensures !r.ok && r.body.None? && r.statusText != "" ==>
              HandleResponse(r).error.error.message == JStr(r.statusText)
    ensures !r.ok && r.body != Some(JNull) &&
            (if r.body.None? then r.statusText == ""
             else !(r.body.value.JObj? && "message" in r.body.value.fields &&
                    Truthy(r.body.value.fields["message"]))) ==>
              HandleResponse(r).error.error.message == JStr(FallbackMessage(r.status))
    ensures r.ok && r.status == 204 ==> HandleResponse(r) == Success(None)
    ensures r.ok && r.status != 204 ==> HandleResponse(r) == Success(r.body)
  {
  }

  /** The fallback message names the status: its digits read back as the status. */
  lemma FallbackMessageNamesStatus(status: nat)
    ensures |FallbackMessage(status)| > 5 && FallbackMessage(status)[..5] == "HTTP "
    ensures var digits := FallbackMessage(status)[5..];
            (forall i :: 0 <= i < |digits| ==> Text.IsDigit(digits[i])) &&
            Text.DigitsValue(digits) == status
  {
    Text.DecimalRoundTrip(status);
    assert FallbackMessage(status)[5..] == Text.Decimal(status);
  }

  // ---------------------------------------------------------------------------
  // buildUrl

  /** A query parameter value: `string | number | boolean | undefined`. */
  datatype ParamValue = PString(s: string) | PNumber(n: real) | PBool(b: bool) | PUndefined

  /** One entry of the `params` record, in `Object.entries` order. */
  type Param = (string, ParamValue)

  /**
   * A URL: the base it is resolved against, the path, and its query pairs in
   * order (resolution and percent-encoding are not modelled).
   */
  datatype Url = Url(base: string, path: string, query: seq<(string, string)>)

  /** `String(value)`; JavaScript's number formatting is the parameter `numberText`. */
  function ParamText(v: ParamValue, numberText: real -> string): string
    requires !v.PUndefined?
  {
    match v
    case PString(s) => s
    case PNumber(n) => numberText(n)
    case PBool(b) => if b then "true" else "false"
  }

  /** The query pairs `buildUrl` appends for `params`: the defined entries, in order. */
  function QueryOf(params: seq<Param>, numberText: real -> string): seq<(string, string)>
  {
    if params == [] then []
    else
      var (key, value) := params[0];
      (if value.PUndefined? then [] else [(key, ParamText(value, numberText))]) +
      QueryOf(params[1..], numberText)
  }

  lemma {:induction false} QueryOfAppend(a: seq<Param>, b: seq<Param>, numberText: real -> string)
    ensures QueryOf(a + b, numberText) == QueryOf(a, numberText) + QueryOf(b, numberText)
    decreases |a|
  {
    if a == [] {
      assert a + b == b;
    } else {
      QueryOfAppend(a[1..], b, numberText);
      assert (a + b)[0] == a[0] && (a + b)[1..] == a[1..] + b;
    }
  }

  /**
   * A pair is in the query iff some entry with that key has a defined value
   * that prints as that text; undefined entries never appear.
   */
  lemma {:induction false} QueryOfMembership(params: seq<Param>, numberText: real -> string, q: (string, string))
    ensures q in QueryOf(params, numberText) <==>
              exists i :: 0 <= i < |params| && params[i].0 == q.0 && !params[i].1.PUndefined? &&
                          ParamText(params[i].1, numberText) == q.1
    decreases |params|
  {
    if params != [] {
      QueryOfMembership(params[1..], numberText, q);
      if exists i :: 0 <= i < |params| && params[i].0 == q.0 && !params[i].1.PUndefined? &&
                     ParamText(params[i].1, numberText) == q.1 {
        var i :| 0 <= i < |params| && params[i].0 == q.0 && !params[i].1.PUndefined? &&
                 ParamText(params[i].1, numberText) == q.1;
        if i > 0 { assert params[1..][i - 1] == params[i]; }
      }
      if q in QueryOf(params[1..], numberText) {
        var i :| 0 <= i < |params| - 1 && params[1..][i].0 == q.0 && !params[1..][i].1.PUndefined? &&
                 ParamText(params[1..][i].1, numberText) == q.1;
        assert params[i + 1] == params[1..][i];
      }
    }
  }

  /** When no entry is undefined, the query is every entry, printed, in entry order. */
  lemma {:induction false} QueryOfAllDefined(params: seq<Param>, numberText: real -> string)
    requires forall i :: 0 <= i < |params| ==> !params[i].1.PUndefined?
    ensures |QueryOf(params, numberText)| == |params|
    ensures forall i :: 0 <= i < |params| ==>
              QueryOf(params, numberText)[i] == (params[i].0, ParamText(params[i].1, numberText))
    decreases |params|
  {
    if params != [] {
      QueryOfAllDefined(params[1..], numberText);
    }
  }

  // ---------------------------------------------------------------------------
  // Request descriptors

  datatype Verb = Get | Post | Put | Delete

  /** A browser File object, known only by identity. */
  type File = nat

  datatype RequestBody =
    | NoBody
    | JsonText(value: Json)                      // JSON.stringify(value)
    | MultipartForm(field: string, file: File)   // a FormData with one entry

  /** The RequestInit handed to fetch. */
  datatype RequestInit = RequestInit(
    verb: Verb, credentials: string, headers: map<string, string>, body: RequestBody)

  /** The `FetchOptions` callers may pass: query parameters and extra headers. */
  datatype FetchOptions = FetchOptions(params: Option<seq<Param>>, headers: map<string, string>)

  const NoOptions := FetchOptions(None, map[])

  const JsonContentType := "application/json"

  /** The RequestInit of get, post, put and delete (`body` is None for `undefined`). */
  function JsonInit(verb: Verb, body: Option<Json>, headers: map<string, string>): RequestInit
  {
    RequestInit(
      verb, "include",
      map["Content-Type" := JsonContentType] + headers,
      if (verb == Post || verb == Put) && body.Some? && Truthy(body.value) then JsonText(body.value)
      else NoBody)
  }

  /** The RequestInit of uploadFile: no Content-Type is added, so the browser sets the boundary. */
  function UploadInit(file: File, headers: map<string, string>): RequestInit
  {
    RequestInit(Post, "include", headers, MultipartForm("file", file))
  }

  /**
   * Every verb sends cookies; JSON verbs default Content-Type to
   * application/json and let caller headers override it; uploads add no
   * header of their own.
   */
  lemma RequestHeaders(verb: Verb, body: Option<Json>, file: File, headers: map<string, string>)
    ensures JsonInit(verb, body, headers).credentials == "include"
    ensures UploadInit(file, headers).credentials == "include"
    ensures JsonInit(verb, body, headers).headers.Keys == headers.Keys + {"Content-Type"}
    ensures forall k :: k in headers ==> JsonInit(verb, body, headers).headers[k] == headers[k]
    ensures "Content-Type" !in headers ==>
              JsonInit(verb, body, headers).headers["Content-Type"] == "application/json"
    ensures UploadInit(file, headers).headers == headers
    ensures UploadInit(file, headers).body == MultipartForm("file", file)
  {
  }

  /** POST and PUT send the JSON text of `body` exactly when `body` is truthy; GET and DELETE send none. */
  lemma RequestBodies(verb: Verb, body: Option<Json>, headers: map<string, string>)
    ensures JsonInit(verb, body, headers).body != NoBody <==>
              (verb == Post || verb == Put) && body.Some? && Truthy(body.value)
    ensures JsonInit(verb, body, headers).body != NoBody ==>
              JsonInit(verb, body, headers).body == JsonText(body.value)
  {
  }

  /** What a verb hands to fetch. */
  datatype Sent = Sent(url: Url, init: RequestInit)

  /** The client: only the base URL is kept; `origin` stands for `window.location.origin`. */
  class ApiClient {
    const baseUrl: string

    constructor(baseUrl: string)
      ensures this.baseUrl == baseUrl
    {
      this.baseUrl := baseUrl;
    }

    /** The base a path is resolved against: the configured base URL, or the page origin. */
    function Base(origin: string): string
    {
      if baseUrl != "" then baseUrl else origin
    }

    method BuildUrl(path: string, params: Option<seq<Param>>, origin: string, numberText: real -> string)
      returns (url: Url)
      ensures url.base == (if baseUrl != "" then baseUrl else origin) && url.path == path
      ensures params.None? ==> url.query == []
      ensures params.Some? ==> url.query == QueryOf(params.value, numberText)
    {
      var query: seq<(string, string)> := [];
      if params.Some? {
        var entries := params.value;
        var i := 0;
        while i < |entries|
          invariant 0 <= i <= |entries|
          invariant query == QueryOf(entries[..i], numberText)
        {
          var (key, value) := entries[i];
          if !value.PUndefined? {
            query := query + [(key, ParamText(value, numberText))];
          }
          QueryOfAppend(entries[..i], [entries[i]], numberText);
          assert entries[..i + 1] == entries[..i] + [entries[i]];
          i := i + 1;
        }
        assert entries[..|entries|] == entries;
      }
      url := Url(Base(origin), path, query);
    }

    method Get(path: string, options: FetchOptions, origin: string, numberText: real -> string, reply: Reply)
      returns (sent: Sent, result: ClientResult)
      ensures sent.url.base == Base(origin) && sent.url.path == path
      ensures sent.url.query == if options.params.Some? then QueryOf(options.params.value, numberText) else []
      ensures sent.init == JsonInit(Verb.Get, None, options.headers)
      ensures reply.NetworkFailure? ==> result == Failure(NetworkError)
      ensures reply.Answered? ==> result == HandleResponse(reply.response)
    {
      var url := BuildUrl(path, options.params, origin, numberText);
      sent := Sent(url, JsonInit(Verb.Get, None, options.headers));
      result := Settle(reply);
    }

    method Post(path: string, body: Option<Json>, options: FetchOptions, origin: string,
                numberText: real -> string, reply: Reply)
      returns (sent: Sent, result: ClientResult)
      ensures sent.url.base == Base(origin) && sent.url.path == path
      ensures sent.url.query == if options.params.Some? then QueryOf(options.params.value, numberText) else []
      ensures sent.init == JsonInit(Verb.Post, body, options.headers)
      ensures reply.NetworkFailure? ==> result == Failure(NetworkError)
      ensures reply.Answered? ==> result == HandleResponse(reply.response)
    {
      var url := BuildUrl(path, options.params, origin, numberText);
      sent := Sent(url, JsonInit(Verb.Post, body, options.headers));
      result := Settle(reply);
    }

    method Put(path: string, body: Option<Json>, options: FetchOptions, origin: string,
               numberText: real -> string, reply: Reply)
      returns (sent: Sent, result: ClientResult)
      ensures sent.url.base == Base(origin) && sent.url.path == path
      ensures sent.url.query == if options.params.Some? then QueryOf(options.params.value, numberText) else []
      ensures sent.init == JsonInit(Verb.Put, body, options.headers)
      ensures reply.NetworkFailure? ==> result == Failure(NetworkError)
      ensures reply.Answered? ==> result == HandleResponse(reply.response)
    {
      var url := BuildUrl(path, options.params, origin, numberText);
      sent := Sent(url, JsonInit(Verb.Put, body, options.headers));
      result := Settle(reply);
    }

    method Delete(path: string, options: FetchOptions, origin: string, numberText: real -> string, reply: Reply)
      returns (sent: Sent, result: ClientResult)
      ensures sent.url.base == Base(origin) && sent.url.path == path
      ensures sent.url.query == if options.params.Some? then QueryOf(options.params.value, numberText) else []
      ensures sent.init == JsonInit(Verb.Delete, None, options.headers)
      ensures reply.NetworkFailure? ==> result == Failure(NetworkError)
      ensures reply.Answered? ==> result == HandleResponse(reply.response)
    {
      var url := BuildUrl(path, options.params, origin, numberText);
      sent := Sent(url, JsonInit(Verb.Delete, None, options.headers));
      result := Settle(reply);
    }

    method UploadFile(path: string, file: File, options: FetchOptions, origin: string,
                      numberText: real -> string, reply: Reply)
      returns (sent: Sent, result: ClientResult)
      ensures sent.url.base == Base(origin) && sent.url.path == path
      ensures sent.url.query == if options.params.Some? then QueryOf(options.params.value, numberText) else []
      ensures sent.init == UploadInit(file, options.headers)
      ensures reply.NetworkFailure? ==> result == Failure(NetworkError)
      ensures reply.Answered? ==> result == HandleResponse(reply.response)
    {
      var url := BuildUrl(path, options.params, origin, numberText);
      sent := Sent(url, UploadInit(file, options.headers));
      result := Settle(reply);
    }
  }
}
