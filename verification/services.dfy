/**
 * The resource accessors of src/api/services.ts. Each accessor is split in
 * two: the request it issues (a Call) and what it makes of the client's
 * result (a function of the ClientResult). All but one pass every failure
 * through; getCategories turns any failure into an empty list.
 */
module Services {
  import opened Wrappers
  import opened JsonValues
  import opened Schemas
  import opened Client

  /** Why an accessor rejects: the client rejected, or the schema refused the body. */
  datatype Failure = ClientFailure(error: ClientError) | ValidationFailure(issue: Invalid)

  /** The client call an accessor makes. */
  datatype Call =
    | JsonCall(verb: Verb, path: string, params: Option<seq<Param>>, body: Option<Json>)
    | UploadCall(path: string, file: File)

  /** The RequestInit the client builds for a call (the accessors pass no headers). */
  function InitOf(call: Call): RequestInit
  {
    match call
    case JsonCall(verb, _, _, body) => JsonInit(verb, body, map[])
    case UploadCall(_, file) => UploadInit(file, map[])
  }

  datatype BoundingBox = BoundingBox(minLat: real, minLng: real, maxLat: real, maxLng: real)

  /** `${minLng},${minLat},${maxLng},${maxLat}`; number formatting is `numberText`. */
  function BboxText(bbox: BoundingBox, numberText: real -> string): string
  {
    numberText(bbox.minLng) + "," + numberText(bbox.minLat) + "," +
    numberText(bbox.maxLng) + "," + numberText(bbox.maxLat)
  }

  const RequestsPath := "/api/v1/requests"

  /** `Schema.parse(data)` applied to what the client resolved with. */
  function Validate<T>(fetched: ClientResult, parse: Json -> Result<T, Invalid>): Result<T, Failure>
  {
    match fetched
    case Failure(e) => Failure(ClientFailure(e))
    case Success(data) =>
      match Parse(data, parse)
      case Success(v) => Success(v)
      case Failure(issue) => Failure(ValidationFailure(issue))
  }

  function GetTenantInfoCall(): Call
  {
    JsonCall(Get, "/api/v1/public/tenant-info", None, None)
  }

  function GetTenantInfo(fetched: ClientResult): Result<TenantInfo, Failure>
  {
    Validate(fetched, ParseTenantInfo)
  }

  function GetSessionCall(): Call
  {
    JsonCall(Get, "/api/v1/auth/session", None, None)
  }

  function GetSession(fetched: ClientResult, isEmail: string -> bool): Result<Session, Failure>
  {
    Validate(fetched, j => ParseSession(j, isEmail))
  }

  /** `post` is called without a body. */
  function LogoutCall(): Call
  {
    JsonCall(Post, "/api/v1/auth/logout", None, None)
  }

  /** Whatever the server answered is dropped; only a rejection gets through. */
  function Logout(fetched: ClientResult): Result<(), Failure>
  {
    match fetched
    case Failure(e) => Failure(ClientFailure(e))
    case Success(_) => Success(())
  }

  function GetCategoriesCall(): Call
  {
    JsonCall(Get, "/api/v1/public/categories", None, None)
  }

  /** Degraded mode: a client or schema failure yields the empty list. */
  function GetCategories(fetched: ClientResult): seq<Category>
  {
    match Validate(fetched, ParseCategories)
    case Success(categories) => categories
    case Failure(_) => []
  }

  function CreateRequestCall(payload: CreateRequestPayload): Call
  {
    JsonCall(Post, RequestsPath, None, Some(CreateRequestJson(payload)))
  }

  function CreateRequest(fetched: ClientResult): Result<Request, Failure>
  {
    Validate(fetched, ParseRequest)
  }

  function GetMyRequestsCall(): Call
  {
    JsonCall(Get, RequestsPath + "/mine", None, None)
  }

  function GetMyRequests(fetched: ClientResult): Result<seq<Request>, Failure>
  {
    Validate(fetched, ParseRequests)
  }

  /** The id is interpolated into the path as it is. */
  function GetRequestCall(id: string): Call
  {
    JsonCall(Get, RequestsPath + "/" + id, None, None)
  }

  function GetRequest(fetched: ClientResult): Result<Request, Failure>
  {
    Validate(fetched, ParseRequest)
  }

  function GetRequestTimelineCall(id: string): Call
  {
    JsonCall(Get, RequestsPath + "/" + id + "/timeline", None, None)
  }

  function GetRequestTimeline(fetched: ClientResult): Result<seq<TimelineEvent>, Failure>
  {
    Validate(fetched, ParseTimeline)
  }

  function UploadRequestAttachmentCall(requestId: string, file: File): Call
  {
    UploadCall(RequestsPath + "/" + requestId + "/attachments", file)
  }

  /** No schema runs: the client's result is returned as it is. */
  function UploadRequestAttachment(fetched: ClientResult): Result<Option<Json>, Failure>
  {
    match fetched
    case Failure(e) => Failure(ClientFailure(e))
    case Success(data) => Success(data)
  }

  function GetPublicIssuesCall(bbox: BoundingBox, numberText: real -> string): Call
  {
    JsonCall(Get, "/api/v1/public/issues", Some([("bbox", PString(BboxText(bbox, numberText)))]), None)
  }

  function GetPublicIssues(fetched: ClientResult): Result<seq<PublicIssue>, Failure>
  {
    Validate(fetched, ParsePublicIssues)
  }

  // ---------------------------------------------------------------------------
  // Properties

  /**
   * getCategories never rejects: a client failure, an undefined body or a
   * body the schema refuses all give []; a valid array gives exactly the
   * parsed categories, one per element and in order.
   */
  lemma CategoriesDegrade(fetched: ClientResult)
    ensures fetched.Failure? ==> GetCategories(fetched) == []
    ensures fetched.Success? && (fetched.value.None? || !IsArrayOf(fetched.value.value, IsCategory)) ==>
              GetCategories(fetched) == []
    ensures fetched.Success? && fetched.value.Some? && IsArrayOf(fetched.value.value, IsCategory) ==>
              var items := fetched.value.value.items;
              |GetCategories(fetched)| == |items| &&
              forall i :: 0 <= i < |items| ==> GetCategories(fetched)[i] == ParseCategory(items[i]).value
  {
    if fetched.Success? && fetched.value.Some? {
      var j := fetched.value.value;
      ArrayResponsesAcceptEveryValidElement(j);
      if j.JArr? { ParseEachAll(j.items, ParseCategory); }
    }
  }

  /** Every other accessor passes a client failure through unchanged. */
  lemma ClientFailuresPropagate(e: ClientError, isEmail: string -> bool)
    ensures GetTenantInfo(Failure(e)) == Failure(ClientFailure(e))
    ensures GetSession(Failure(e), isEmail) == Failure(ClientFailure(e))
    ensures Logout(Failure(e)) == Failure(ClientFailure(e))
    ensures CreateRequest(Failure(e)) == Failure(ClientFailure(e))
    ensures GetMyRequests(Failure(e)) == Failure(ClientFailure(e))
    ensures GetRequest(Failure(e)) == Failure(ClientFailure(e))
    ensures GetRequestTimeline(Failure(e)) == Failure(ClientFailure(e))
    ensures UploadRequestAttachment(Failure(e)) == Failure(ClientFailure(e))
    ensures GetPublicIssues(Failure(e)) == Failure(ClientFailure(e))
  {
  }

  /**
   * A resolved body reaches the caller exactly when its schema accepts it;
   * otherwise the accessor rejects with the validation failure.
   */
  lemma ValidationDecides(data: Option<Json>, isEmail: string -> bool)
    ensures GetTenantInfo(Success(data)).Success? <==> data.Some? && IsTenantInfo(data.value)
    ensures GetSession(Success(data), isEmail).Success? <==> data.Some? && IsSession(data.value, isEmail)
    ensures CreateRequest(Success(data)).Success? <==> data.Some? && IsRequest(data.value)
    ensures GetRequest(Success(data)).Success? <==> data.Some? && IsRequest(data.value)
    ensures GetMyRequests(Success(data)).Success? <==> data.Some? && IsArrayOf(data.value, IsRequest)
    ensures GetRequestTimeline(Success(data)).Success? <==> data.Some? && IsArrayOf(data.value, IsTimelineEvent)
    ensures GetPublicIssues(Success(data)).Success? <==> data.Some? && IsArrayOf(data.value, IsPublicIssue)
    ensures GetTenantInfo(Success(data)).Failure? ==> GetTenantInfo(Success(data)).error.ValidationFailure?
    ensures GetRequest(Success(data)).Failure? ==> GetRequest(Success(data)).error.ValidationFailure?
    ensures GetPublicIssues(Success(data)).Failure? ==> GetPublicIssues(Success(data)).error.ValidationFailure?
    ensures GetSession(Success(data), isEmail).Failure? ==> GetSession(Success(data), isEmail).error.ValidationFailure?
    ensures CreateRequest(Success(data)).Failure? ==> CreateRequest(Success(data)).error.ValidationFailure?
    ensures GetMyRequests(Success(data)).Failure? ==> GetMyRequests(Success(data)).error.ValidationFailure?
    ensures GetRequestTimeline(Success(data)).Failure? ==> GetRequestTimeline(Success(data)).error.ValidationFailure?
  {
    if data.Some? { ArrayResponsesAcceptEveryValidElement(data.value); }
  }

  /**
   * What an accessor resolves with is its schema's parse of the body (the
   * array parses succeed exactly on arrays of valid elements, by
   * ArrayResponsesAcceptEveryValidElement).
   */
  lemma ValidatedValues(j: Json, isEmail: string -> bool)
    ensures IsTenantInfo(j) ==> GetTenantInfo(Success(Some(j))) == Success(ParseTenantInfo(j).value)
    ensures IsSession(j, isEmail) ==> GetSession(Success(Some(j)), isEmail) == Success(ParseSession(j, isEmail).value)
    ensures IsRequest(j) ==> CreateRequest(Success(Some(j))) == Success(ParseRequest(j).value)
    ensures IsRequest(j) ==> GetRequest(Success(Some(j))) == Success(ParseRequest(j).value)
    ensures ParseRequests(j).Success? ==> GetMyRequests(Success(Some(j))) == Success(ParseRequests(j).value)
    ensures ParseTimeline(j).Success? ==>
              GetRequestTimeline(Success(Some(j))) == Success(ParseTimeline(j).value)
    ensures ParsePublicIssues(j).Success? ==>
              GetPublicIssues(Success(Some(j))) == Success(ParsePublicIssues(j).value)
  {
  }

  /** logout discards the body; uploadRequestAttachment returns it without running a schema. */
  lemma UnvalidatedResults(data: Option<Json>)
    ensures Logout(Success(data)) == Success(())
    ensures UploadRequestAttachment(Success(data)) == Success(data)
  {
  }

  /**
   * Request detail and timeline target `/api/v1/requests/{id}` and
   * `/api/v1/requests/{id}/timeline`; distinct ids give distinct paths.
   */
  lemma RequestPaths(id: string, other: string)
    ensures GetRequestCall(id).path == "/api/v1/requests/" + id
    ensures GetRequestTimelineCall(id).path == GetRequestCall(id).path + "/timeline"
    ensures UploadRequestAttachmentCall(id, 0).path == GetRequestCall(id).path + "/attachments"
    ensures GetRequestCall(id) == GetRequestCall(other) <==> id == other
  {
    if GetRequestCall(id) == GetRequestCall(other) {
      var prefix := RequestsPath + "/";
      assert (prefix + id)[|prefix|..] == id;
      assert (prefix + other)[|prefix|..] == other;
    }
  }

  /**
   * What goes on the wire: logout posts no body, createRequest posts the
   * payload, the bounding box travels as the single query pair
   * `bbox=minLng,minLat,maxLng,maxLat`.
   */
  lemma AccessorRequests(payload: CreateRequestPayload, bbox: BoundingBox, numberText: real -> string)
    ensures InitOf(LogoutCall()).body == NoBody && InitOf(LogoutCall()).verb == Post
    ensures InitOf(CreateRequestCall(payload)).body == JsonText(CreateRequestJson(payload))
    ensures var call := GetPublicIssuesCall(bbox, numberText);
            call.params.Some? &&
            QueryOf(call.params.value, numberText) ==
              [("bbox", numberText(bbox.minLng) + "," + numberText(bbox.minLat) + "," +
                        numberText(bbox.maxLng) + "," + numberText(bbox.maxLat))]
  {
    var call := GetPublicIssuesCall(bbox, numberText);
    QueryOfAllDefined(call.params.value, numberText);
  }

  /** The worked example: {minLat: 1, minLng: 2, maxLat: 3, maxLng: 4} is sent as "2,1,4,3". */
  lemma BboxExample(numberText: real -> string)
    requires numberText(1.0) == "1" && numberText(2.0) == "2"
    requires numberText(3.0) == "3" && numberText(4.0) == "4"
    ensures BboxText(BoundingBox(1.0, 2.0, 3.0, 4.0), numberText) == "2,1,4,3"
  {
  }

  /** A 404 with body {"message": "Not found"} on getRequest rejects with status 404 and that message. */
  lemma NotFoundScenario(statusText: string)
    ensures var body := JObj(map["message" := JStr("Not found")]);
            GetRequest(Settle(Answered(Response(false, 404, statusText, Some(body))))) ==
              Failure(ClientFailure(Http(ApiError(JStr("Not found"), 404, body))))
  {
  }

  /** A 500 on the categories endpoint, whatever its body, still resolves to []. */
  lemma CategoriesServerErrorScenario(statusText: string, body: Option<Json>)
    ensures GetCategories(Settle(Answered(Response(false, 500, statusText, body)))) == []
  {
  }
}
