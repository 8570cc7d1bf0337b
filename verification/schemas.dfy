/**
 * The zod schemas of src/types/api.ts. Each schema appears twice: as a
 * predicate `IsX` that states its structural rules field by field, and as a
 * parser `ParseX` that walks the value the way `Schema.parse` does and builds
 * the typed record (unknown keys are stripped, as zod's default does). The
 * lemmas tie the two together and state the field rules that matter.
 */
module Schemas {
  import opened Wrappers
  import opened JsonValues

  /** A schema refused the value (zod's ZodError; its list of issues is not kept). */
  datatype Invalid = Invalid

  /** A `.nullable().optional()` field: absent, explicitly null, or a value. */
  datatype Nullish<+T> = Absent | Null | Present(value: T)

  datatype RequestStatus = Pending | InProgress | Completed | Rejected

  datatype TenantInfo = TenantInfo(
    id: string, name: string, logoUrl: Nullish<string>,
    primaryColor: Nullish<string>, communeName: Option<string>)

  datatype Category = Category(
    id: string, name: string, description: Nullish<string>, icon: Nullish<string>)

  datatype SessionUser = SessionUser(id: string, email: string, name: Option<string>)

  datatype Session = Session(authenticated: bool, user: Nullish<SessionUser>)

  datatype Attachment = Attachment(id: string, url: string, thumbnailUrl: Option<string>)

  datatype Request = Request(
    id: string, categoryId: string, categoryName: Option<string>, status: RequestStatus,
    description: string, latitude: real, longitude: real,
    createdAt: string, updatedAt: string, attachments: Option<seq<Attachment>>)

  datatype TimelineEvent = TimelineEvent(
    id: string, requestId: string, eventType: string, description: string,
    createdAt: string, userName: Option<string>)

  datatype PublicIssue = PublicIssue(
    id: string, categoryId: string, categoryName: Option<string>, status: RequestStatus,
    latitude: real, longitude: real, createdAt: string)

  datatype CreateRequestPayload = CreateRequestPayload(
    categoryId: string, description: string, latitude: real, longitude: real)

  /** The write-side bounds of CreateRequestSchema. */
  const MinCategoryIdLength: nat := 1
  const MinDescriptionLength: nat := 10
  const MaxLatitude: real := 90.0
  const MaxLongitude: real := 180.0

  // ---------------------------------------------------------------------------
  // Field rules, as predicates over an object's members

  /** `z.string()` */
  predicate RequiredString(m: map<string, Json>, k: string) { k in m && m[k].JStr? }

  /** `z.number()` */
  predicate RequiredNumber(m: map<string, Json>, k: string) { k in m && m[k].JNum? }

  /** `z.boolean()` */
  predicate RequiredBool(m: map<string, Json>, k: string) { k in m && m[k].JBool? }

  /** `z.string().optional()`: may be absent, may not be null */
  predicate OptionalString(m: map<string, Json>, k: string) { k !in m || m[k].JStr? }

  /** `z.string().nullable().optional()`: may be absent or null */
  predicate NullishString(m: map<string, Json>, k: string)
  {
    k !in m || m[k].JNull? || m[k].JStr?
  }

  /** RequestStatusSchema: exactly one of the four literals. */
  predicate IsStatus(j: Json)
  {
    j == JStr("pending") || j == JStr("in_progress") || j == JStr("completed") || j == JStr("rejected")
  }

  predicate IsTenantInfo(j: Json)
  {
    j.JObj? &&
    var m := j.fields;
    RequiredString(m, "id") && RequiredString(m, "name") &&
    NullishString(m, "logo_url") && NullishString(m, "primary_color") &&
    OptionalString(m, "commune_name")
  }

  predicate IsCategory(j: Json)
  {
    j.JObj? &&
    var m := j.fields;
    RequiredString(m, "id") && RequiredString(m, "name") &&
    NullishString(m, "description") && NullishString(m, "icon")
  }

  /** The `user` object of SessionSchema; `isEmail` stands for zod's e-mail check. */
  predicate IsSessionUser(j: Json, isEmail: string -> bool)
  {
    j.JObj? &&
    var m := j.fields;
    RequiredString(m, "id") && RequiredString(m, "email") && isEmail(m["email"].s) &&
    OptionalString(m, "name")
  }

  predicate IsSession(j: Json, isEmail: string -> bool)
  {
    j.JObj? &&
    var m := j.fields;
    RequiredBool(m, "authenticated") &&
    ("user" in m ==> m["user"].JNull? || IsSessionUser(m["user"], isEmail))
  }

  predicate IsAttachment(j: Json)
  {
    j.JObj? &&
    var m := j.fields;
    RequiredString(m, "id") && RequiredString(m, "url") && OptionalString(m, "thumbnail_url")
  }

  predicate IsRequest(j: Json)
  {
    j.JObj? &&
    var m := j.fields;
    RequiredString(m, "id") && RequiredString(m, "category_id") &&
    OptionalString(m, "category_name") &&
    "status" in m && IsStatus(m["status"]) &&
    RequiredString(m, "description") &&
    RequiredNumber(m, "latitude") && RequiredNumber(m, "longitude") &&
    RequiredString(m, "created_at") && RequiredString(m, "updated_at") &&
    ("attachments" in m ==>
      m["attachments"].JArr? &&
      forall i :: 0 <= i < |m["attachments"].items| ==> IsAttachment(m["attachments"].items[i]))
  }

  predicate IsTimelineEvent(j: Json)
  {
    j.JObj? &&
    var m := j.fields;
    RequiredString(m, "id") && RequiredString(m, "request_id") &&
    RequiredString(m, "event_type") && RequiredString(m, "description") &&
    RequiredString(m, "created_at") && OptionalString(m, "user_name")
  }

  predicate IsPublicIssue(j: Json)
  {
    j.JObj? &&
    var m := j.fields;
    RequiredString(m, "id") && RequiredString(m, "category_id") &&
    OptionalString(m, "category_name") &&
    "status" in m && IsStatus(m["status"]) &&
    RequiredNumber(m, "latitude") && RequiredNumber(m, "longitude") &&
    RequiredString(m, "created_at")
  }

  predicate IsCreateRequest(j: Json)
  {
    j.JObj? &&
    var m := j.fields;
    RequiredString(m, "category_id") && |m["category_id"].s| >= MinCategoryIdLength &&
    RequiredString(m, "description") && |m["description"].s| >= MinDescriptionLength &&
    RequiredNumber(m, "latitude") && -MaxLatitude <= m["latitude"].n <= MaxLatitude &&
    RequiredNumber(m, "longitude") && -MaxLongitude <= m["longitude"].n <= MaxLongitude
  }

  /** `z.array(item)`: an array all of whose elements satisfy `valid`. */
  predicate IsArrayOf(j: Json, valid: Json -> bool)
  {
    j.JArr? && forall i :: 0 <= i < |j.items| ==> valid(j.items[i])
  }

  // ---------------------------------------------------------------------------
  // Parsers: one step per field, failing at the first field that does not fit

  function AsObject(j: Json): Result<map<string, Json>, Invalid>
  {
    if j.JObj? then Success(j.fields) else Failure(Invalid)
  }

  function StringField(m: map<string, Json>, k: string): Result<string, Invalid>
  {
    if k in m && m[k].JStr? then Success(m[k].s) else Failure(Invalid)
  }

  function NumberField(m: map<string, Json>, k: string): Result<real, Invalid>
  {
    if k in m && m[k].JNum? then Success(m[k].n) else Failure(Invalid)
  }

  function BoolField(m: map<string, Json>, k: string): Result<bool, Invalid>
  {
    if k in m && m[k].JBool? then Success(m[k].b) else Failure(Invalid)
  }

  function OptionalStringField(m: map<string, Json>, k: string): Result<Option<string>, Invalid>
  {
    if k !in m then Success(None)
    else if m[k].JStr? then Success(Some(m[k].s))
    else Failure(Invalid)
  }

  function NullishStringField(m: map<string, Json>, k: string): Result<Nullish<string>, Invalid>
  {
    if k !in m then Success(Absent)
    else if m[k].JNull? then Success(Null)
    else if m[k].JStr? then Success(Present(m[k].s))
    else Failure(Invalid)
  }

  function StatusName(s: RequestStatus): string
  {
    match s
    case Pending => "pending"
    case InProgress => "in_progress"
    case Completed => "completed"
    case Rejected => "rejected"
  }

  function ParseStatus(j: Json): (r: Result<RequestStatus, Invalid>)
    ensures r.Success? <==> IsStatus(j)
    ensures r.Success? ==> j == JStr(StatusName(r.value))
  {
    if j == JStr("pending") then Success(Pending)
    else if j == JStr("in_progress") then Success(InProgress)
    else if j == JStr("completed") then Success(Completed)
    else if j == JStr("rejected") then Success(Rejected)
    else Failure(Invalid)
  }

  function StatusField(m: map<string, Json>, k: string): Result<RequestStatus, Invalid>
  {
    if k in m then ParseStatus(m[k]) else Failure(Invalid)
  }

  /** Parses every element in order; the first element that fails fails the whole array. */
  function ParseEach<T>(items: seq<Json>, parse: Json -> Result<T, Invalid>): Result<seq<T>, Invalid>
  {
    if items == [] then Success([])
    else
      var head :- parse(items[0]);
      var tail :- ParseEach(items[1..], parse);
      Success([head] + tail)
  }

  function ParseArray<T>(j: Json, parse: Json -> Result<T, Invalid>): Result<seq<T>, Invalid>
  {
    if j.JArr? then ParseEach(j.items, parse) else Failure(Invalid)
  }

  /** `Schema.parse(data)` where `undefined` (None) fails every schema of the model. */
  function Parse<T>(data: Option<Json>, parse: Json -> Result<T, Invalid>): Result<T, Invalid>
  {
    if data.None? then Failure(Invalid) else parse(data.value)
  }

  function ParseTenantInfo(j: Json): (r: Result<TenantInfo, Invalid>)
    ensures r.Success? <==> IsTenantInfo(j)
  {
    var m :- AsObject(j);
    var id :- StringField(m, "id");
    var name :- StringField(m, "name");
    var logoUrl :- NullishStringField(m, "logo_url");
    var primaryColor :- NullishStringField(m, "primary_color");
    var communeName :- OptionalStringField(m, "commune_name");
    Success(TenantInfo(id, name, logoUrl, primaryColor, communeName))
  }

  function ParseCategory(j: Json): (r: Result<Category, Invalid>)
    ensures r.Success? <==> IsCategory(j)
  {
    var m :- AsObject(j);
    var id :- StringField(m, "id");
    var name :- StringField(m, "name");
    var description :- NullishStringField(m, "description");
    var icon :- NullishStringField(m, "icon");
    Success(Category(id, name, description, icon))
  }

  function ParseSessionUser(j: Json, isEmail: string -> bool): (r: Result<SessionUser, Invalid>)
    ensures r.Success? <==> IsSessionUser(j, isEmail)
  {
    var m :- AsObject(j);
    var id :- StringField(m, "id");
    var email :- StringField(m, "email");
    if !isEmail(email) then Failure(Invalid)
    else
      var name :- OptionalStringField(m, "name");
      Success(SessionUser(id, email, name))
  }

  function ParseSession(j: Json, isEmail: string -> bool): (r: Result<Session, Invalid>)
    ensures r.Success? <==> IsSession(j, isEmail)
  {
    var m :- AsObject(j);
    var authenticated :- BoolField(m, "authenticated");
    if "user" !in m then Success(Session(authenticated, Absent))
    else if m["user"].JNull? then Success(Session(authenticated, Null))
    else
      var user :- ParseSessionUser(m["user"], isEmail);
      Success(Session(authenticated, Present(user)))
  }

  function ParseAttachment(j: Json): (r: Result<Attachment, Invalid>)
    ensures r.Success? <==> IsAttachment(j)
  {
    var m :- AsObject(j);
    var id :- StringField(m, "id");
    var url :- StringField(m, "url");
    var thumbnailUrl :- OptionalStringField(m, "thumbnail_url");
    Success(Attachment(id, url, thumbnailUrl))
  }

  function ParseRequest(j: Json): (r: Result<Request, Invalid>)
    ensures r.Success? <==> IsRequest(j)
  {
    var m :- AsObject(j);
    var id :- StringField(m, "id");
    var categoryId :- StringField(m, "category_id");
    var categoryName :- OptionalStringField(m, "category_name");
    var status :- StatusField(m, "status");
    var description :- StringField(m, "description");
    var latitude :- NumberField(m, "latitude");
    var longitude :- NumberField(m, "longitude");
    var createdAt :- StringField(m, "created_at");
    var updatedAt :- StringField(m, "updated_at");
    if "attachments" !in m then
      Success(Request(id, categoryId, categoryName, status, description,
                      latitude, longitude, createdAt, updatedAt, None))
    else
      ParseArrayAccepts(m["attachments"], ParseAttachment, IsAttachment);
      var attachments :- ParseArray(m["attachments"], ParseAttachment);
      Success(Request(id, categoryId, categoryName, status, description,
                      latitude, longitude, createdAt, updatedAt, Some(attachments)))
  }

  function ParseTimelineEvent(j: Json): (r: Result<TimelineEvent, Invalid>)
    ensures r.Success? <==> IsTimelineEvent(j)
  {
    var m :- AsObject(j);
    var id :- StringField(m, "id");
    var requestId :- StringField(m, "request_id");
    var eventType :- StringField(m, "event_type");
    var description :- StringField(m, "description");
    var createdAt :- StringField(m, "created_at");
    var userName :- OptionalStringField(m, "user_name");
    Success(TimelineEvent(id, requestId, eventType, description, createdAt, userName))
  }

  function ParsePublicIssue(j: Json): (r: Result<PublicIssue, Invalid>)
    ensures r.Success? <==> IsPublicIssue(j)
  {
    var m :- AsObject(j);
    var id :- StringField(m, "id");
    var categoryId :- StringField(m, "category_id");
    var categoryName :- OptionalStringField(m, "category_name");
    var status :- StatusField(m, "status");
    var latitude :- NumberField(m, "latitude");
    var longitude :- NumberField(m, "longitude");
    var createdAt :- StringField(m, "created_at");
    Success(PublicIssue(id, categoryId, categoryName, status, latitude, longitude, createdAt))
  }

  function ParseCreateRequest(j: Json): (r: Result<CreateRequestPayload, Invalid>)
    ensures r.Success? <==> IsCreateRequest(j)
  {
    var m :- AsObject(j);
    var categoryId :- StringField(m, "category_id");
    if |categoryId| < MinCategoryIdLength then Failure(Invalid)
    else
      var description :- StringField(m, "description");
      if |description| < MinDescriptionLength then Failure(Invalid)
      else
        var latitude :- NumberField(m, "latitude");
        if latitude < -MaxLatitude || latitude > MaxLatitude then Failure(Invalid)
        else
          var longitude :- NumberField(m, "longitude");
          if longitude < -MaxLongitude || longitude > MaxLongitude then Failure(Invalid)
          else Success(CreateRequestPayload(categoryId, description, latitude, longitude))
  }

  /** CategoriesResponseSchema */
  function ParseCategories(j: Json): Result<seq<Category>, Invalid>
  {
    ParseArray(j, ParseCategory)
  }

  /** RequestsResponseSchema */
  function ParseRequests(j: Json): Result<seq<Request>, Invalid>
  {
    ParseArray(j, ParseRequest)
  }

  /** TimelineResponseSchema */
  function ParseTimeline(j: Json): Result<seq<TimelineEvent>, Invalid>
  {
    ParseArray(j, ParseTimelineEvent)
  }

  /** PublicIssuesResponseSchema */
  function ParsePublicIssues(j: Json): Result<seq<PublicIssue>, Invalid>
  {
    ParseArray(j, ParsePublicIssue)
  }

  // ---------------------------------------------------------------------------
  // Arrays

  /**
   * An array parse succeeds exactly when every element parses, and then holds
   * the elements' parses in order.
   */
  lemma {:induction false} ParseEachAll<T>(items: seq<Json>, parse: Json -> Result<T, Invalid>)
    ensures ParseEach(items, parse).Success? <==>
              forall i :: 0 <= i < |items| ==> parse(items[i]).Success?
    ensures ParseEach(items, parse).Success? ==>
              |ParseEach(items, parse).value| == |items| &&
              forall i :: 0 <= i < |items| ==> ParseEach(items, parse).value[i] == parse(items[i]).value
    decreases |items|
  {
    if items != [] {
      ParseEachAll(items[1..], parse);
      if parse(items[0]).Success? && ParseEach(items[1..], parse).Success? {
        var r := ParseEach(items, parse).value;
        forall i | 0 <= i < |items| ensures r[i] == parse(items[i]).value {
          if i > 0 { assert items[i] == items[1..][i - 1]; }
        }
      }
      if forall i :: 0 <= i < |items| ==> parse(items[i]).Success? {
        forall i | 0 <= i < |items| - 1 ensures parse(items[1..][i]).Success? {
          assert items[1..][i] == items[i + 1];
        }
      }
    }
  }

  /** For a parser that succeeds exactly on `valid`, the array parser succeeds exactly on IsArrayOf. */
  lemma ParseArrayAccepts<T>(j: Json, parse: Json -> Result<T, Invalid>, valid: Json -> bool)
    requires forall x :: parse(x).Success? <==> valid(x)
    ensures ParseArray(j, parse).Success? <==> IsArrayOf(j, valid)
  {
    if j.JArr? { ParseEachAll(j.items, parse); }
  }

  /**
   * The array response schemas accept exactly the arrays whose every element
   * validates: one malformed element rejects the whole array, and the empty
   * array is accepted.
   */
  lemma ArrayResponsesAcceptEveryValidElement(j: Json)
    ensures ParseCategories(j).Success? <==> IsArrayOf(j, IsCategory)
    ensures ParseRequests(j).Success? <==> IsArrayOf(j, IsRequest)
    ensures ParseTimeline(j).Success? <==> IsArrayOf(j, IsTimelineEvent)
    ensures ParsePublicIssues(j).Success? <==> IsArrayOf(j, IsPublicIssue)
    ensures j == JArr([]) ==> ParseCategories(j) == Success([]) && ParseRequests(j) == Success([]) &&
                              ParseTimeline(j) == Success([]) && ParsePublicIssues(j) == Success([])
  {
    ParseArrayAccepts(j, ParseCategory, IsCategory);
    ParseArrayAccepts(j, ParseRequest, IsRequest);
    ParseArrayAccepts(j, ParseTimelineEvent, IsTimelineEvent);
    ParseArrayAccepts(j, ParsePublicIssue, IsPublicIssue);
  }

  // ---------------------------------------------------------------------------
  // Stripping: what zod keeps of an object is the members its schema names

  /** The members of `m` named in `keys`. */
  function Known(m: map<string, Json>, keys: set<string>): map<string, Json>
  {
    map k | k in m && k in keys :: m[k]
  }

  const TenantInfoKeys: set<string> := {"id", "name", "logo_url", "primary_color", "commune_name"}
  const CategoryKeys: set<string> := {"id", "name", "description", "icon"}
  const SessionUserKeys: set<string> := {"id", "email", "name"}
  const SessionKeys: set<string> := {"authenticated", "user"}
  const AttachmentKeys: set<string> := {"id", "url", "thumbnail_url"}
  const RequestKeys: set<string> :=
    {"id", "category_id", "category_name", "status", "description", "latitude", "longitude",
     "created_at", "updated_at", "attachments"}
  const TimelineEventKeys: set<string> :=
    {"id", "request_id", "event_type", "description", "created_at", "user_name"}
  const PublicIssueKeys: set<string> :=
    {"id", "category_id", "category_name", "status", "latitude", "longitude", "created_at"}
  const CreateRequestKeys: set<string> := {"category_id", "description", "latitude", "longitude"}

  // ---------------------------------------------------------------------------
  // Encodings: the JSON a backend sends for a record (absent fields left out)

  function WithOptional(m: map<string, Json>, k: string, v: Option<string>): map<string, Json>
  {
    if v.Some? then m[k := JStr(v.value)] else m
  }

  function WithNullish(m: map<string, Json>, k: string, v: Nullish<string>): map<string, Json>
  {
    match v
    case Absent => m
    case Null => m[k := JNull]
    case Present(x) => m[k := JStr(x)]
  }

  function TenantInfoJson(t: TenantInfo): Json
  {
    var m := map["id" := JStr(t.id), "name" := JStr(t.name)];
    JObj(WithOptional(WithNullish(WithNullish(m, "logo_url", t.logoUrl),
                                  "primary_color", t.primaryColor), "commune_name", t.communeName))
  }

  function CategoryJson(c: Category): Json
  {
    var m := map["id" := JStr(c.id), "name" := JStr(c.name)];
    JObj(WithNullish(WithNullish(m, "description", c.description), "icon", c.icon))
  }

  function SessionUserJson(u: SessionUser): Json
  {
    JObj(WithOptional(map["id" := JStr(u.id), "email" := JStr(u.email)], "name", u.name))
  }

  function SessionJson(s: Session): Json
  {
    var m := map["authenticated" := JBool(s.authenticated)];
    match s.user
    case Absent => JObj(m)
    case Null => JObj(m["user" := JNull])
    case Present(u) => JObj(m["user" := SessionUserJson(u)])
  }

  function AttachmentJson(a: Attachment): Json
  {
    JObj(WithOptional(map["id" := JStr(a.id), "url" := JStr(a.url)], "thumbnail_url", a.thumbnailUrl))
  }

  function AttachmentsJson(attachments: seq<Attachment>): (j: Json)
    ensures j.JArr? && |j.items| == |attachments|
    ensures forall i :: 0 <= i < |attachments| ==> j.items[i] == AttachmentJson(attachments[i])
  {
    JArr(seq(|attachments|, i requires 0 <= i < |attachments| => AttachmentJson(attachments[i])))
  }

  function RequestJson(r: Request): Json
  {
    var m := map["id" := JStr(r.id), "category_id" := JStr(r.categoryId),
                 "status" := JStr(StatusName(r.status)), "description" := JStr(r.description),
                 "latitude" := JNum(r.latitude), "longitude" := JNum(r.longitude),
                 "created_at" := JStr(r.createdAt), "updated_at" := JStr(r.updatedAt)];
    var m' := WithOptional(m, "category_name", r.categoryName);
    if r.attachments.Some? then JObj(m'["attachments" := AttachmentsJson(r.attachments.value)])
    else JObj(m')
  }

  function TimelineEventJson(e: TimelineEvent): Json
  {
    var m := map["id" := JStr(e.id), "request_id" := JStr(e.requestId),
                 "event_type" := JStr(e.eventType), "description" := JStr(e.description),
                 "created_at" := JStr(e.createdAt)];
    JObj(WithOptional(m, "user_name", e.userName))
  }

  function PublicIssueJson(p: PublicIssue): Json
  {
    var m := map["id" := JStr(p.id), "category_id" := JStr(p.categoryId),
                 "status" := JStr(StatusName(p.status)),
                 "latitude" := JNum(p.latitude), "longitude" := JNum(p.longitude),
                 "created_at" := JStr(p.createdAt)];
    JObj(WithOptional(m, "category_name", p.categoryName))
  }

  /** The request body `createRequest` posts: the payload object itself. */
  function CreateRequestJson(p: CreateRequestPayload): Json
  {
    JObj(map["category_id" := JStr(p.categoryId), "description" := JStr(p.description),
             "latitude" := JNum(p.latitude), "longitude" := JNum(p.longitude)])
  }

  // ---------------------------------------------------------------------------
  // Round trips: every record the types allow parses back from its encoding

  lemma TenantInfoRoundTrip(t: TenantInfo)
    ensures ParseTenantInfo(TenantInfoJson(t)) == Success(t)
  {
  }

  lemma CategoryRoundTrip(c: Category)
    ensures ParseCategory(CategoryJson(c)) == Success(c)
  {
  }

  /** A session round-trips when its user's e-mail passes the e-mail check. */
  lemma SessionRoundTrip(s: Session, isEmail: string -> bool)
    requires s.user.Present? ==> isEmail(s.user.value.email)
    ensures ParseSession(SessionJson(s), isEmail) == Success(s)
  {
  }

  lemma {:induction false} AttachmentsRoundTrip(attachments: seq<Attachment>)
    ensures ParseEach(AttachmentsJson(attachments).items, ParseAttachment) == Success(attachments)
    decreases |attachments|
  {
    if attachments != [] {
      AttachmentsRoundTrip(attachments[1..]);
      assert AttachmentsJson(attachments).items[1..] == AttachmentsJson(attachments[1..]).items;
      assert [attachments[0]] + attachments[1..] == attachments;
    }
  }

  lemma RequestRoundTrip(r: Request)
    ensures ParseRequest(RequestJson(r)) == Success(r)
  {
    var m := RequestJson(r).fields;
    assert StringField(m, "id") == Success(r.id);
    assert StringField(m, "category_id") == Success(r.categoryId);
    assert OptionalStringField(m, "category_name") == Success(r.categoryName);
    assert StatusField(m, "status") == Success(r.status);
    assert StringField(m, "description") == Success(r.description);
    assert NumberField(m, "latitude") == Success(r.latitude);
    assert NumberField(m, "longitude") == Success(r.longitude);
    assert StringField(m, "created_at") == Success(r.createdAt);
    assert StringField(m, "updated_at") == Success(r.updatedAt);
    if r.attachments.Some? {
      AttachmentsRoundTrip(r.attachments.value);
      assert ParseArray(m["attachments"], ParseAttachment) == Success(r.attachments.value);
    } else {
      assert "attachments" !in m;
    }
  }

  lemma TimelineEventRoundTrip(e: TimelineEvent)
    ensures ParseTimelineEvent(TimelineEventJson(e)) == Success(e)
  {
  }

  lemma PublicIssueRoundTrip(p: PublicIssue)
    ensures ParsePublicIssue(PublicIssueJson(p)) == Success(p)
  {
  }

  // ---------------------------------------------------------------------------
  // Field rules

  /** The status enumeration: a value is accepted iff it is one of the four names. */
  lemma StatusEnumeration(j: Json)
    ensures IsStatus(j) <==> exists s :: j == JStr(StatusName(s))
    ensures forall s, t :: StatusName(s) == StatusName(t) ==> s == t
  {
    if IsStatus(j) {
      var s := ParseStatus(j).value;
      assert j == JStr(StatusName(s));
    }
  }

  /** Replacing the status of a valid Request or PublicIssue keeps it valid iff the new status is one of the four. */
  lemma StatusFieldDecides(m: map<string, Json>, v: Json)
    ensures IsRequest(JObj(m)) ==> (IsRequest(JObj(m["status" := v])) <==> IsStatus(v))
    ensures IsPublicIssue(JObj(m)) ==> (IsPublicIssue(JObj(m["status" := v])) <==> IsStatus(v))
  {
  }

  /**
   * Every CreateRequest bound at once: a payload is accepted iff its category
   * is non-empty, its description has at least ten characters, and both
   * coordinates lie in their closed ranges.
   */
  lemma CreateRequestBounds(p: CreateRequestPayload)
    ensures IsCreateRequest(CreateRequestJson(p)) <==>
              |p.categoryId| >= 1 && |p.description| >= 10 &&
              -90.0 <= p.latitude <= 90.0 && -180.0 <= p.longitude <= 180.0
    ensures IsCreateRequest(CreateRequestJson(p)) ==> ParseCreateRequest(CreateRequestJson(p)) == Success(p)
  {
  }

  /** The description boundary: nine characters are refused, ten are accepted. */
  lemma DescriptionBoundary(p: CreateRequestPayload)
    requires |p.categoryId| >= 1 && -90.0 <= p.latitude <= 90.0 && -180.0 <= p.longitude <= 180.0
    ensures |p.description| == 9 ==> !IsCreateRequest(CreateRequestJson(p))
    ensures |p.description| == 10 ==> IsCreateRequest(CreateRequestJson(p))
  {
  }

  /**
   * Nullability: `.nullable().optional()` fields accept absent and null,
   * `.optional()` fields accept absent and refuse null.
   */
  lemma TenantInfoNullability(m: map<string, Json>)
    requires IsTenantInfo(JObj(m))
    ensures IsTenantInfo(JObj(m["logo_url" := JNull])) && IsTenantInfo(JObj(m - {"logo_url"}))
    ensures IsTenantInfo(JObj(m["primary_color" := JNull])) && IsTenantInfo(JObj(m - {"primary_color"}))
    ensures IsTenantInfo(JObj(m - {"commune_name"})) && !IsTenantInfo(JObj(m["commune_name" := JNull]))
  {
  }

  lemma CategoryNullability(m: map<string, Json>)
    requires IsCategory(JObj(m))
    ensures IsCategory(JObj(m["description" := JNull])) && IsCategory(JObj(m - {"description"}))
    ensures IsCategory(JObj(m["icon" := JNull])) && IsCategory(JObj(m - {"icon"}))
  {
  }

  lemma SessionNullability(m: map<string, Json>, isEmail: string -> bool)
    requires IsSession(JObj(m), isEmail)
    ensures IsSession(JObj(m["user" := JNull]), isEmail) && IsSession(JObj(m - {"user"}), isEmail)
    ensures "user" in m && m["user"].JObj? ==>
              var u := m["user"].fields;
              IsSession(JObj(m["user" := JObj(u - {"name"})]), isEmail) &&
              !IsSession(JObj(m["user" := JObj(u["name" := JNull])]), isEmail)
  {
  }

  lemma RequestNullability(m: map<string, Json>)
    requires IsRequest(JObj(m))
    ensures IsRequest(JObj(m - {"category_name"})) && !IsRequest(JObj(m["category_name" := JNull]))
    ensures IsRequest(JObj(m - {"attachments"})) && !IsRequest(JObj(m["attachments" := JNull]))
  {
  }

  lemma AttachmentNullability(m: map<string, Json>)
    requires IsAttachment(JObj(m))
    ensures IsAttachment(JObj(m - {"thumbnail_url"})) && !IsAttachment(JObj(m["thumbnail_url" := JNull]))
  {
  }

  lemma TimelineEventNullability(m: map<string, Json>)
    requires IsTimelineEvent(JObj(m))
    ensures IsTimelineEvent(JObj(m - {"user_name"})) && !IsTimelineEvent(JObj(m["user_name" := JNull]))
  {
  }

  lemma PublicIssueNullability(m: map<string, Json>)
    requires IsPublicIssue(JObj(m))
    ensures IsPublicIssue(JObj(m - {"category_name"})) && !IsPublicIssue(JObj(m["category_name" := JNull]))
  {
  }

  /** The members a Request must carry as strings. */
  const RequestStringKeys: set<string> :=
    {"id", "category_id", "description", "created_at", "updated_at"}

  /**
   * A Request missing any required member is refused, and so is one carrying
   * a required member of the wrong primitive type or an unknown status.
   */
  lemma RequestRequiredFields(m: map<string, Json>, k: string, v: Json)
    ensures k in RequestStringKeys + {"latitude", "longitude", "status"} ==> !IsRequest(JObj(m - {k}))
    ensures k in RequestStringKeys && !v.JStr? ==> !IsRequest(JObj(m[k := v]))
    ensures k in {"latitude", "longitude"} && !v.JNum? ==> !IsRequest(JObj(m[k := v]))
    ensures !IsStatus(v) ==> !IsRequest(JObj(m["status" := v]))
  {
  }

  /** Read-side validators do not range-check coordinates. */
  lemma ReadPathCoordinatesUnchecked(m: map<string, Json>, lat: real, lng: real)
    ensures IsRequest(JObj(m)) ==>
              IsRequest(JObj(m["latitude" := JNum(lat)]["longitude" := JNum(lng)]))
    ensures IsPublicIssue(JObj(m)) ==>
              IsPublicIssue(JObj(m["latitude" := JNum(lat)]["longitude" := JNum(lng)]))
  {
  }

  // ---------------------------------------------------------------------------
  // Parse then encode: unknown members are dropped, known ones kept as sent

  /**
   * Members TenantInfoSchema does not name never change the outcome, and an
   * accepted object encodes back to exactly its known members.
   */
  lemma TenantInfoStripsUnknown(m: map<string, Json>)
    ensures ParseTenantInfo(JObj(m)) == ParseTenantInfo(JObj(Known(m, TenantInfoKeys)))
    ensures ParseTenantInfo(JObj(m)).Success? ==>
              TenantInfoJson(ParseTenantInfo(JObj(m)).value) == JObj(Known(m, TenantInfoKeys))
  {
  }

  lemma CategoryStripsUnknown(m: map<string, Json>)
    ensures ParseCategory(JObj(m)) == ParseCategory(JObj(Known(m, CategoryKeys)))
    ensures ParseCategory(JObj(m)).Success? ==>
              CategoryJson(ParseCategory(JObj(m)).value) == JObj(Known(m, CategoryKeys))
  {
  }

  lemma SessionUserStripsUnknown(m: map<string, Json>, isEmail: string -> bool)
    ensures ParseSessionUser(JObj(m), isEmail) == ParseSessionUser(JObj(Known(m, SessionUserKeys)), isEmail)
    ensures ParseSessionUser(JObj(m), isEmail).Success? ==>
              SessionUserJson(ParseSessionUser(JObj(m), isEmail).value) == JObj(Known(m, SessionUserKeys))
  {
  }

  /**
   * A session keeps `authenticated` as sent and takes `user` absent, null, or
   * as the parse of the user object (stripped by SessionUserStripsUnknown).
   */
  lemma SessionStripsUnknown(m: map<string, Json>, isEmail: string -> bool)
    ensures ParseSession(JObj(m), isEmail) == ParseSession(JObj(Known(m, SessionKeys)), isEmail)
    ensures ParseSession(JObj(m), isEmail).Success? ==>
              var s := ParseSession(JObj(m), isEmail).value;
              JBool(s.authenticated) == m["authenticated"] &&
              ("user" !in m <==> s.user == Absent) &&
              ("user" in m && m["user"] == JNull <==> s.user == Null) &&
              (s.user.Present? ==> Success(s.user.value) == ParseSessionUser(m["user"], isEmail))
  {
  }

  lemma AttachmentStripsUnknown(m: map<string, Json>)
    ensures ParseAttachment(JObj(m)) == ParseAttachment(JObj(Known(m, AttachmentKeys)))
    ensures ParseAttachment(JObj(m)).Success? ==>
              AttachmentJson(ParseAttachment(JObj(m)).value) == JObj(Known(m, AttachmentKeys))
  {
  }

  /**
   * A request keeps its scalar members as sent, and its attachments are the
   * parses of the attachment objects, in order (each stripped by
   * AttachmentStripsUnknown).
   */
  lemma RequestStripsUnknown(m: map<string, Json>)
    ensures ParseRequest(JObj(m)) == ParseRequest(JObj(Known(m, RequestKeys)))
    ensures ParseRequest(JObj(m)).Success? ==>
              var r := ParseRequest(JObj(m)).value;
              Known(RequestJson(r).fields, RequestKeys - {"attachments"}) == Known(m, RequestKeys - {"attachments"}) &&
              RequestJson(r).fields.Keys <= RequestKeys &&
              ("attachments" in m <==> r.attachments.Some?) &&
              (r.attachments.Some? ==> ParseEach(m["attachments"].items, ParseAttachment) == Success(r.attachments.value))
  {
  }

  lemma TimelineEventStripsUnknown(m: map<string, Json>)
    ensures ParseTimelineEvent(JObj(m)) == ParseTimelineEvent(JObj(Known(m, TimelineEventKeys)))
    ensures ParseTimelineEvent(JObj(m)).Success? ==>
              TimelineEventJson(ParseTimelineEvent(JObj(m)).value) == JObj(Known(m, TimelineEventKeys))
  {
  }

  lemma PublicIssueStripsUnknown(m: map<string, Json>)
    ensures ParsePublicIssue(JObj(m)) == ParsePublicIssue(JObj(Known(m, PublicIssueKeys)))
    ensures ParsePublicIssue(JObj(m)).Success? ==>
              PublicIssueJson(ParsePublicIssue(JObj(m)).value) == JObj(Known(m, PublicIssueKeys))
  {
  }

  lemma CreateRequestStripsUnknown(m: map<string, Json>)
    ensures ParseCreateRequest(JObj(m)) == ParseCreateRequest(JObj(Known(m, CreateRequestKeys)))
    ensures ParseCreateRequest(JObj(m)).Success? ==>
              CreateRequestJson(ParseCreateRequest(JObj(m)).value) == JObj(Known(m, CreateRequestKeys))
  {
  }
}
