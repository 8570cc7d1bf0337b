/**
 * The query layer of src/hooks/useApi.ts: query keys, the options each hook
 * hands to useQuery, and the two mutation callbacks that write to the shared
 * query cache. The cache is an object holding a map from key to entry.
 */
module Queries {
  import opened Wrappers
  import opened JsonValues
  import opened Schemas
  import opened Client
  import opened Services

  /** A query key: an array of strings whose first element names the resource. */
  type QueryKey = seq<string>

  /** The queries of the app, with their parameter. */
  datatype Resource =
    | TenantInfoQuery
    | SessionQuery
    | CategoriesQuery
    | MyRequestsQuery
    | RequestQuery(id: string)
    | RequestTimelineQuery(id: string)
    | PublicIssuesQuery(bbox: string)

  /** `queryKeys`: the key of each query. */
  function KeyOf(r: Resource): QueryKey
  {
    match r
    case TenantInfoQuery => ["tenantInfo"]
    case SessionQuery => ["session"]
    case CategoriesQuery => ["categories"]
    case MyRequestsQuery => ["myRequests"]
    case RequestQuery(id) => ["request", id]
    case RequestTimelineQuery(id) => ["requestTimeline", id]
    case PublicIssuesQuery(bbox) => ["publicIssues", bbox]
  }

  /** The resource name a key starts with. */
  function Tag(r: Resource): string
  {
    match r
    case TenantInfoQuery => "tenantInfo"
    case SessionQuery => "session"
    case CategoriesQuery => "categories"
    case MyRequestsQuery => "myRequests"
    case RequestQuery(_) => "request"
    case RequestTimelineQuery(_) => "requestTimeline"
    case PublicIssuesQuery(_) => "publicIssues"
  }

  lemma TagsDistinct(a: Resource, b: Resource)
    ensures Tag(a) == Tag(b) <==>
              (a.TenantInfoQuery? == b.TenantInfoQuery? && a.SessionQuery? == b.SessionQuery? &&
               a.CategoriesQuery? == b.CategoriesQuery? && a.MyRequestsQuery? == b.MyRequestsQuery? &&
               a.RequestQuery? == b.RequestQuery? && a.RequestTimelineQuery? == b.RequestTimelineQuery? &&
               a.PublicIssuesQuery? == b.PublicIssuesQuery?)
  {
    if Tag(a) == Tag(b) {
      var t := Tag(a);
      assert |t| == |Tag(b)| && t[0] == Tag(b)[0];
    }
  }

  /**
   * Keys never collide: two queries share a key iff they are the same query,
   * so keys of different resources differ and two parameterised keys are
   * equal iff their id (or bbox string) is.
   */
  lemma KeyOfInjective(a: Resource, b: Resource)
    ensures KeyOf(a) == KeyOf(b) <==> a == b
    ensures KeyOf(a)[0] == Tag(a)
  {
    if KeyOf(a) == KeyOf(b) {
      assert KeyOf(a)[0] == KeyOf(b)[0];
      TagsDistinct(a, b);
    }
  }

  /** A key the app can produce. */
  ghost predicate IsAppKey(k: QueryKey)
  {
    exists r :: KeyOf(r) == k
  }

  // ---------------------------------------------------------------------------
  // Hook options

  /** `staleTime`: Infinity, or a number of milliseconds. */
  datatype StaleTime = Never | After(ms: nat)

  /** What a hook hands to useQuery; `call` is the request its queryFn issues, if it can issue one. */
  datatype QueryOptions = QueryOptions(
    key: QueryKey, call: Option<Call>, enabled: bool, staleTime: StaleTime, retry: nat)

  const Minute: nat := 60 * 1000

  /** The library's staleTime when a hook sets none. */
  const DefaultStaleTime: StaleTime := After(0)

  /** The QueryClient default of src/App.tsx. */
  const DefaultRetry: nat := 1

  function UseTenantInfo(): QueryOptions
  {
    QueryOptions(KeyOf(TenantInfoQuery), Some(GetTenantInfoCall()), true, Never, 3)
  }

  /** `retry: false`: a failed session fetch is not retried. */
  function UseSession(): QueryOptions
  {
    QueryOptions(KeyOf(SessionQuery), Some(GetSessionCall()), true, After(5 * Minute), 0)
  }

  function UseCategories(): QueryOptions
  {
    QueryOptions(KeyOf(CategoriesQuery), Some(GetCategoriesCall()), true, After(10 * Minute), DefaultRetry)
  }

  function UseMyRequests(): QueryOptions
  {
    QueryOptions(KeyOf(MyRequestsQuery), Some(GetMyRequestsCall()), true, After(1 * Minute), DefaultRetry)
  }

  /** `enabled: !!id`: the empty id disables the query. */
  function UseRequest(id: string): QueryOptions
  {
    QueryOptions(KeyOf(RequestQuery(id)), Some(GetRequestCall(id)), id != "", DefaultStaleTime, DefaultRetry)
  }

  function UseRequestTimeline(id: string): QueryOptions
  {
    QueryOptions(KeyOf(RequestTimelineQuery(id)), Some(GetRequestTimelineCall(id)), id != "",
                 DefaultStaleTime, DefaultRetry)
  }

  /**
   * With a null bbox the key falls back to the empty string and the query is
   * disabled (its queryFn could not build a request from null).
   */
  function UsePublicIssues(bbox: Option<BoundingBox>, numberText: real -> string): QueryOptions
  {
    var bboxString := if bbox.Some? then BboxText(bbox.value, numberText) else "";
    QueryOptions(
      KeyOf(PublicIssuesQuery(bboxString)),
      if bbox.Some? then Some(GetPublicIssuesCall(bbox.value, numberText)) else None,
      bbox.Some?,
      After(2 * Minute),
      DefaultRetry)
  }

  /**
   * The per-resource configuration: only tenant info never goes stale, only
   * the session is never retried, and no query retries more than three times.
   */
  lemma ConfigurationTable(id: string, bbox: Option<BoundingBox>, numberText: real -> string)
    ensures UseTenantInfo().staleTime == Never && UseTenantInfo().retry == 3
    ensures UseSession().staleTime == After(300000) && UseSession().retry == 0
    ensures UseCategories().staleTime == After(600000) && UseCategories().retry == 1
    ensures UseMyRequests().staleTime == After(60000) && UseMyRequests().retry == 1
    ensures UsePublicIssues(bbox, numberText).staleTime == After(120000)
    ensures UsePublicIssues(bbox, numberText).retry == 1
    ensures UseRequest(id).staleTime == After(0) && UseRequest(id).retry == 1
    ensures UseRequestTimeline(id).staleTime == After(0) && UseRequestTimeline(id).retry == 1
  {
  }

  /**
   * Queries without their parameter are disabled: request detail and timeline
   * for the empty id, public issues for a null bbox (whose key is then
   * `['publicIssues', '']`). Every other query is always enabled.
   */
  lemma DisabledQueries(id: string, bbox: Option<BoundingBox>, numberText: real -> string)
    ensures UseRequest(id).enabled <==> id != ""
    ensures UseRequestTimeline(id).enabled <==> id != ""
    ensures UsePublicIssues(bbox, numberText).enabled <==> bbox.Some?
    ensures bbox.None? ==>
              UsePublicIssues(bbox, numberText).key == ["publicIssues", ""] &&
              UsePublicIssues(bbox, numberText).call.None?
    ensures UseTenantInfo().enabled && UseSession().enabled && UseCategories().enabled && UseMyRequests().enabled
  {
  }

  /**
   * The public-issues key carries the same `minLng,minLat,maxLng,maxLat`
   * string that is sent to the server as `bbox`, so two boxes share a cache
   * entry exactly when they would send the same query.
   */
  lemma PublicIssuesKeyMatchesWire(bbox: BoundingBox, other: BoundingBox, numberText: real -> string)
    ensures var opts := UsePublicIssues(Some(bbox), numberText);
            opts.call == Some(GetPublicIssuesCall(bbox, numberText)) &&
            opts.call.value.params == Some([("bbox", PString(opts.key[1]))]) &&
            opts.key[1] == numberText(bbox.minLng) + "," + numberText(bbox.minLat) + "," +
                           numberText(bbox.maxLng) + "," + numberText(bbox.maxLat)
    ensures UsePublicIssues(Some(bbox), numberText).key == UsePublicIssues(Some(other), numberText).key <==>
              GetPublicIssuesCall(bbox, numberText) == GetPublicIssuesCall(other, numberText)
  {
  }

  // ---------------------------------------------------------------------------
  // The query cache

  /** A cache entry: the data held, and whether it has been marked for refetch. */
  datatype Entry = Entry(data: Option<Json>, invalidated: bool)

  /** `{authenticated: false, user: null}` */
  const LoggedOutSession: Json := SessionJson(Session(false, Null))

  /** setQueryData: new data, no longer invalidated. */
  function WithData(entries: map<QueryKey, Entry>, key: QueryKey, data: Json): map<QueryKey, Entry>
  {
    entries[key := Entry(Some(data), false)]
  }

  /** invalidateQueries: every entry whose key starts with `prefix` is marked for refetch. */
  function Invalidated(entries: map<QueryKey, Entry>, prefix: QueryKey): map<QueryKey, Entry>
  {
    map k | k in entries :: if prefix <= k then entries[k].(invalidated := true) else entries[k]
  }

  /**
   * After a logout the session entry holds the logged-out value whatever it
   * held before (and a session validator accepts that value); no other entry
   * changes.
   */
  lemma LogoutOverwritesSession(entries: map<QueryKey, Entry>, isEmail: string -> bool)
    ensures var after := WithData(entries, KeyOf(SessionQuery), LoggedOutSession);
            after.Keys == entries.Keys + {["session"]} &&
            after[["session"]] == Entry(Some(LoggedOutSession), false) &&
            forall k :: k in entries && k != ["session"] ==> after[k] == entries[k]
    ensures LoggedOutSession == JObj(map["authenticated" := JBool(false), "user" := JNull])
    ensures ParseSession(LoggedOutSession, isEmail) == Success(Session(false, Null))
  {
    SessionRoundTrip(Session(false, Null), isEmail);
  }

  /**
   * Invalidating the `myRequests` prefix touches only the `myRequests` entry
   * of a cache that holds app keys: no other key starts with "myRequests".
   * Data is kept everywhere.
   */
  lemma {:induction false} InvalidateMyRequestsOnly(entries: map<QueryKey, Entry>)
    requires forall k :: k in entries ==> IsAppKey(k)
    ensures var after := Invalidated(entries, KeyOf(MyRequestsQuery));
            after.Keys == entries.Keys &&
            forall k :: k in entries ==>
              after[k] == if k == ["myRequests"] then entries[k].(invalidated := true) else entries[k]
  {
    var prefix := KeyOf(MyRequestsQuery);
    forall k | k in entries && prefix <= k ensures k == ["myRequests"] {
      var r :| KeyOf(r) == k;
      KeyOfInjective(r, MyRequestsQuery);
      assert Tag(r) == k[0] == "myRequests";
      TagsDistinct(r, MyRequestsQuery);
    }
  }

  /** The shared cache of query results. */
  class QueryCache {
    var entries: map<QueryKey, Entry>

    /** Only keys the app produces are ever stored. */
    ghost predicate Valid()
      reads this
    {
      forall k :: k in entries ==> IsAppKey(k)
    }

    constructor()
      ensures Valid() && entries == map[]
    {
      entries := map[];
    }

    method SetQueryData(key: QueryKey, data: Json)
      requires Valid() && IsAppKey(key)
      modifies this
      ensures Valid()
      ensures entries == WithData(old(entries), key, data)
    {
      entries := entries[key := Entry(Some(data), false)];
    }

    method InvalidateQueries(prefix: QueryKey)
      requires Valid()
      modifies this
      ensures Valid()
      ensures entries == Invalidated(old(entries), prefix)
    {
      entries := map k | k in entries :: if prefix <= k then entries[k].(invalidated := true) else entries[k];
    }

    /** useLogout's onSuccess (the redirect to '/' is not modelled). */
    method OnLogoutSuccess()
      requires Valid()
      modifies this
      ensures Valid()
      ensures ["session"] in entries && entries[["session"]] == Entry(Some(LoggedOutSession), false)
      ensures forall k :: k in old(entries) && k != ["session"] ==> k in entries && entries[k] == old(entries)[k]
      ensures entries.Keys == old(entries).Keys + {["session"]}
    {
      assert KeyOf(SessionQuery) == ["session"];
      SetQueryData(KeyOf(SessionQuery), LoggedOutSession);
    }

    /** useCreateRequest's onSuccess. */
    method OnCreateRequestSuccess()
      requires Valid()
      modifies this
      ensures Valid()
      ensures entries.Keys == old(entries).Keys
      ensures forall k :: k in entries ==>
                entries[k] == if k == ["myRequests"] then old(entries)[k].(invalidated := true) else old(entries)[k]
    {
      InvalidateMyRequestsOnly(entries);
      InvalidateQueries(KeyOf(MyRequestsQuery));
    }
  }
}
