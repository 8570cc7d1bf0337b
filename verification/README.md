# civvy-web-resident: the validated data-access layer, in Dafny

The resident portal of civvy is a React single-page application. Beneath its
views sits a small layer of precise rules, and this project models that layer
and proves properties of it:

- **Schemas** (`schemas.dfy`, from `src/types/api.ts`). The zod schemas are
  written twice. Predicates `IsX` state the field rules over a JSON value.
  Parsers `ParseX` walk a value field by field and build the typed record.
  Unknown keys are dropped, as zod does by default, and never change whether a value is accepted. The rules cover required
  fields, `.optional()` fields (absent allowed, null refused),
  `.nullable().optional()` fields (absent or null), the four-value request
  status, arrays that need every element to validate, and the write-side
  bounds of a new request.
- **HTTP client** (`client.dfy`, from `src/api/client.ts`). `handleResponse`
  sorts a response into a body or an `ApiError`. `buildUrl` appends the
  defined query parameters in a loop. Each verb builds a `RequestInit`:
  credentials, headers and body. `fetch` is abstracted: the server's answer
  is a parameter (`Reply`), and `Response.body` is what `response.json()`
  gives, or `None` when the body is not JSON.
- **Accessors** (`services.dfy`, from `src/api/services.ts`). Each accessor
  is two functions: the request it issues (`...Call`), and what it makes of
  the client's result. `getCategories` turns every failure into `[]`; the
  other accessors pass failures through.
- **Queries and cache** (`queries.dfy`, from `src/hooks/useApi.ts`). This
  covers query keys, the options each hook gives `useQuery` (key, staleTime,
  retry, enabled), and a `QueryCache` class. Its methods perform the two
  mutation callbacks: logout overwrites the session entry, and request
  creation invalidates `['myRequests']`.
- **Branding** (`branding.dfy`, from `src/contexts/BrandingContext.tsx`).
  `hexToRgb` parses `#rrggbb`, and `generateColorShades` builds a clamped
  ten-step palette.

`wrappers.dfy` (Option, Result), `json.dfy` (JSON values, member access,
JavaScript truthiness) and `text.dfy` (decimal rendering of naturals, as a
template literal prints a status code or a channel) support these modules.

On these points the model follows the code:

- `.optional()` fields refuse `null`; only `.nullable().optional()` fields accept it.
- An error response's status text is used only when its body is not JSON.
  A JSON error body without a truthy `message` gives `"HTTP <status>"`.
- A non-ok response whose body is JSON `null` does not give an `ApiError`.
  Reading `.message` of `null` throws a `TypeError`, modelled as `ClientError.TypeError`.

## Model

| member | source | states |
|---|---|---|
| Schemas.ParseTenantInfo | src/types/api.ts:4-10 | the parser succeeds exactly on the objects whose id and name are strings, logo_url and primary_color are absent, null or strings, and commune_name is absent or a string |
| Schemas.ParseCategory | src/types/api.ts:15-20 | succeeds exactly when id and name are strings and description and icon are absent, null or strings |
| Schemas.ParseSessionUser | src/types/api.ts:29-33 | succeeds exactly when id is a string, email is a string passing the e-mail check, and name is absent or a string |
| Schemas.ParseSession | src/types/api.ts:27-34 | succeeds exactly when authenticated is a boolean and user is absent, null or a valid user object |
| Schemas.ParseStatus | src/types/api.ts:39 | accepts exactly the four literals pending, in_progress, completed, rejected, and the accepted value is the literal of the status returned |
| Schemas.ParseAttachment | src/types/api.ts:51-55 | succeeds exactly when id and url are strings and thumbnail_url is absent or a string |
| Schemas.ParseRequest | src/types/api.ts:41-56 | succeeds exactly on the objects IsRequest describes: string ids, texts and timestamps, a valid status, numeric coordinates, optional category_name, optional array of valid attachments |
| Schemas.ParseTimelineEvent | src/types/api.ts:64-71 | succeeds exactly when the five required members are strings and user_name is absent or a string |
| Schemas.ParsePublicIssue | src/types/api.ts:78-86 | succeeds exactly when id, category_id, created_at are strings, status is valid, coordinates are numbers, category_name absent or a string |
| Schemas.ParseCreateRequest | src/types/api.ts:93-98 | succeeds exactly when category_id is non-empty, description has at least 10 characters, latitude is in [-90, 90] and longitude in [-180, 180] |
| Schemas.ParseCategories | src/types/api.ts:24 | no contract of its own; ArrayResponsesAcceptEveryValidElement and ParseEachAll state that it accepts exactly arrays of valid categories and yields their parses in order |
| Schemas.ParseRequests | src/types/api.ts:61 | no contract of its own; ArrayResponsesAcceptEveryValidElement: accepts exactly arrays of valid requests |
| Schemas.ParseTimeline | src/types/api.ts:75 | no contract of its own; ArrayResponsesAcceptEveryValidElement: accepts exactly arrays of valid timeline events |
| Schemas.ParsePublicIssues | src/types/api.ts:90 | no contract of its own; ArrayResponsesAcceptEveryValidElement: accepts exactly arrays of valid public issues |
| Schemas.ParseEachAll | src/types/api.ts:24 | an array parse succeeds iff every element parses, and then yields each element's parse, in order |
| Schemas.ParseArrayAccepts | src/types/api.ts:51 | `z.array(item)` accepts exactly the arrays whose every element the item schema accepts |
| Schemas.ArrayResponsesAcceptEveryValidElement | src/types/api.ts:24-90 | the four array response schemas accept a value iff it is an array of valid elements; one bad element rejects the whole array; the empty array gives the empty list |
| Schemas.TenantInfoRoundTrip | src/types/api.ts:4-10 | every TenantInfo record parses back from its JSON encoding |
| Schemas.CategoryRoundTrip | src/types/api.ts:15-20 | every Category parses back from its JSON encoding |
| Schemas.SessionRoundTrip | src/types/api.ts:27-34 | every Session whose user e-mail passes the e-mail check parses back from its encoding |
| Schemas.AttachmentsRoundTrip | src/types/api.ts:51-55 | every attachment list parses back, element by element, from its encoding |
| Schemas.RequestRoundTrip | src/types/api.ts:41-56 | every Request, with or without attachments, parses back from its encoding |
| Schemas.TimelineEventRoundTrip | src/types/api.ts:64-71 | every TimelineEvent parses back from its encoding |
| Schemas.PublicIssueRoundTrip | src/types/api.ts:78-86 | every PublicIssue parses back from its encoding |
| Schemas.TenantInfoStripsUnknown | src/types/api.ts:4-10 | members the schema does not name never change the outcome, and an accepted object encodes back to exactly its named members |
| Schemas.CategoryStripsUnknown | src/types/api.ts:15-20 | unknown members never change the outcome; an accepted category encodes back to exactly its named members |
| Schemas.SessionUserStripsUnknown | src/types/api.ts:29-33 | unknown members never change the outcome; an accepted user encodes back to exactly its named members |
| Schemas.SessionStripsUnknown | src/types/api.ts:27-34 | unknown members never change the outcome; an accepted session keeps authenticated as sent, and its user is absent, null or the parse of the user object exactly as the member is |
| Schemas.AttachmentStripsUnknown | src/types/api.ts:51-55 | unknown members never change the outcome; an accepted attachment encodes back to exactly its named members |
| Schemas.RequestStripsUnknown | src/types/api.ts:41-56 | unknown members never change the outcome; an accepted request encodes back to its named scalar members exactly as sent, has attachments iff the member is present, and they are the element parses in order |
| Schemas.TimelineEventStripsUnknown | src/types/api.ts:64-71 | unknown members never change the outcome; an accepted event encodes back to exactly its named members |
| Schemas.PublicIssueStripsUnknown | src/types/api.ts:78-86 | unknown members never change the outcome; an accepted issue encodes back to exactly its named members |
| Schemas.CreateRequestStripsUnknown | src/types/api.ts:93-98 | unknown members never change the outcome; an accepted payload encodes back to exactly its four members |
| Schemas.StatusEnumeration | src/types/api.ts:39 | a value is a valid status iff it is the literal of one of the four statuses, and the four literals are distinct |
| Schemas.StatusFieldDecides | src/types/api.ts:41-45 | putting a value in the status member of a valid Request or PublicIssue keeps it valid iff the value is one of the four literals |
| Schemas.CreateRequestBounds | src/types/api.ts:93-98 | a payload is accepted iff category non-empty, description at least 10 characters, -90 <= lat <= 90 and -180 <= lng <= 180 (bounds inclusive); an accepted payload parses back to itself |
| Schemas.DescriptionBoundary | src/types/api.ts:95 | with the other fields valid, a 9-character description is refused and a 10-character one accepted |
| Schemas.TenantInfoNullability | src/types/api.ts:7-9 | logo_url and primary_color may be null or absent; commune_name may be absent but not null |
| Schemas.CategoryNullability | src/types/api.ts:18-19 | category description and icon may be null or absent |
| Schemas.SessionNullability | src/types/api.ts:29-33 | user may be null or absent; user.name may be absent but not null |
| Schemas.RequestNullability | src/types/api.ts:44-55 | category_name and attachments may be absent but not null |
| Schemas.AttachmentNullability | src/types/api.ts:54 | thumbnail_url may be absent but not null |
| Schemas.TimelineEventNullability | src/types/api.ts:70 | user_name may be absent but not null |
| Schemas.PublicIssueNullability | src/types/api.ts:81 | category_name may be absent but not null |
| Schemas.RequestRequiredFields | src/types/api.ts:41-50 | a Request lacking id, category_id, description, created_at, updated_at, latitude, longitude or status is refused; so is one where a string member holds a non-string, a coordinate a non-number, or status a value outside the four literals |
| Schemas.ReadPathCoordinatesUnchecked | src/types/api.ts:47-48 | a valid Request or PublicIssue stays valid with any numeric coordinates (e.g. latitude 200): the read path has no range check |
| Text.Decimal | src/api/client.ts:55 | the printed status is a non-empty string of digits with no leading zero |
| Text.DecimalRoundTrip | src/api/client.ts:55 | reading the printed digits back gives the number |
| Text.DecimalInjective | src/api/client.ts:55 | two numbers print alike only if they are equal |
| Client.HandleResponse | src/api/client.ts:44-71 | a response resolves iff it is ok; every non-ok response rejects |
| Client.HandleResponseClassification | src/api/client.ts:44-71 | a non-ok response with a non-null body rejects with an ApiError carrying its status and its error body (or {message: statusText} for a non-JSON body); message = the body's truthy message, else the status text of a non-JSON body, else "HTTP <status>"; a JSON null error body throws a TypeError; ok 204 resolves to undefined; ok non-JSON resolves to undefined |
| Client.FallbackMessageNamesStatus | src/api/client.ts:55 | the fallback message is "HTTP " followed by digits that read back as the status |
| Client.QueryOfAppend | src/api/client.ts:33-39 | the query of concatenated parameter lists is the concatenation of their queries: entry order is kept |
| Client.QueryOfMembership | src/api/client.ts:33-39 | a pair is in the query iff some entry has that key and a defined value printing as that text; undefined values never appear |
| Client.QueryOfAllDefined | src/api/client.ts:33-39 | with no undefined values, the query is every entry, as String(value), in entry order |
| Client.QueryOf | src/api/client.ts:33-39 | no contract of its own; QueryOfAppend, QueryOfMembership and QueryOfAllDefined state what the search parameters hold and in which order |
| Client.JsonInit | src/api/client.ts:75-83 | no contract of its own; RequestHeaders and RequestBodies state its credentials, headers and body |
| Client.UploadInit | src/api/client.ts:140-146 | no contract of its own; RequestHeaders states its credentials, caller-only headers and one-entry form |
| Client.ApiClient.constructor | src/api/client.ts:26-28 | the client keeps the base URL it is given (what the configuration returns) |
| Client.ApiClient.BuildUrl | src/api/client.ts:30-42 | the URL is resolved against the base URL, or the page origin when it is empty; its query is QueryOf of the parameters, nothing when there are none |
| Client.RequestHeaders | src/api/client.ts:73-149 | every verb sends credentials "include"; JSON verbs send caller headers plus Content-Type, application/json unless the caller set it; uploads send only the caller headers and a one-entry form |
| Client.RequestBodies | src/api/client.ts:88-118 | a body (the JSON text of `body`) is sent iff the verb is POST or PUT and `body` is truthy |
| Client.ApiClient.Get | src/api/client.ts:73-86 | GET sends the built URL with the JSON-verb RequestInit and no body; a network failure rejects with NetworkError, an answer settles as handleResponse decides |
| Client.ApiClient.Post | src/api/client.ts:88-102 | POST sends the built URL with the JSON-verb RequestInit carrying the body; a network failure rejects with NetworkError, an answer settles as handleResponse decides |
| Client.ApiClient.Put | src/api/client.ts:104-118 | PUT, as POST with verb PUT: the body-carrying RequestInit; NetworkError on a network failure, else handleResponse's outcome |
| Client.ApiClient.Delete | src/api/client.ts:120-133 | DELETE sends the built URL with the JSON-verb RequestInit and no body; NetworkError on a network failure, else handleResponse's outcome |
| Client.ApiClient.UploadFile | src/api/client.ts:135-149 | uploadFile POSTs a form with the file under "file", without a Content-Type of its own; NetworkError on a network failure, else handleResponse's outcome |
| Services.CategoriesDegrade | src/api/services.ts:38-47 | getCategories never rejects: client failures, undefined bodies and refused bodies give []; a valid array gives exactly its parsed elements, in order |
| Services.CategoriesServerErrorScenario | src/api/services.ts:38-47 | a 500 on the categories endpoint resolves to [] whatever its body |
| Services.GetTenantInfoCall | src/api/services.ts:23 | no contract of its own; a GET of /api/v1/public/tenant-info, with the other request descriptions constrained by RequestPaths and AccessorRequests |
| Services.GetTenantInfo | src/api/services.ts:22-25 | no contract of its own; ClientFailuresPropagate, ValidationDecides and ValidatedValues: client errors pass through, the body must satisfy IsTenantInfo, the value is its parse |
| Services.GetSessionCall | src/api/services.ts:29 | no contract of its own; a GET of /api/v1/auth/session |
| Services.GetSession | src/api/services.ts:28-31 | no contract of its own; ClientFailuresPropagate, ValidationDecides, ValidatedValues for the session schema |
| Services.LogoutCall | src/api/services.ts:34 | no contract of its own; AccessorRequests: a POST without a body |
| Services.Logout | src/api/services.ts:33-35 | no contract of its own; ClientFailuresPropagate and UnvalidatedResults: client errors pass through, any body resolves to nothing |
| Services.GetCategoriesCall | src/api/services.ts:40 | no contract of its own; a GET of /api/v1/public/categories |
| Services.GetCategories | src/api/services.ts:38-47 | no contract of its own; CategoriesDegrade: every failure gives [], a valid array its parses |
| Services.CreateRequestCall | src/api/services.ts:51 | no contract of its own; AccessorRequests: a POST of the payload to /api/v1/requests |
| Services.CreateRequest | src/api/services.ts:50-53 | no contract of its own; ClientFailuresPropagate, ValidationDecides, ValidatedValues for RequestSchema |
| Services.GetMyRequestsCall | src/api/services.ts:56 | no contract of its own; a GET of /api/v1/requests/mine |
| Services.GetMyRequests | src/api/services.ts:55-58 | no contract of its own; ClientFailuresPropagate, ValidationDecides, ValidatedValues for the requests array |
| Services.GetRequestCall | src/api/services.ts:61 | no contract of its own; RequestPaths: /api/v1/requests/{id}, injective in id |
| Services.GetRequest | src/api/services.ts:60-63 | no contract of its own; ClientFailuresPropagate, ValidationDecides, ValidatedValues for RequestSchema |
| Services.GetRequestTimelineCall | src/api/services.ts:66 | no contract of its own; RequestPaths: the request path plus /timeline |
| Services.GetRequestTimeline | src/api/services.ts:65-68 | no contract of its own; ClientFailuresPropagate, ValidationDecides, ValidatedValues for the timeline array |
| Services.UploadRequestAttachmentCall | src/api/services.ts:72-75 | no contract of its own; RequestPaths: the request path plus /attachments, as an upload |
| Services.UploadRequestAttachment | src/api/services.ts:70-76 | no contract of its own; ClientFailuresPropagate and UnvalidatedResults: the client's value, unvalidated |
| Services.GetPublicIssuesCall | src/api/services.ts:85-88 | no contract of its own; AccessorRequests and BboxExample: one query pair bbox=minLng,minLat,maxLng,maxLat |
| Services.GetPublicIssues | src/api/services.ts:79-90 | no contract of its own; ClientFailuresPropagate, ValidationDecides, ValidatedValues for the public-issues array |
| Services.ClientFailuresPropagate | src/api/services.ts:22-90 | every other accessor rejects with the client's error unchanged |
| Services.ValidationDecides | src/api/services.ts:22-90 | each of the seven validating accessors resolves iff the body is defined and its schema accepts it, and otherwise rejects with a validation failure |
| Services.ValidatedValues | src/api/services.ts:22-90 | what each validating accessor resolves with is its schema's parse of the body |
| Services.UnvalidatedResults | src/api/services.ts:33-76 | logout resolves to nothing whatever the body; uploadRequestAttachment resolves to the client's value without a schema |
| Services.RequestPaths | src/api/services.ts:60-76 | getRequest(id) targets /api/v1/requests/{id}, its timeline and attachments paths extend it, and distinct ids give distinct requests |
| Services.AccessorRequests | src/api/services.ts:33-89 | logout posts without a body, createRequest posts the payload, getPublicIssues sends the single query pair bbox=minLng,minLat,maxLng,maxLat |
| Services.BboxExample | src/api/services.ts:85 | {minLat:1, minLng:2, maxLat:3, maxLng:4} is sent as "2,1,4,3" |
| Services.NotFoundScenario | src/api/services.ts:60-63 | a 404 with body {"message": "Not found"} on getRequest rejects with status 404 and message "Not found" |
| Queries.KeyOfInjective | src/hooks/useApi.ts:17-25 | two queries share a key iff they are the same query; each key starts with its resource name |
| Queries.KeyOf | src/hooks/useApi.ts:17-25 | no contract of its own; KeyOfInjective: keys are distinct per query and start with the resource name |
| Queries.UseTenantInfo | src/hooks/useApi.ts:28-35 | no contract of its own; ConfigurationTable and DisabledQueries: never stale, 3 retries, always enabled |
| Queries.UseSession | src/hooks/useApi.ts:38-45 | no contract of its own; ConfigurationTable and DisabledQueries: 5 minutes, no retry, always enabled |
| Queries.UseCategories | src/hooks/useApi.ts:66-72 | no contract of its own; ConfigurationTable and DisabledQueries: 10 minutes, default retry 1, always enabled |
| Queries.UseMyRequests | src/hooks/useApi.ts:88-94 | no contract of its own; ConfigurationTable and DisabledQueries: 1 minute, retry 1, always enabled |
| Queries.UseRequest | src/hooks/useApi.ts:97-103 | no contract of its own; ConfigurationTable and DisabledQueries: library staleTime, retry 1, enabled iff id is non-empty |
| Queries.UseRequestTimeline | src/hooks/useApi.ts:106-112 | no contract of its own; ConfigurationTable and DisabledQueries: as UseRequest |
| Queries.UsePublicIssues | src/hooks/useApi.ts:123-139 | no contract of its own; ConfigurationTable, DisabledQueries and PublicIssuesKeyMatchesWire: 2 minutes, enabled iff a bbox is given, key carrying the wire bbox string |
| Queries.ConfigurationTable | src/hooks/useApi.ts:28-138 | staleTime and retry per hook: tenantInfo never stale and 3 retries, session 5 min and no retry, categories 10 min, myRequests 1 min, publicIssues 2 min, request and timeline the library default; the rest retry once |
| Queries.DisabledQueries | src/hooks/useApi.ts:96-138 | request and timeline queries are enabled iff id is non-empty; public issues iff bbox is given, with key ['publicIssues', ''] and no request when it is null; the rest are always enabled |
| Queries.PublicIssuesKeyMatchesWire | src/hooks/useApi.ts:122-138 | the public-issues key holds the same lng,lat,lng,lat string sent as bbox, so two boxes share a key iff they send the same request |
| Queries.LogoutOverwritesSession | src/hooks/useApi.ts:53-58 | after logout the session entry holds {authenticated:false, user:null}, not invalidated, whatever it held; no other entry changes; the session schema accepts that value |
| Queries.InvalidateMyRequestsOnly | src/hooks/useApi.ts:80-83 | in a cache of app keys, invalidating the myRequests prefix marks only ['myRequests'] and keeps every entry's data |
| Queries.QueryCache.constructor | src/App.tsx:13-20 | the cache starts empty |
| Queries.QueryCache.SetQueryData | src/hooks/useApi.ts:55-58 | the entry at the key becomes the given data, not invalidated; the rest are kept |
| Queries.QueryCache.InvalidateQueries | src/hooks/useApi.ts:82 | every entry whose key starts with the prefix is marked invalidated |
| Queries.QueryCache.OnLogoutSuccess | src/hooks/useApi.ts:53-61 | the session entry is overwritten with the logged-out value; every other entry is unchanged |
| Queries.QueryCache.OnCreateRequestSuccess | src/hooks/useApi.ts:80-83 | only the ['myRequests'] entry is marked invalidated; no key is added or removed |
| Branding.HexToRgbAccepts | src/contexts/BrandingContext.tsx:26-35 | a colour parses iff it is six hex digits, optionally after one '#'; shorthand and extra characters give null |
| Branding.HashIsOptional | src/contexts/BrandingContext.tsx:27 | "abcdef" and "#abcdef" parse to the same triple |
| Branding.CaseInsensitive | src/contexts/BrandingContext.tsx:27 | lower-casing a colour does not change its parse |
| Branding.HexValue | src/contexts/BrandingContext.tsx:30-32 | a hex digit's value is below 16, so each pair's value is in 0..255 |
| Branding.RgbHexRoundTrip | src/contexts/BrandingContext.tsx:26-35 | formatting any triple as #rrggbb (or without the #) and parsing it gives the triple back |
| Branding.HexToRgb | src/contexts/BrandingContext.tsx:26-35 | no contract of its own; HexToRgbAccepts, HashIsOptional, CaseInsensitive and RgbHexRoundTrip state what it accepts and that it inverts #rrggbb formatting |
| Branding.GenerateColorShades | src/contexts/BrandingContext.tsx:38-57 | no contract of its own; ShadeKeysAndBase, ShadeBounds, ShadesNonIncreasing and PaletteExample state its keys, bounds, order and a worked case |
| Branding.ShadeKeysAndBase | src/contexts/BrandingContext.tsx:39-54 | an unparseable colour gives the empty map; a valid one gives exactly keys 50..900 with 500 holding the input unchanged |
| Branding.Shift | src/contexts/BrandingContext.tsx:44-53 | a lighter step never lowers a channel and a darker step never raises it, within 0..255 |
| Branding.ShadeBounds | src/contexts/BrandingContext.tsx:44-53 | lighter shades lie in [c, 255] and darker ones in [0, c], per channel |
| Branding.ShiftMonotone | src/contexts/BrandingContext.tsx:44-53 | a larger offset never gives a smaller clamped channel |
| Branding.ShadesNonIncreasing | src/contexts/BrandingContext.tsx:44-53 | every channel is non-increasing from step 50 to step 900, and step 500 is the input colour |
| Branding.ExampleColour | src/contexts/BrandingContext.tsx:26-35 | #3366cc parses to (51, 102, 204) |
| Branding.PaletteExample | src/contexts/BrandingContext.tsx:43-54 | the palette of #3366cc has step 50 "rgb(251, 255, 255)" (clamped at 255), step 500 "#3366cc" and step 900 "rgb(0, 2, 104)" (clamped at 0) |

## Left out

- `fetch`, `Response.json()`, `FormData` and the network: the reply is a parameter. The body is given already parsed, or as "not JSON".
- URL resolution, `url.toString()` and percent-encoding: a URL is kept as base, path and query pairs. `window.location.origin` is a parameter.
- JavaScript's number-to-string conversion is the parameter `numberText`, used for query parameters and the bbox string.
- zod's e-mail regular expression is the parameter `isEmail` of the session schema.
- zod's list of issues: a refusal is the single value `Invalid`.
- String lengths: zod counts UTF-16 code units, the model counts Unicode characters. They differ only for characters outside the Basic Multilingual Plane.
- `JSON.stringify` of a request body: the body is kept as the JSON value.
- Client.ApiError: `message` is kept as the JSON value handed to `Error`. Its `String()` conversion, the error's name and its stack are not modelled.
- FetchOptions: only `params` and `headers` are modelled. The other RequestInit fields a caller could spread in (a body on GET or DELETE, a signal) are left out. Header names are compared exactly, not case-insensitively.
- `Object.entries` moves integer-like keys first. The model takes the entries in the order given.
- react-query internals: deduplication, background refetch, retry scheduling, timers, staleness decisions, subscribers, and the refetch of active queries after invalidation. Cache entries hold JSON data.
- The redirect to `/` after logout, and `console.warn` in getCategories.
- useUploadAttachment only wraps uploadRequestAttachment, and has no cache effect of its own.
- The BrandingProvider effect (CSS variables, `document.title`) and the order in which it walks the shades. Shade keys are numbers, not the record's string keys.
- src/config.ts is not part of this model: the base URL is a constructor argument.
- src/App.tsx other than its default `retry: 1`, and all pages and components.
