/** The `fetch`-based admin service: the envelope every call resolves to,
    the headers it sends, the session it ends on a 401, and the admin
    endpoints with their query strings. */
module ApiService {

  import opened Optional
  import opened Json
  import Storage
  import Api
  import Query
  import Seqs

  // ---------------------------------------------------------------------
  // Envelope
  // ---------------------------------------------------------------------

  /** What a `catch` receives: an `Error` with its message, or some other
      thrown value. */
  datatype Thrown = ErrorInstance(message: string) | NonError

  /** The result of `response.json()`: a parsed value, or the exception it
      threw on a body that is not JSON. */
  datatype Body = Parsed(json: Json) | Unparsable(error: Thrown)

  /** How `fetch` settled: rejected (network failure), or a response with
      its status and body. */
  datatype FetchOutcome = NetworkFailure(error: Thrown) | HttpResponse(status: int, body: Body)

  /** `ApiResponse<T>`; an absent optional field is `Undefined`. */
  datatype ApiResponse = ApiResponse(data: Json, success: bool, message: Json, error: Json, pagination: Json)

  /** `response.ok`. */
  predicate IsOk(status: int) {
    200 <= status <= 299
  }

  /** The `catch` branch. */
  function Caught(e: Thrown): (r: ApiResponse)
    ensures r.data == Null && !r.success && r.error.Str?
  {
    ApiResponse(Null, false, Undefined, match e case ErrorInstance(m) => Str(m) case NonError => Str("Network error"), Undefined)
  }

  /** The TypeError a property read on `null` or `undefined` raises,
      worded as V8 words it. */
  function NullRead(v: Json, key: string): Thrown {
    ErrorInstance("Cannot read properties of " + (if v.Null? then "null" else "undefined") + " (reading '" + key + "')")
  }

  /** The envelope `fetch<T>` resolves to for a given transport outcome. */
  function Envelope(o: FetchOutcome): (r: ApiResponse)
    ensures o.HttpResponse? && o.status == 401 ==>
      r == ApiResponse(Null, false, Undefined, Str("Unauthorized"), Undefined)
    ensures o.NetworkFailure? ==> r == Caught(o.error)
  {
    match o
    case NetworkFailure(e) => Caught(e)
    case HttpResponse(status, body) =>
      if status == 401 then ApiResponse(Null, false, Undefined, Str("Unauthorized"), Undefined)
      else
        match body
        case Unparsable(e) => Caught(e)
        case Parsed(d) =>
          if !IsOk(status) then
            if d.Null? || d.Undefined? then Caught(NullRead(d, "error"))
            else ApiResponse(Null, false, Get(d, "message"),
                             Or(Or(Get(d, "error"), Get(d, "message")), Str("Request failed")), Undefined)
          else
            if d.Null? || d.Undefined? then Caught(NullRead(d, "data"))
            else ApiResponse(Or(Get(d, "data"), d), Get(d, "success") != Bool(false),
                             Get(d, "message"), Undefined, Get(d, "pagination"))
  }

  /** A 2xx response whose body parsed to a value with properties. */
  predicate Delivered(o: FetchOutcome) {
    o.HttpResponse? && o.status != 401 && IsOk(o.status) && o.body.Parsed?
    && !o.body.json.Null? && !o.body.json.Undefined?
  }

  /** Every envelope either carries data and no error (a delivered 2xx
      response), or carries `data: null`, `success: false` and an error;
      and `success` holds exactly when a delivered body does not say
      `success: false`. */
  lemma EnvelopeShape(o: FetchOutcome)
    ensures var r := Envelope(o);
      && (Delivered(o) <==> r.data != Null)
      && (Delivered(o) <==> r.error == Undefined)
      && (!Delivered(o) ==> !r.success && r.pagination == Undefined)
      && (r.success <==> Delivered(o) && Get(o.body.json, "success") != Bool(false))
  {
    if Delivered(o) {
      var d := o.body.json;
      assert Truthy(Get(d, "data")) ==> Get(d, "data") != Null;
    } else if o.HttpResponse? && o.status != 401 && o.body.Parsed? && !IsOk(o.status) {
      var d := o.body.json;
      assert Truthy(Str("Request failed"));
    }
  }

  /** A failed non-401 response reports the body's `error`, else its
      `message`, else `Request failed`. */
  lemma ServerErrorMessage(status: int, d: Json)
    requires status != 401 && !IsOk(status) && d.Obj?
    ensures var r := Envelope(HttpResponse(status, Parsed(d)));
      && r.data == Null && !r.success
      && r.error == (if Truthy(Get(d, "error")) then Get(d, "error")
                     else if Truthy(Get(d, "message")) then Get(d, "message")
                     else Str("Request failed"))
      && r.message == Get(d, "message")
  {
  }

  /** A delivered body's `data` when that is truthy, the whole body
      otherwise: a bare array or an envelope without `data` is passed on
      as it came. */
  lemma DeliveredData(status: int, d: Json)
    requires IsOk(status) && (d.Obj? || d.Arr?)
    ensures var r := Envelope(HttpResponse(status, Parsed(d)));
      && r.data == (if Truthy(Get(d, "data")) then Get(d, "data") else d)
      && (d.Arr? ==> r.data == d && r.success)
  {
  }

  // ---------------------------------------------------------------------
  // The client
  // ---------------------------------------------------------------------

  datatype Method = GET | POST | PUT | DELETE

  /** The `RequestInit` a service method passes; `Undefined` is no body.
      The body is the value handed to `JSON.stringify`. */
  datatype RequestInit = RequestInit(verb: Method, body: Json, headers: map<string, string>)

  /** `{ 'Content-Type': ..., ...(token && { Authorization }), ...options.headers }`:
      later entries win. */
  function Headers(token: Option<string>, extra: map<string, string>): map<string, string> {
    Api.WithBearer(Api.DefaultHeaders, token) + extra
  }

  /** Without caller headers, the bearer header is present exactly when a
      non-empty token is stored; caller headers override both defaults. */
  lemma HeadersBearerIffToken(token: Option<string>, extra: map<string, string>)
    ensures "Authorization" !in extra ==>
      ("Authorization" in Headers(token, extra) <==> token.Some? && token.value != "")
    ensures "Content-Type" !in extra ==> Headers(token, extra)["Content-Type"] == "application/json"
    ensures forall k :: k in extra ==> Headers(token, extra)[k] == extra[k]
  {
    Api.BearerIffTokenStored(token);
  }

  /** What went over the wire. */
  datatype Sent = Sent(url: string, init: RequestInit)

  class Client {
    /** `VITE_API_BASE_URL || '/api'`. */
    const baseUrl: string

    constructor (configured: Option<string>)
      ensures baseUrl == if configured.Some? && configured.value != "" then configured.value else "/api"
    {
      baseUrl := if configured.Some? && configured.value != "" then configured.value else "/api";
    }

    /** The private `fetch<T>`: reads the token, sends the request, ends the
        session on a 401, and maps the outcome to an envelope. The
        transport outcome is a parameter. */
    method Fetch(storage: Storage.LocalStorage, endpoint: string, init: RequestInit, outcome: FetchOutcome)
      returns (sent: Sent, r: ApiResponse)
      modifies storage
      ensures sent.url == baseUrl + endpoint
      ensures sent.init == init.(headers := Headers(old(storage.GetItem(Storage.TokenKey)), init.headers))
      ensures r == Envelope(outcome)
      ensures storage.items ==
        if outcome.HttpResponse? && outcome.status == 401 then Storage.ClearSession(old(storage.items))
        else old(storage.items)
    {
      var token := storage.GetItem(Storage.TokenKey);
      sent := Sent(baseUrl + endpoint, init.(headers := Headers(token, init.headers)));
      if outcome.HttpResponse? && outcome.status == 401 {
        storage.RemoveItem(Storage.TokenKey);
        storage.RemoveItem(Storage.AuthFlagKey);
      }
      r := Envelope(outcome);
    }
  }

  // ---------------------------------------------------------------------
  // Endpoints
  // ---------------------------------------------------------------------

  /** The listing endpoints that take filters. */
  datatype Listing = UserList | PostList | CommentList | CommunityList | ReportList | ActivityLog | EventList | StatsView

  function ListingPath(l: Listing): string {
    match l
    case UserList => "/admin/users"
    case PostList => "/admin/posts"
    case CommentList => "/admin/comments"
    case CommunityList => "/admin/communities"
    case ReportList => "/admin/reports"
    case ActivityLog => "/admin/activity-log"
    case EventList => "/admin/events"
    case StatsView => "/admin/stats"
  }

  /** The filter keys each builder tests, in the order it appends them. */
  function FilterKeys(l: Listing): seq<string> {
    match l
    case UserList => ["page", "limit", "search", "role", "status"]
    case PostList => ["page", "limit", "search", "status", "userId"]
    case CommentList => ["page", "limit", "postId", "userId"]
    case CommunityList => ["page", "limit", "search", "status"]
    case ReportList => ["page", "limit", "status", "type"]
    case ActivityLog => ["page", "limit", "type", "userId"]
    case EventList => ["page", "limit", "search", "status"]
    case StatsView => ["timeRange"]
  }

  /** Every method of the service. */
  datatype AdminCall =
    | List(listing: Listing, filters: Json)
    | GetStats(timeRange: Json)
    | GetUser(userId: string)
    | BanUser(userId: string, reason: string, duration: Option<int>)
    | UnbanUser(userId: string)
    | SuspendUser(userId: string, reason: string, days: int)
    | VerifyUser(userId: string)
    | UnverifyUser(userId: string)
    | DeleteUser(userId: string)
    | GetPost(postId: string)
    | DeletePost(postId: string, reason: string)
    | HidePost(postId: string, reason: string)
    | RestorePost(postId: string)
    | DeleteComment(commentId: string, reason: string)
    | DeleteCommunity(communityId: string, reason: string)
    | SuspendCommunity(communityId: string, reason: string, days: int)
    | ResolveReport(reportId: string, action: string, reason: string)
    | GetSettings
    | UpdateSettings(settings: Json)
    | DeleteEvent(eventId: string, reason: string)

  function Reason(reason: string): Json {
    Obj(map["reason" := Str(reason)])
  }

  /** `JSON.stringify({ reason, duration })` drops an undefined duration. */
  function ReasonFor(reason: string, duration: Option<int>): Json {
    if duration.Some? then Obj(map["reason" := Str(reason), "duration" := Num(duration.value)])
    else Reason(reason)
  }

  function Plain(m: Method): RequestInit {
    RequestInit(m, Undefined, map[])
  }

  function WithBody(m: Method, body: Json): RequestInit {
    RequestInit(m, body, map[])
  }

  /** The endpoint and `RequestInit` each service method hands to `fetch`. */
  function Endpoint(c: AdminCall): (string, RequestInit) {
    match c
    case List(l, filters) => (Query.WithQuery(ListingPath(l), Query.Params(filters, FilterKeys(l))), Plain(GET))
    case GetStats(range) =>
      var filters := Obj(map["timeRange" := range]);
      (Query.WithQuery("/admin/stats", Query.Params(filters, ["timeRange"])), Plain(GET))
    case GetUser(id) => ("/admin/users/" + id, Plain(GET))
    case BanUser(id, reason, duration) => ("/admin/users/" + id + "/ban", WithBody(POST, ReasonFor(reason, duration)))
    case UnbanUser(id) => ("/admin/users/" + id + "/unban", Plain(POST))
    case SuspendUser(id, reason, days) => ("/admin/users/" + id + "/suspend", WithBody(POST, ReasonFor(reason, Some(days))))
    case VerifyUser(id) => ("/admin/users/" + id + "/verify", Plain(POST))
    case UnverifyUser(id) => ("/admin/users/" + id + "/unverify", Plain(POST))
    case DeleteUser(id) => ("/admin/users/" + id, Plain(DELETE))
    case GetPost(id) => ("/admin/posts/" + id, Plain(GET))
    case DeletePost(id, reason) => ("/admin/posts/" + id, WithBody(DELETE, Reason(reason)))
    case HidePost(id, reason) => ("/admin/posts/" + id + "/hide", WithBody(POST, Reason(reason)))
    case RestorePost(id) => ("/admin/posts/" + id + "/restore", Plain(POST))
    case DeleteComment(id, reason) => ("/admin/comments/" + id, WithBody(DELETE, Reason(reason)))
    case DeleteCommunity(id, reason) => ("/admin/communities/" + id, WithBody(DELETE, Reason(reason)))
    case SuspendCommunity(id, reason, days) =>
      ("/admin/communities/" + id + "/suspend", WithBody(POST, ReasonFor(reason, Some(days))))
    case ResolveReport(id, action, reason) =>
      ("/admin/reports/" + id + "/resolve", WithBody(POST, Obj(map["action" := Str(action), "reason" := Str(reason)])))
    case GetSettings => ("/admin/settings", Plain(GET))
    case UpdateSettings(settings) => ("/admin/settings", WithBody(PUT, settings))
    case DeleteEvent(id, reason) => ("/admin/events/" + id, WithBody(DELETE, Reason(reason)))
  }

  /** A listing's path has a query string exactly when some filter is
      truthy, and the parameter names are those filters in the builder's
      fixed order. */
  lemma ListingQuery(l: Listing, filters: Json)
    ensures Endpoint(List(l, filters)).1 == Plain(GET)
    ensures '?' in Endpoint(List(l, filters)).0 <==> exists k :: k in FilterKeys(l) && Query.Present(filters, k)
    ensures Seqs.Map(Query.Params(filters, FilterKeys(l)), (p: (string, string)) => p.0)
         == Seqs.Filter(FilterKeys(l), k => Query.Present(filters, k))
  {
    var keys := FilterKeys(l);
    var params := Query.Params(filters, keys);
    assert '?' !in ListingPath(l);
    Query.QuestionMarkIffParams(ListingPath(l), params);
    Query.ParamsEmptyIff(filters, keys);
    Query.ParamNamesAreTruthyKeys(filters, keys);
  }

  /** User filters `{page: 0, limit: 20}` append only the limit. */
  lemma ZeroPageParams()
    ensures Query.Params(Obj(map["page" := Num(0), "limit" := Num(20)]), FilterKeys(UserList)) == [("limit", "20")]
  {
    var filters := Obj(map["page" := Num(0), "limit" := Num(20)]);
    var keys := FilterKeys(UserList);
    assert keys == ["page", "limit", "search", "role", "status"];
    assert JsString(Num(20)) == "20";
    Query.ParamsSingle(filters, keys, 1);
  }

  /** `page: 0` is dropped: user filters `{page: 0, limit: 20}` request
      `/admin/users?limit=20`. */
  lemma ZeroPageOmitted()
    ensures Endpoint(List(UserList, Obj(map["page" := Num(0), "limit" := Num(20)]))).0
         == "/admin/users?limit=20"
  {
    var params := [("limit", "20")];
    ZeroPageParams();
    Query.EncodeUnreserved("limit");
    Query.EncodeUnreserved("20");
    assert Query.Pair(params[0]) == "limit=20";
    assert Seqs.Map(params, Query.Pair) == ["limit=20"];
    assert Query.Serialize(params) == "limit=20";
  }

  /** `adminBanUser` posts the reason, and the duration only when one is
      given, to `/admin/users/<id>/ban`. */
  lemma BanUserRequest(userId: string, reason: string, duration: Option<int>)
    ensures var (path, init) := Endpoint(BanUser(userId, reason, duration));
      && path == "/admin/users/" + userId + "/ban"
      && init.verb == POST
      && Get(init.body, "reason") == Str(reason)
      && (Get(init.body, "duration") != Undefined <==> duration.Some?)
      && (duration.Some? ==> Get(init.body, "duration") == Num(duration.value))
  {
  }
}
