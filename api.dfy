/** The axios transport every page uses: the request interceptor that adds
    the bearer header, the response interceptor that ends the session on a
    401, and the table of admin endpoints. */
module Api {

  import opened Optional
  import opened Json
  import Storage

  // ---------------------------------------------------------------------
  // Interceptors
  // ---------------------------------------------------------------------

  /** Headers the axios instance sends with every request. */
  const DefaultHeaders: map<string, string> := map["Content-Type" := "application/json"]

  /** What the request interceptor does to the headers: add
      `Authorization: Bearer <token>` when a non-empty token is stored,
      leave them as they are otherwise. */
  function WithBearer(headers: map<string, string>, token: Option<string>): map<string, string> {
    if token.Some? && token.value != "" then headers["Authorization" := "Bearer " + token.value]
    else headers
  }

  /** On the default headers the bearer header is present exactly when a
      non-empty token is stored, carries that token, and the content type
      is always JSON. */
  lemma BearerIffTokenStored(token: Option<string>)
    ensures var h := WithBearer(DefaultHeaders, token);
      && ("Authorization" in h <==> token.Some? && token.value != "")
      && ("Authorization" in h ==> h["Authorization"] == "Bearer " + token.value)
      && "Content-Type" in h && h["Content-Type"] == "application/json"
  {
  }

  /** The request configuration the interceptor receives and edits in place. */
  class RequestConfig {
    var headers: map<string, string>

    constructor ()
      ensures headers == DefaultHeaders
    {
      headers := DefaultHeaders;
    }
  }

  /** The request interceptor. */
  method AttachToken(storage: Storage.LocalStorage, config: RequestConfig)
    modifies config
    ensures config.headers == WithBearer(old(config.headers), storage.GetItem(Storage.TokenKey))
  {
    var token := storage.GetItem(Storage.TokenKey);
    if token.Some? && token.value != "" {
      config.headers := config.headers["Authorization" := "Bearer " + token.value];
    }
  }

  /** An error response the server sent. */
  datatype HttpError = HttpError(status: int, data: Json)

  /** How an axios call settles: resolved with the response body, or
      rejected with the server's response when there was one (a network
      failure or the 10 second timeout has none). */
  datatype Outcome = Resolved(data: Json) | Rejected(response: Option<HttpError>)

  predicate IsUnauthorized(o: Outcome) {
    o.Rejected? && o.response.Some? && o.response.value.status == 401
  }

  /** The response interceptor: a 401 removes both session keys; every
      outcome, successful or not, reaches the caller unchanged. */
  method InterceptResponse(storage: Storage.LocalStorage, outcome: Outcome) returns (passed: Outcome)
    modifies storage
    ensures passed == outcome
    ensures storage.items ==
      if IsUnauthorized(outcome) then Storage.ClearSession(old(storage.items)) else old(storage.items)
  {
    if IsUnauthorized(outcome) {
      storage.RemoveItem(Storage.TokenKey);
      storage.RemoveItem(Storage.AuthFlagKey);
    }
    passed := outcome;
  }

  // ---------------------------------------------------------------------
  // Endpoint table
  // ---------------------------------------------------------------------

  datatype Entity =
    | Users | Posts | Communities | Events | Locations
    | Advertising | Reports | Verification | Business

  /** The path segment that names an entity. */
  function Segment(e: Entity): string {
    match e
    case Users => "users"
    case Posts => "posts"
    case Communities => "communities"
    case Events => "events"
    case Locations => "locations"
    case Advertising => "advertising"
    case Reports => "reports"
    case Verification => "verification"
    case Business => "business"
  }

  datatype Metric = Stats | UserGrowth | PostEngagement | TopCommunities | RecentActivity

  function MetricSegment(m: Metric): string {
    match m
    case Stats => "stats"
    case UserGrowth => "user-growth"
    case PostEngagement => "post-engagement"
    case TopCommunities => "top-communities"
    case RecentActivity => "recent-activity"
  }

  datatype Verb = GET | POST | PATCH | DELETE

  /** A request as axios issues it; `Undefined` stands for no params or no
      body. */
  datatype Request = Request(verb: Verb, path: string, params: Json, body: Json)

  /** Every function of the exported API objects. */
  datatype Call =
    | Login(username: string, password: string)
    | Logout
    | DashboardStats
    | DashboardActivity
    | GetAll(entity: Entity, params: Json)
    | GetById(entity: Entity, id: Json)
    | Update(entity: Entity, id: Json, data: Json)
    | Delete(entity: Entity, id: Json)
    | Create(entity: Entity, data: Json)
    | Ban(id: Json)
    | Unban(id: Json)
    | ApprovePost(id: Json)
    | FlagPost(id: Json)
    | ResolveReport(id: Json)
    | ApproveVerification(id: Json)
    | RejectVerification(id: Json)
    | VerifyBusiness(id: Json)
    | Analytics(metric: Metric, timeRange: Json)

  predicate HasGetById(e: Entity) { e != Verification }
  predicate HasUpdate(e: Entity) { e != Reports && e != Verification }
  predicate HasDelete(e: Entity) { e != Verification && e != Business }
  predicate HasCreate(e: Entity) { e == Communities || e == Events || e == Advertising }

  function Collection(e: Entity): string {
    "/admin/" + Segment(e)
  }

  /** `/admin/<entity>/<id>`, the id written out as a template literal does. */
  function ItemPath(e: Entity, id: Json): string {
    Collection(e) + "/" + JsString(id)
  }

  /** The request a call issues; `None` for a call the API objects do not
      define (say, deleting a verification request). */
  function Route(c: Call): Option<Request> {
    match c
    case Login(u, p) =>
      Some(Request(POST, "/admin/login", Undefined, Obj(map["username" := Str(u), "password" := Str(p)])))
    case Logout => Some(Request(POST, "/admin/logout", Undefined, Undefined))
    case DashboardStats => Some(Request(GET, "/admin/dashboard/stats", Undefined, Undefined))
    case DashboardActivity => Some(Request(GET, "/admin/dashboard/activity", Undefined, Undefined))
    case GetAll(e, params) => Some(Request(GET, Collection(e), params, Undefined))
    case GetById(e, id) =>
      if HasGetById(e) then Some(Request(GET, ItemPath(e, id), Undefined, Undefined)) else None
    case Update(e, id, data) =>
      if HasUpdate(e) then Some(Request(PATCH, ItemPath(e, id), Undefined, data)) else None
    case Delete(e, id) =>
      if HasDelete(e) then Some(Request(DELETE, ItemPath(e, id), Undefined, Undefined)) else None
    case Create(e, data) =>
      if HasCreate(e) then Some(Request(POST, Collection(e), Undefined, data)) else None
    case Ban(id) => Some(Request(PATCH, ItemPath(Users, id) + "/ban", Undefined, Undefined))
    case Unban(id) => Some(Request(PATCH, ItemPath(Users, id) + "/unban", Undefined, Undefined))
    case ApprovePost(id) => Some(Request(PATCH, ItemPath(Posts, id) + "/approve", Undefined, Undefined))
    case FlagPost(id) => Some(Request(PATCH, ItemPath(Posts, id) + "/flag", Undefined, Undefined))
    case ResolveReport(id) => Some(Request(PATCH, ItemPath(Reports, id) + "/resolve", Undefined, Undefined))
    case ApproveVerification(id) =>
      Some(Request(PATCH, ItemPath(Verification, id) + "/approve", Undefined, Undefined))
    case RejectVerification(id) =>
      Some(Request(PATCH, ItemPath(Verification, id) + "/reject", Undefined, Undefined))
    case VerifyBusiness(id) => Some(Request(PATCH, ItemPath(Business, id) + "/verify", Undefined, Undefined))
    case Analytics(m, range) =>
      Some(Request(GET, "/admin/analytics/" + MetricSegment(m), Obj(map["range" := range]), Undefined))
  }

  /** Deleting users, posts, communities, events, locations, advertisements
      and reports is `DELETE /admin/<entity>/<id>` with no body. */
  lemma DeleteIsDeleteOnItem(e: Entity, id: Json)
    requires e in {Users, Posts, Communities, Events, Locations, Advertising, Reports}
    ensures Route(Delete(e, id)).Some?
    ensures var r := Route(Delete(e, id)).value;
      r.verb == DELETE && r.path == "/admin/" + Segment(e) + "/" + JsString(id) && r.body == Undefined
  {
  }

  /** Ban and unban are PATCH requests on `/admin/users/<id>/ban` and
      `/admin/users/<id>/unban`. */
  lemma BanUnbanArePatches(id: Json)
    ensures Route(Ban(id)) == Some(Request(PATCH, "/admin/users/" + JsString(id) + "/ban", Undefined, Undefined))
    ensures Route(Unban(id)) == Some(Request(PATCH, "/admin/users/" + JsString(id) + "/unban", Undefined, Undefined))
  {
    assert Collection(Users) + "/" == "/admin/users/";
  }

  /** The segment an entity's paths use, read back from the path. */
  function EntityOf(segment: string): Option<Entity> {
    if segment == "users" then Some(Users)
    else if segment == "posts" then Some(Posts)
    else if segment == "communities" then Some(Communities)
    else if segment == "events" then Some(Events)
    else if segment == "locations" then Some(Locations)
    else if segment == "advertising" then Some(Advertising)
    else if segment == "reports" then Some(Reports)
    else if segment == "verification" then Some(Verification)
    else if segment == "business" then Some(Business)
    else None
  }

  /** Reading the segment back gives the entity, and no segment contains a
      slash. */
  lemma SegmentRoundTrip(e: Entity)
    ensures EntityOf(Segment(e)) == Some(e)
    ensures '/' !in Segment(e)
  {
  }

  /** Splitting at the first slash recovers both halves. */
  lemma SplitAtFirstSlash(a: string, x: string, b: string, y: string)
    requires '/' !in a && '/' !in b
    requires a + "/" + x == b + "/" + y
    ensures a == b && x == y
  {
    IndexAfterHead(a, '/', x);
    IndexAfterHead(b, '/', y);
    assert a + "/" + x == a + ['/'] + x;
    assert b + "/" + y == b + ['/'] + y;
    assert a == (a + "/" + x)[..|a|];
    assert b == (b + "/" + y)[..|b|];
    assert x == (a + "/" + x)[|a| + 1..];
    assert y == (b + "/" + y)[|b| + 1..];
  }

  lemma SegmentInjective(e1: Entity, e2: Entity)
    requires Segment(e1) == Segment(e2)
    ensures e1 == e2
  {
    SegmentRoundTrip(e1);
    SegmentRoundTrip(e2);
  }

  lemma ItemPathShape(e: Entity, id: Json)
    ensures ItemPath(e, id)[7..] == Segment(e) + "/" + JsString(id)
  {
    var seg, j := Segment(e), JsString(id);
    assert ItemPath(e, id) == "/admin/" + (seg + "/" + j);
  }

  /** An item path names its entity and its id: two item paths that are
      equal are for the same entity type and for ids that read the same. */
  lemma ItemPathIdentifiesTarget(e1: Entity, id1: Json, e2: Entity, id2: Json)
    requires ItemPath(e1, id1) == ItemPath(e2, id2)
    ensures e1 == e2 && JsString(id1) == JsString(id2)
  {
    ItemPathShape(e1, id1);
    ItemPathShape(e2, id2);
    SegmentRoundTrip(e1);
    SegmentRoundTrip(e2);
    SplitAtFirstSlash(Segment(e1), JsString(id1), Segment(e2), JsString(id2));
    SegmentInjective(e1, e2);
  }
}
