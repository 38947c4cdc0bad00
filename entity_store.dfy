/** The five pages that hold a single list of records (posts, users,
    communities, events, locations): one store per page, instantiated
    with the page's endpoint, its searched fields and its delete-payload
    key. Every handler is one atomic step; an API call's outcome is a
    parameter. */
module EntityStore {

  import opened Optional
  import opened Json
  import Seqs
  import Api
  import Reconcile

  datatype Page = PostsPage | UsersPage | CommunitiesPage | EventsPage | LocationsPage

  function EntityOf(p: Page): Api.Entity {
    match p
    case PostsPage => Api.Posts
    case UsersPage => Api.Users
    case CommunitiesPage => Api.Communities
    case EventsPage => Api.Events
    case LocationsPage => Api.Locations
  }

  /** The property a wrapped fetch response holds the list under. */
  function Plural(p: Page): string {
    Api.Segment(EntityOf(p))
  }

  /** The fields the page's search box looks in. */
  function SearchKeys(p: Page): seq<string> {
    match p
    case PostsPage => ["author", "content", "username"]
    case UsersPage => ["username", "email"]
    case CommunitiesPage => ["name", "handle"]
    case EventsPage => ["title", "location"]
    case LocationsPage => ["name", "city", "address"]
  }

  /** Every page but Locations subscribes to push updates. */
  predicate HasPush(p: Page) {
    p != LocationsPage
  }

  /** The key an `onDeleted` payload names the record by, before `id`. */
  function DeletedKey(p: Page): string
    requires HasPush(p)
  {
    match p
    case PostsPage => "postId"
    case UsersPage => "userId"
    case CommunitiesPage => "communityId"
    case EventsPage => "eventId"
  }

  /** The list after a fetch settles: the normalised body when there is
      one, the previous list otherwise (a failed fetch included). */
  function Fetched(prev: seq<Json>, outcome: Api.Outcome, plural: string): (r: seq<Json>)
    ensures outcome.Rejected? ==> r == prev
    ensures outcome.Resolved? && outcome.data.Arr? ==> r == outcome.data.items
    ensures outcome.Resolved? && !outcome.data.Arr? && Get(outcome.data, plural).Arr? ==>
      r == Get(outcome.data, plural).items
    ensures outcome.Resolved? && !outcome.data.Arr? && !Get(outcome.data, plural).Arr? ==> r == prev
  {
    if outcome.Resolved? && Reconcile.Normalize(outcome.data, plural).Some? then
      Reconcile.Normalize(outcome.data, plural).value
    else prev
  }

  /** The first listed record with that id has status `banned`
      (`users.find(u => u.id === id)?.status === 'banned'`). */
  predicate CurrentlyBanned(list: seq<Json>, id: Json) {
    var user := Reconcile.FirstWithId(list, id);
    user.Some? && Get(user.value, "status") == Str("banned")
  }

  /** The status the ban button writes: `active` for a banned user,
      `banned` for anyone else. */
  function ToggledStatus(list: seq<Json>, id: Json): (s: string)
    ensures s == "active" <==> CurrentlyBanned(list, id)
  {
    if CurrentlyBanned(list, id) then "active" else "banned"
  }

  /** `find` on a patched list finds the patched first match. */
  lemma {:induction false} FindPatched(list: seq<Json>, id: Json, updates: map<string, Json>)
    requires "id" !in updates
    ensures Reconcile.FirstWithId(Reconcile.PatchById(list, id, updates), id) ==
      match Reconcile.FirstWithId(list, id)
      case None => None
      case Some(r) => Some(With(r, updates))
  {
    var patched := Reconcile.PatchById(list, id, updates);
    if list != [] {
      if Reconcile.IdOf(list[0]) == id {
        assert patched[0] == With(list[0], updates);
      } else {
        assert patched[0] == list[0];
        assert patched[1..] == Reconcile.PatchById(list[1..], id, updates);
        FindPatched(list[1..], id, updates);
      }
    }
  }

  /** A successful ban toggle flips the user's banned state: a banned user
      reads as not banned afterwards, and anyone else listed reads as
      banned. */
  lemma ToggleFlips(list: seq<Json>, id: Json)
    requires exists r :: r in list && Reconcile.IdOf(r) == id
    ensures var after := Reconcile.PatchById(list, id, map["status" := Str(ToggledStatus(list, id))]);
      CurrentlyBanned(after, id) <==> !CurrentlyBanned(list, id)
  {
    var updates := map["status" := Str(ToggledStatus(list, id))];
    FindPatched(list, id, updates);
  }

  class Store {
    const page: Page
    var items: seq<Json>
    var loading: bool

    /** `useState([])` and `useState(true)`. */
    constructor (page: Page)
      ensures this.page == page && items == [] && loading
    {
      this.page := page;
      items := [];
      loading := true;
    }

    /** The fetch on mount: the request it issues, and whether it shows an
        error toast (only for a rejection that carries a response). */
    method Fetch(outcome: Api.Outcome) returns (request: Api.Request, toast: bool)
      modifies this
      ensures Api.Route(Api.GetAll(EntityOf(page), Undefined)) == Some(request)
      ensures items == Fetched(old(items), outcome, Plural(page))
      ensures !loading
      ensures toast <==> outcome.Rejected? && outcome.response.Some?
    {
      loading := true;
      request := Api.Route(Api.GetAll(EntityOf(page), Undefined)).value;
      toast := false;
      if outcome.Resolved? {
        var list := Reconcile.Normalize(outcome.data, Plural(page));
        if list.Some? {
          items := list.value;
        }
      } else {
        toast := outcome.response.Some?;
      }
      loading := false;
    }

    /** `onNew`. */
    method OnNew(r: Json)
      requires HasPush(page)
      modifies this
      ensures items == Reconcile.Prepend(old(items), r) && loading == old(loading)
    {
      items := [r] + items;
    }

    /** `onUpdated`. */
    method OnUpdated(r: Json)
      requires HasPush(page)
      modifies this
      ensures items == Reconcile.ReplaceById(old(items), r) && loading == old(loading)
    {
      items := Reconcile.ReplaceById(items, r);
    }

    /** `onDeleted`. */
    method OnDeleted(data: Json)
      requires HasPush(page)
      modifies this
      ensures items == Reconcile.RemoveById(old(items), Reconcile.DeletedId(data, DeletedKey(page)))
      ensures loading == old(loading)
    {
      items := Reconcile.RemoveById(items, Reconcile.DeletedId(data, DeletedKey(page)));
    }

    /** The delete button: `DELETE /admin/<entity>/<id>`, and the record
        leaves the list only once the call resolves. */
    method Delete(id: Json, outcome: Api.Outcome) returns (request: Api.Request)
      modifies this
      ensures Api.Route(Api.Delete(EntityOf(page), id)) == Some(request)
      ensures items == if outcome.Resolved? then Reconcile.RemoveById(old(items), id) else old(items)
      ensures loading == old(loading)
    {
      request := Api.Route(Api.Delete(EntityOf(page), id)).value;
      if outcome.Resolved? {
        items := Reconcile.RemoveById(items, id);
      }
    }

    /** The posts page's approve button: `status: 'published'` on the
        post once the call resolves. */
    method Approve(id: Json, outcome: Api.Outcome) returns (request: Api.Request)
      requires page == PostsPage
      modifies this
      ensures Api.Route(Api.ApprovePost(id)) == Some(request)
      ensures items ==
        if outcome.Resolved? then Reconcile.PatchById(old(items), id, map["status" := Str("published")]) else old(items)
      ensures loading == old(loading)
    {
      request := Api.Route(Api.ApprovePost(id)).value;
      if outcome.Resolved? {
        items := Reconcile.PatchById(items, id, map["status" := Str("published")]);
      }
    }

    /** The users page's ban button: unban a banned user, ban anyone else,
        and write the new status once the call resolves. */
    method ToggleBan(id: Json, outcome: Api.Outcome) returns (request: Api.Request)
      requires page == UsersPage
      modifies this
      ensures Some(request) ==
        if CurrentlyBanned(old(items), id) then Api.Route(Api.Unban(id)) else Api.Route(Api.Ban(id))
      ensures items ==
        if outcome.Resolved? then Reconcile.PatchById(old(items), id, map["status" := Str(ToggledStatus(old(items), id))])
        else old(items)
      ensures loading == old(loading)
    {
      var user := Reconcile.FirstWithId(items, id);
      var banned := user.Some? && Get(user.value, "status") == Str("banned");
      if banned {
        request := Api.Route(Api.Unban(id)).value;
      } else {
        request := Api.Route(Api.Ban(id)).value;
      }
      if outcome.Resolved? {
        var status := Str(if banned then "active" else "banned");
        items := Reconcile.PatchById(items, id, map["status" := status]);
      }
    }

    /** The rows shown for a search term. */
    function Filtered(term: string): (r: seq<Json>)
      reads this
      ensures Seqs.IsSubseq(r, items)
      ensures forall x :: x in r <==> x in items && Reconcile.Kept(x, SearchKeys(page), term)
    {
      Reconcile.SearchSpec(items, SearchKeys(page), term);
      Reconcile.Search(items, SearchKeys(page), term)
    }
  }
}
