/** The reports page: three lists of reports (posts, communities, users)
    that a fetch fills by partitioning on each report's `type`, push
    handlers that touch only the list for the payload's type, and the
    approve and dismiss buttons of each tab. */
module Reports {

  import opened Optional
  import opened Json
  import Seqs
  import Api
  import Reconcile

  datatype Category = PostReports | CommunityReports | UserReports

  /** The list a `type` value files a report under; the singular and the
      plural spelling are both accepted, anything else (`comment`) none. */
  function CategoryOf(t: Json): Option<Category> {
    if t == Str("post") || t == Str("posts") then Some(PostReports)
    else if t == Str("community") || t == Str("communities") then Some(CommunityReports)
    else if t == Str("user") || t == Str("users") then Some(UserReports)
    else None
  }

  /** The tab ids the action buttons pass: only the plural spelling (a
      report's `type` is also accepted in the singular, but no button
      passes a singular tab id). */
  function TabCategory(tab: string): Option<Category> {
    if tab == "posts" then Some(PostReports)
    else if tab == "communities" then Some(CommunityReports)
    else if tab == "users" then Some(UserReports)
    else None
  }

  function TypeOf(r: Json): Option<Category> {
    CategoryOf(Get(r, "type"))
  }

  /** The reports filed under one category, in their order. */
  function Partition(reports: seq<Json>, c: Category): seq<Json> {
    Seqs.Filter(reports, r => TypeOf(r) == Some(c))
  }

  /** Each report lands in at most one list and only under its own type;
      each list keeps the fetched order. */
  lemma PartitionSpec(reports: seq<Json>, c: Category)
    ensures forall r :: r in Partition(reports, c) <==> r in reports && TypeOf(r) == Some(c)
    ensures Seqs.IsSubseq(Partition(reports, c), reports)
  {
    var keep := r => TypeOf(r) == Some(c);
    forall r
      ensures r in Seqs.Filter(reports, keep) <==> r in reports && TypeOf(r) == Some(c)
    {
      Seqs.FilterMembership(reports, keep, r);
    }
    Seqs.FilterIsSubseq(reports, keep);
  }

  /** The lists are disjoint, and a report of another type is in none. */
  lemma PartitionDisjoint(reports: seq<Json>, r: Json)
    ensures r in Partition(reports, PostReports) ==> r !in Partition(reports, CommunityReports) && r !in Partition(reports, UserReports)
    ensures r in Partition(reports, CommunityReports) ==> r !in Partition(reports, UserReports)
    ensures TypeOf(r) == None ==>
      r !in Partition(reports, PostReports) && r !in Partition(reports, CommunityReports) && r !in Partition(reports, UserReports)
  {
    PartitionSpec(reports, PostReports);
    PartitionSpec(reports, CommunityReports);
    PartitionSpec(reports, UserReports);
  }

  /** The three lists together hold every fetched report except those of
      another type: their lengths and the unfiled reports add up to the
      fetched total. */
  lemma {:induction false} PartitionSizes(reports: seq<Json>)
    ensures |Partition(reports, PostReports)| + |Partition(reports, CommunityReports)| + |Partition(reports, UserReports)|
          + |Seqs.Filter(reports, r => TypeOf(r) == None)| == |reports|
  {
    if reports != [] {
      PartitionSizes(reports[1..]);
    }
  }

  /** The report count a tab badge shows: the pending ones. */
  function Pending(list: seq<Json>): (n: nat)
    ensures n <= |list|
  {
    Seqs.Count(list, r => Get(r, "status") == Str("pending"))
  }

  /** The reports a fetch yields: for a truthy body, `data` when it is an
      array, else `data.reports || []`; nothing for a rejection, a falsy
      body, or a list that is not an array (where `filter` throws and the
      page catches it without a toast). */
  function FetchedReports(outcome: Api.Outcome): (r: Option<seq<Json>>)
    ensures outcome.Rejected? ==> r.None?
    ensures outcome.Resolved? && outcome.data.Arr? ==> r == Some(outcome.data.items)
    ensures outcome.Resolved? && !outcome.data.Arr? && Get(outcome.data, "reports").Arr? ==>
      r == Some(Get(outcome.data, "reports").items)
    ensures outcome.Resolved? && Truthy(outcome.data) && !outcome.data.Arr? && !Truthy(Get(outcome.data, "reports")) ==>
      r == Some([])
    ensures r.None? <==>
      || outcome.Rejected?
      || !Truthy(outcome.data)
      || (!outcome.data.Arr? && Truthy(Get(outcome.data, "reports")) && !Get(outcome.data, "reports").Arr?)
  {
    if outcome.Resolved? && Truthy(outcome.data) then Reconcile.ListOrEmpty(outcome.data, "reports") else None
  }

  class ReportsPage {
    var posts: seq<Json>
    var communities: seq<Json>
    var users: seq<Json>
    var loading: bool

    constructor ()
      ensures posts == [] && communities == [] && users == [] && loading
    {
      posts, communities, users := [], [], [];
      loading := true;
    }

    function List(c: Category): seq<Json>
      reads this
    {
      match c
      case PostReports => posts
      case CommunityReports => communities
      case UserReports => users
    }

    /** The badge on the "Pending Reports" card never exceeds the
        "Total Reports" card, which is the sum of the three lengths. */
    function PendingTotal(): (n: nat)
      reads this
      ensures n <= TotalReports()
    {
      Pending(posts) + Pending(communities) + Pending(users)
    }

    function TotalReports(): nat
      reads this
    {
      |posts| + |communities| + |users|
    }

    /** Replace one list, keep the others. */
    method SetList(c: Category, list: seq<Json>)
      modifies this
      ensures List(c) == list
      ensures forall d :: d != c ==> List(d) == old(List(d))
      ensures loading == old(loading)
    {
      match c
      case PostReports => posts := list;
      case CommunityReports => communities := list;
      case UserReports => users := list;
    }

    /** Each list becomes its partition of the fetched reports. */
    method SetAll(reports: seq<Json>)
      modifies this
      ensures forall c :: List(c) == Partition(reports, c)
      ensures loading == old(loading)
    {
      posts := Partition(reports, PostReports);
      communities := Partition(reports, CommunityReports);
      users := Partition(reports, UserReports);
      forall c
        ensures List(c) == Partition(reports, c)
      {
        match c
        case PostReports =>
        case CommunityReports =>
        case UserReports =>
      }
    }

    /** The fetch on mount: the request it issues, the lists it leaves and
        whether it shows an error toast (only for a rejection that carries
        a response). */
    method Fetch(outcome: Api.Outcome) returns (request: Api.Request, toast: bool)
      modifies this
      ensures Some(request) == Api.Route(Api.GetAll(Api.Reports, Undefined))
      ensures forall c :: (List(c) ==
        if FetchedReports(outcome).Some? then Partition(FetchedReports(outcome).value, c) else old(List(c)))
      ensures !loading
      ensures toast <==> outcome.Rejected? && outcome.response.Some?
    {
      loading := true;
      request := Api.Route(Api.GetAll(Api.Reports, Undefined)).value;
      toast := outcome.Rejected? && outcome.response.Some?;
      var reports := FetchedReports(outcome);
      if reports.Some? {
        SetAll(reports.value);
      }
      loading := false;
    }

    /** `onNew`: prepended to the list for its type, or to none. */
    method OnNew(r: Json)
      modifies this
      ensures forall c :: List(c) == if TypeOf(r) == Some(c) then [r] + old(List(c)) else old(List(c))
      ensures loading == old(loading)
    {
      var c := TypeOf(r);
      if c.Some? {
        SetList(c.value, [r] + List(c.value));
      }
    }

    /** `onResolved`: `status: 'reviewed'` on that id in the list for its
        type. */
    method OnResolved(r: Json)
      modifies this
      ensures forall c :: (List(c) ==
        if TypeOf(r) == Some(c) then Reconcile.PatchById(old(List(c)), Reconcile.IdOf(r), map["status" := Str("reviewed")])
        else old(List(c)))
      ensures loading == old(loading)
    {
      var c := TypeOf(r);
      if c.Some? {
        SetList(c.value, Reconcile.PatchById(List(c.value), Reconcile.IdOf(r), map["status" := Str("reviewed")]));
      }
    }

    /** `onDeleted`: removes `data.reportId || data.id` from the list for
        `data.type`. */
    method OnDeleted(data: Json)
      modifies this
      ensures forall c :: (List(c) ==
        if TypeOf(data) == Some(c) then Reconcile.RemoveById(old(List(c)), Reconcile.DeletedId(data, "reportId"))
        else old(List(c)))
      ensures loading == old(loading)
    {
      var c := TypeOf(data);
      if c.Some? {
        SetList(c.value, Reconcile.RemoveById(List(c.value), Reconcile.DeletedId(data, "reportId")));
      }
    }

    /** The approve button of a tab: once the resolve call succeeds, the
        report is marked reviewed, with action `removed` for posts and
        communities and `suspended` for users. */
    method Approve(id: Json, tab: string, outcome: Api.Outcome) returns (request: Api.Request)
      modifies this
      ensures Some(request) == Api.Route(Api.ResolveReport(id))
      ensures forall c :: (List(c) ==
        if outcome.Resolved? && TabCategory(tab) == Some(c)
        then Reconcile.PatchById(old(List(c)), id, ApprovalPatch(c))
        else old(List(c)))
      ensures loading == old(loading)
    {
      request := Api.Route(Api.ResolveReport(id)).value;
      var c := TabCategory(tab);
      if outcome.Resolved? && c.Some? {
        SetList(c.value, Reconcile.PatchById(List(c.value), id, ApprovalPatch(c.value)));
      }
    }

    /** The dismiss button of a tab: deletes the report and, once that
        succeeds, drops it from the tab's list. */
    method Dismiss(id: Json, tab: string, outcome: Api.Outcome) returns (request: Api.Request)
      modifies this
      ensures Some(request) == Api.Route(Api.Delete(Api.Reports, id))
      ensures forall c :: (List(c) ==
        if outcome.Resolved? && TabCategory(tab) == Some(c) then Reconcile.RemoveById(old(List(c)), id)
        else old(List(c)))
      ensures loading == old(loading)
    {
      request := Api.Route(Api.Delete(Api.Reports, id)).value;
      var c := TabCategory(tab);
      if outcome.Resolved? && c.Some? {
        SetList(c.value, Reconcile.RemoveById(List(c.value), id));
      }
    }
  }

  /** The fields an approval writes. */
  function ApprovalPatch(c: Category): (p: map<string, Json>)
    ensures "status" in p && p["status"] == Str("reviewed") && "id" !in p
    ensures "action" in p && p["action"] == Str(if c == UserReports then "suspended" else "removed")
  {
    map["status" := Str("reviewed"), "action" := Str(if c == UserReports then "suspended" else "removed")]
  }
}
