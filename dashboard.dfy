/** The dashboard: eight counters filled by a fetch and refreshed by
    `stats:updated` pushes, and a recent-activity list. The push handler is
    registered once, on mount, and reads the counters through the closure
    it was created in. */
module Dashboard {

  import opened Optional
  import opened Json
  import Api

  /** The counters, in the order the page declares them. */
  const StatKeys: seq<string> := ["totalUsers", "totalPosts", "totalCommunities", "totalEvents",
                                  "totalLocations", "totalViews", "totalLikes", "growthRate"]

  /** A counters record: an object with exactly the eight keys. */
  predicate IsStats(s: Json) {
    s.Obj? && s.fields.Keys == set k | k in StatKeys
  }

  /** Each counter from `incoming` when truthy, else from `fallback`
      (`incoming.k || fallback.k`). */
  function Merge(incoming: Json, fallback: Json): (s: Json)
    ensures IsStats(s)
    ensures forall k | k in StatKeys ::
      Get(s, k) == (if Truthy(Get(incoming, k)) then Get(incoming, k) else Get(fallback, k))
  {
    Obj(map k | k in StatKeys :: Or(Get(incoming, k), Get(fallback, k)))
  }

  /** The initial counters: all zero. */
  function Zeroes(): (s: Json)
    ensures IsStats(s) && forall k | k in StatKeys :: Get(s, k) == Num(0)
  {
    Obj(map k | k in StatKeys :: Num(0))
  }

  /** The counters a fetched body sets: each field if truthy, else 0. */
  function Defaulted(data: Json): (s: Json)
    ensures IsStats(s)
    ensures forall k | k in StatKeys :: Get(s, k) == (if Truthy(Get(data, k)) then Get(data, k) else Num(0))
  {
    Merge(data, Zeroes())
  }

  /** The intended push merge: each counter from the push when truthy,
      otherwise the counter currently shown. */
  function MergeStats(current: Json, push: Json): (s: Json)
    ensures IsStats(s)
  {
    Merge(push, current)
  }

  /** A push leaves every counter it does not carry (or carries as 0) as
      it is shown, and a push with no counters changes nothing. */
  lemma MergeStatsKeepsUnsent(current: Json, push: Json)
    requires IsStats(current)
    ensures forall k | k in StatKeys && !Truthy(Get(push, k)) :: Get(MergeStats(current, push), k) == Get(current, k)
    ensures forall k | k in StatKeys && Truthy(Get(push, k)) :: Get(MergeStats(current, push), k) == Get(push, k)
    ensures (forall k | k in StatKeys :: !Truthy(Get(push, k))) ==> MergeStats(current, push) == current
  {
    if forall k | k in StatKeys :: !Truthy(Get(push, k)) {
      var merged := MergeStats(current, push);
      assert merged.fields.Keys == current.fields.Keys;
      forall k | k in merged.fields
        ensures merged.fields[k] == current.fields[k]
      {
        assert Get(merged, k) == Get(current, k);
      }
    }
  }

  class DashboardPage {
    var stats: Json
    var activity: seq<Json>
    var loading: bool
    var activityLoading: bool
    /** The counters as the mount-time render saw them: the closure the
        push handler reads them from. */
    const captured: Json

    constructor ()
      ensures stats == Zeroes() && captured == Zeroes()
      ensures activity == [] && loading && activityLoading
    {
      stats := Zeroes();
      captured := Zeroes();
      activity := [];
      loading := true;
      activityLoading := true;
    }

    /** The stats fetch: a truthy body sets every counter (defaulting to
        0); anything else leaves them. */
    method FetchStats(outcome: Api.Outcome) returns (request: Api.Request, toast: bool)
      modifies this
      ensures Some(request) == Api.Route(Api.DashboardStats)
      ensures stats == if outcome.Resolved? && Truthy(outcome.data) then Defaulted(outcome.data) else old(stats)
      ensures !loading && activity == old(activity) && activityLoading == old(activityLoading)
      ensures toast <==> outcome.Rejected? && outcome.response.Some?
    {
      loading := true;
      request := Api.Route(Api.DashboardStats).value;
      if outcome.Resolved? && Truthy(outcome.data) {
        stats := Defaulted(outcome.data);
      }
      toast := outcome.Rejected? && outcome.response.Some?;
      loading := false;
    }

    /** The activity fetch: only an array body replaces the list. */
    method FetchActivity(outcome: Api.Outcome) returns (request: Api.Request, toast: bool)
      modifies this
      ensures Some(request) == Api.Route(Api.DashboardActivity)
      ensures activity == if outcome.Resolved? && outcome.data.Arr? then outcome.data.items else old(activity)
      ensures !activityLoading && stats == old(stats) && loading == old(loading)
      ensures toast <==> outcome.Rejected? && outcome.response.Some?
    {
      activityLoading := true;
      request := Api.Route(Api.DashboardActivity).value;
      if outcome.Resolved? && Truthy(outcome.data) && outcome.data.Arr? {
        activity := outcome.data.items;
      }
      toast := outcome.Rejected? && outcome.response.Some?;
      activityLoading := false;
    }

    /** `handleStatsUpdate` as written: the fallback for a counter the
        push does not carry is the mount-time counter, not the one
        shown. A push without a payload (`null` or `undefined`) throws on
        its first property read, before `setStats`, so the stats stay. */
    method OnStatsPush(push: Json)
      modifies this
      ensures stats == if push.Null? || push.Undefined? then old(stats) else Merge(push, captured)
      ensures activity == old(activity) && loading == old(loading) && activityLoading == old(activityLoading)
    {
      if !(push.Null? || push.Undefined?) {
        stats := Merge(push, captured);
      }
    }
  }

  /** The push handler as written resets to 0 every counter the push
      leaves out, whatever the fetch had set: after a fetch of 5 users, a
      push carrying only `totalPosts` shows 0 users, where the intended
      merge keeps 5. */
  lemma StalePushResetsCounters(page: DashboardPage, push: Json)
    requires page.captured == Zeroes()
    requires Get(page.stats, "totalUsers") == Num(5)
    requires push == Obj(map["totalPosts" := Num(3)])
    ensures Get(Merge(push, page.captured), "totalUsers") == Num(0)
    ensures Get(MergeStats(page.stats, push), "totalUsers") == Num(5)
  {
    assert "totalUsers" in StatKeys;
    assert Get(push, "totalUsers") == Undefined;
  }
}
