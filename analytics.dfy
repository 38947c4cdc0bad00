/** The analytics page: four stat cards, the top-communities and
    recent-activity lists, all loaded by one `Promise.all` of three calls
    for the selected time range, and refreshed by `analytics:updated`
    pushes. */
module Analytics {

  import opened Optional
  import opened Json
  import Api
  import Reconcile

  /** A stat card: its title, its value and its change figure. */
  datatype Card = Card(title: string, value: Json, change: Json)

  /** The labels, the response key of each value and of each change, in
      the order of the cards. */
  const Labels: seq<string> := ["Total Users", "Total Posts", "Total Views", "Total Likes"]
  const ValueKeys: seq<string> := ["totalUsers", "totalPosts", "totalViews", "totalLikes"]
  const ChangeKeys: seq<string> := ["userChange", "postChange", "viewChange", "likeChange"]

  /** Four cards in the fixed order. */
  predicate WellFormed(cards: seq<Card>) {
    |cards| == 4 && forall i :: 0 <= i < 4 ==> cards[i].title == Labels[i]
  }

  function InitialCards(): (cards: seq<Card>)
    ensures WellFormed(cards)
    ensures forall i :: 0 <= i < 4 ==> cards[i].value == Num(0) && cards[i].change == Num(0)
  {
    seq(4, i requires 0 <= i < 4 => Card(Labels[i], Num(0), Num(0)))
  }

  /** Each card's value and change from `data` when truthy, else from the
      card in `fallback`. */
  function Cards(data: Json, fallback: seq<Card>): (cards: seq<Card>)
    requires |fallback| == 4
    ensures WellFormed(cards)
    ensures forall i :: 0 <= i < 4 ==>
      cards[i].value == (if Truthy(Get(data, ValueKeys[i])) then Get(data, ValueKeys[i]) else fallback[i].value) &&
      cards[i].change == (if Truthy(Get(data, ChangeKeys[i])) then Get(data, ChangeKeys[i]) else fallback[i].change)
  {
    seq(4, i requires 0 <= i < 4 =>
      Card(Labels[i], Or(Get(data, ValueKeys[i]), fallback[i].value), Or(Get(data, ChangeKeys[i]), fallback[i].change)))
  }

  /** The cards a fetched body sets: each figure, or 0. */
  function FetchedCards(data: Json): (cards: seq<Card>)
    ensures WellFormed(cards)
    ensures forall i :: 0 <= i < 4 ==> Truthy(Get(data, ValueKeys[i])) || cards[i].value == Num(0)
    ensures forall i :: 0 <= i < 4 ==>
      cards[i].value == Or(Get(data, ValueKeys[i]), Num(0)) && cards[i].change == Or(Get(data, ChangeKeys[i]), Num(0))
  {
    Cards(data, InitialCards())
  }

  /** `data` if it is an array, else `data.<key> || []`: the list the
      page stores, which is the body's property itself when that is a
      truthy non-array. */
  function ListOrFallback(data: Json, key: string): (v: Json)
    ensures Truthy(v)
    ensures data.Arr? ==> v == data
    ensures !data.Arr? && Truthy(Get(data, key)) ==> v == Get(data, key)
    ensures !data.Arr? && !Truthy(Get(data, key)) ==> v == Arr([])
  {
    if data.Arr? then data else Or(Get(data, key), Arr([]))
  }

  /** The stored value is an array exactly when the Reports-style
      normalisation yields a list, and then it is that list. */
  lemma ListOrFallbackAgrees(data: Json, key: string)
    ensures ListOrFallback(data, key).Arr? <==> Reconcile.ListOrEmpty(data, key).Some?
    ensures ListOrFallback(data, key).Arr? ==> Reconcile.ListOrEmpty(data, key).value == ListOrFallback(data, key).items
  {
  }

  /** The outcome of the `Promise.all`: the three bodies, or the first
      rejection. */
  datatype Batch =
    | AllResolved(stats: Json, communities: Json, activity: Json)
    | Rejected(response: Option<Api.HttpError>)

  class AnalyticsPage {
    var timeRange: string
    var loading: bool
    var cards: seq<Card>
    var topCommunities: Json
    var recentActivity: Json
    /** The cards as the render that last ran the effect saw them: the
        closure the push handler reads them from. */
    var captured: seq<Card>

    predicate Valid()
      reads this
    {
      WellFormed(cards) && WellFormed(captured)
    }

    constructor ()
      ensures Valid()
      ensures timeRange == "7d" && loading && cards == InitialCards() && captured == InitialCards()
      ensures topCommunities == Arr([]) && recentActivity == Arr([])
    {
      timeRange := "7d";
      loading := true;
      cards := InitialCards();
      captured := InitialCards();
      topCommunities := Arr([]);
      recentActivity := Arr([]);
    }

    /** The three requests the fetch issues for the selected range. */
    function Requests(): (rs: seq<Api.Request>)
      reads this
      ensures |rs| == 3
      ensures forall r :: r in rs ==> r.verb == Api.GET && Get(r.params, "range") == Str(timeRange)
    {
      [Api.Route(Api.Analytics(Api.Stats, Str(timeRange))).value,
       Api.Route(Api.Analytics(Api.TopCommunities, Str(timeRange))).value,
       Api.Route(Api.Analytics(Api.RecentActivity, Str(timeRange))).value]
    }

    /** `fetchAnalytics`: each truthy body sets its part; a rejection of
        any of the three sets nothing. */
    method Fetch(batch: Batch) returns (toast: bool)
      requires Valid()
      modifies this
      ensures Valid()
      ensures cards == if batch.AllResolved? && Truthy(batch.stats) then FetchedCards(batch.stats) else old(cards)
      ensures topCommunities ==
        if batch.AllResolved? && Truthy(batch.communities) then ListOrFallback(batch.communities, "communities")
        else old(topCommunities)
      ensures recentActivity ==
        if batch.AllResolved? && Truthy(batch.activity) then ListOrFallback(batch.activity, "activity")
        else old(recentActivity)
      ensures !loading && timeRange == old(timeRange) && captured == old(captured)
      ensures toast <==> batch.Rejected? && batch.response.Some?
    {
      loading := true;
      toast := false;
      if batch.AllResolved? {
        if Truthy(batch.stats) {
          cards := FetchedCards(batch.stats);
        }
        if Truthy(batch.communities) {
          topCommunities := ListOrFallback(batch.communities, "communities");
        }
        if Truthy(batch.activity) {
          recentActivity := ListOrFallback(batch.activity, "activity");
        }
      } else {
        toast := batch.response.Some?;
      }
      loading := false;
    }

    /** Choosing another range sets `loading` and re-runs the effect: the
        handler is re-registered with the cards of this render. The radio
        group reports no change when the selected range is chosen again. */
    method SelectRange(range: string)
      requires Valid()
      modifies this
      ensures Valid()
      ensures timeRange == range
      ensures captured == if range != old(timeRange) then old(cards) else old(captured)
      ensures loading == (range != old(timeRange) || old(loading))
      ensures cards == old(cards)
      ensures topCommunities == old(topCommunities) && recentActivity == old(recentActivity)
    {
      if range != timeRange {
        captured := cards;
        loading := true;
      }
      timeRange := range;
    }

    /** `handleAnalyticsUpdate`: a push without a truthy `stats` changes
        nothing; otherwise each figure comes from the push when truthy,
        else from the captured cards. */
    method OnAnalyticsPush(update: Json)
      requires Valid()
      modifies this
      ensures Valid()
      ensures cards == if Truthy(Get(update, "stats")) then Cards(Get(update, "stats"), captured) else old(cards)
      ensures captured == old(captured) && timeRange == old(timeRange) && loading == old(loading)
      ensures topCommunities == old(topCommunities) && recentActivity == old(recentActivity)
    {
      var data := Get(update, "stats");
      if Truthy(data) {
        cards := Cards(data, captured);
      }
    }
  }

  /** A push whose stats carry every figure sets the cards to them,
      whatever was captured. */
  lemma FullPushIgnoresCapture(data: Json, a: seq<Card>, b: seq<Card>)
    requires |a| == 4 && |b| == 4
    requires forall i :: 0 <= i < 4 ==> Truthy(Get(data, ValueKeys[i])) && Truthy(Get(data, ChangeKeys[i]))
    ensures Cards(data, a) == Cards(data, b)
  {
  }
}
