/** The advertising page: a local list of campaigns, a search box, the
    delete button, and the four totals and active count over the whole
    list. Amounts are whole numbers here. */
module Advertising {

  import opened Json
  import Seqs

  datatype Ad = Ad(id: int, title: string, advertiser: string, status: string,
                   budget: int, spent: int, impressions: int, clicks: int)

  datatype Totals = Totals(budget: int, spent: int, impressions: int, clicks: int)

  /** The search box: title or advertiser mentions the term. */
  predicate Matches(ad: Ad, term: string) {
    Mentions(ad.title, term) || Mentions(ad.advertiser, term)
  }

  /** `filteredAds`. */
  function Search(ads: seq<Ad>, term: string): (r: seq<Ad>)
    ensures |r| <= |ads|
  {
    Seqs.Filter(ads, (ad: Ad) => Matches(ad, term))
  }

  lemma SearchSpec(ads: seq<Ad>, term: string)
    ensures forall ad :: ad in Search(ads, term) <==> ad in ads && Matches(ad, term)
    ensures Seqs.IsSubseq(Search(ads, term), ads)
  {
    var keep := (ad: Ad) => Matches(ad, term);
    forall ad
      ensures ad in Seqs.Filter(ads, keep) <==> ad in ads && keep(ad)
    {
      Seqs.FilterMembership(ads, keep, ad);
    }
    Seqs.FilterIsSubseq(ads, keep);
  }

  /** `handleDelete`: `ads.filter(ad => ad.id !== id)`. */
  function Remove(ads: seq<Ad>, id: int): (r: seq<Ad>)
    ensures |r| <= |ads|
    ensures forall ad :: ad in r ==> ad in ads && ad.id != id
  {
    Seqs.Filter(ads, (ad: Ad) => ad.id != id)
  }

  /** Deletion drops every campaign with the id and keeps all others in
      their order. */
  lemma RemoveSpec(ads: seq<Ad>, id: int)
    ensures forall ad :: ad in Remove(ads, id) <==> ad in ads && ad.id != id
    ensures Seqs.IsSubseq(Remove(ads, id), ads)
  {
    var keep := (ad: Ad) => ad.id != id;
    forall ad
      ensures ad in Seqs.Filter(ads, keep) <==> ad in ads && keep(ad)
    {
      Seqs.FilterMembership(ads, keep, ad);
    }
    Seqs.FilterIsSubseq(ads, keep);
  }

  /** `ads.reduce((sum, ad) => sum + field(ad), 0)` (integer sums, so
      the order of the additions does not matter). */
  function Sum(ads: seq<Ad>, field: Ad -> int): int {
    if ads == [] then 0 else field(ads[0]) + Sum(ads[1..], field)
  }

  /** The four summary cards. */
  function Total(ads: seq<Ad>): (t: Totals)
    ensures ads == [] ==> t == Totals(0, 0, 0, 0)
  {
    Totals(Sum(ads, (ad: Ad) => ad.budget), Sum(ads, (ad: Ad) => ad.spent),
           Sum(ads, (ad: Ad) => ad.impressions), Sum(ads, (ad: Ad) => ad.clicks))
  }

  /** The campaigns `handleDelete` drops. */
  function Removed(ads: seq<Ad>, id: int): seq<Ad> {
    Seqs.Filter(ads, (ad: Ad) => ad.id == id)
  }

  /** Deleting a campaign takes exactly its amounts out of a sum: the sum
      after deletion plus that of the deleted campaigns is the sum
      before. */
  lemma {:induction false} RemoveSum(ads: seq<Ad>, id: int, field: Ad -> int)
    ensures Sum(Remove(ads, id), field) + Sum(Removed(ads, id), field) == Sum(ads, field)
  {
    if ads != [] {
      RemoveSum(ads[1..], id, field);
      var head, kept, gone := ads[0], Remove(ads[1..], id), Removed(ads[1..], id);
      if head.id == id {
        assert Remove(ads, id) == kept;
        assert Removed(ads, id) == [head] + gone;
        assert ([head] + gone)[1..] == gone;
      } else {
        assert Remove(ads, id) == [head] + kept;
        assert ([head] + kept)[1..] == kept;
        assert Removed(ads, id) == gone;
      }
    }
  }

  /** So each of the four totals drops by exactly the deleted campaigns'
      amounts. */
  lemma RemoveTotals(ads: seq<Ad>, id: int)
    ensures var after, gone := Total(Remove(ads, id)), Total(Removed(ads, id));
      after.budget + gone.budget == Total(ads).budget &&
      after.spent + gone.spent == Total(ads).spent &&
      after.impressions + gone.impressions == Total(ads).impressions &&
      after.clicks + gone.clicks == Total(ads).clicks
  {
    RemoveSum(ads, id, (ad: Ad) => ad.budget);
    RemoveSum(ads, id, (ad: Ad) => ad.spent);
    RemoveSum(ads, id, (ad: Ad) => ad.impressions);
    RemoveSum(ads, id, (ad: Ad) => ad.clicks);
  }

  /** Deleting an id no campaign has leaves the totals as they were. */
  lemma RemoveUnknownKeepsTotals(ads: seq<Ad>, id: int)
    requires forall ad :: ad in ads ==> ad.id != id
    ensures Total(Remove(ads, id)) == Total(ads)
  {
    Seqs.FilterKeepsAll(ads, (ad: Ad) => ad.id != id);
  }

  /** `advertisements.filter(ad => ad.status === 'active').length`. */
  function ActiveCount(ads: seq<Ad>): (n: nat)
    ensures n <= |ads|
    ensures ads == [] ==> n == 0
  {
    Seqs.Count(ads, (ad: Ad) => ad.status == "active")
  }

  class AdvertisingPage {
    var ads: seq<Ad>
    var searchTerm: string

    constructor ()
      ensures ads == [] && searchTerm == ""
      ensures Summary() == Totals(0, 0, 0, 0) && Active() == 0
    {
      ads := [];
      searchTerm := "";
    }

    method Delete(id: int)
      modifies this
      ensures ads == Remove(old(ads), id) && searchTerm == old(searchTerm)
    {
      ads := Remove(ads, id);
    }

    /** The summary cards sum the whole list, whatever the search. */
    function Summary(): Totals
      reads this
    {
      Total(ads)
    }

    function Active(): (n: nat)
      reads this
      ensures n <= |ads|
    {
      ActiveCount(ads)
    }

    function Shown(): (r: seq<Ad>)
      reads this
      ensures Seqs.IsSubseq(r, ads)
      ensures forall ad :: ad in r <==> ad in ads && Matches(ad, searchTerm)
    {
      SearchSpec(ads, searchTerm);
      Search(ads, searchTerm)
    }
  }
}
