/** The verification-requests page: a local list of requests that the
    approve and reject buttons re-stamp by id, a search box combined with
    a status selector, and the three status counters. */
module Verification {

  import opened Json
  import Seqs

  /** A request as the page reads it: every field is accessed without
      `?.`, so each is present. */
  datatype Request = Request(id: int, name: string, email: string, applicant: string, status: string)

  /** `requests.map(req => req.id === id ? { ...req, status } : req)`. */
  function Stamp(requests: seq<Request>, id: int, status: string): (r: seq<Request>)
    ensures |r| == |requests|
  {
    Seqs.Map(requests, (req: Request) => if req.id == id then req.(status := status) else req)
  }

  /** Only the requests with that id change, and on them only the
      status. */
  lemma StampSpec(requests: seq<Request>, id: int, status: string)
    ensures forall i :: 0 <= i < |requests| && requests[i].id != id ==> Stamp(requests, id, status)[i] == requests[i]
    ensures forall i :: 0 <= i < |requests| && requests[i].id == id ==>
      var after := Stamp(requests, id, status)[i];
      after.status == status && after.(status := requests[i].status) == requests[i]
  {
  }

  /** Stamping twice is stamping once, and a later stamp on the same id
      overrides an earlier one: approve then reject is reject. */
  lemma StampLastWins(requests: seq<Request>, id: int, first: string, second: string)
    ensures Stamp(Stamp(requests, id, first), id, second) == Stamp(requests, id, second)
    ensures Stamp(Stamp(requests, id, second), id, second) == Stamp(requests, id, second)
  {
  }

  /** The search box: name, email or applicant mentions the term. */
  predicate MatchesSearch(req: Request, term: string) {
    Mentions(req.name, term) || Mentions(req.email, term) || Mentions(req.applicant, term)
  }

  /** The status selector: `all`, or exactly the request's status. */
  predicate MatchesFilter(req: Request, filter: string) {
    filter == "all" || req.status == filter
  }

  /** `filteredRequests`. */
  function Visible(requests: seq<Request>, term: string, filter: string): seq<Request> {
    Seqs.Filter(requests, (req: Request) => MatchesSearch(req, term) && MatchesFilter(req, filter))
  }

  /** The visible requests are exactly those that pass both tests, in
      their order. */
  lemma VisibleSpec(requests: seq<Request>, term: string, filter: string)
    ensures forall req :: req in Visible(requests, term, filter) <==>
      req in requests && MatchesSearch(req, term) && MatchesFilter(req, filter)
    ensures Seqs.IsSubseq(Visible(requests, term, filter), requests)
  {
    var keep := (req: Request) => MatchesSearch(req, term) && MatchesFilter(req, filter);
    forall req
      ensures req in Seqs.Filter(requests, keep) <==> req in requests && keep(req)
    {
      Seqs.FilterMembership(requests, keep, req);
    }
    Seqs.FilterIsSubseq(requests, keep);
  }

  /** With the initial empty search and `all` selected, every request is
      shown. */
  lemma InitialViewShowsAll(requests: seq<Request>)
    ensures Visible(requests, "", "all") == requests
  {
    forall req | req in requests
      ensures MatchesSearch(req, "") && MatchesFilter(req, "all")
    {
      MentionsEmptyAndSelf(req.name);
    }
    Seqs.FilterKeepsAll(requests, (req: Request) => MatchesSearch(req, "") && MatchesFilter(req, "all"));
  }

  function CountStatus(requests: seq<Request>, status: string): nat {
    Seqs.Count(requests, (req: Request) => req.status == status)
  }

  /** The three counters never add up to more than the number of
      requests; a request with another status is in none. */
  lemma {:induction false} CountersBounded(requests: seq<Request>)
    ensures CountStatus(requests, "pending") + CountStatus(requests, "approved") + CountStatus(requests, "rejected")
      <= |requests|
  {
    if requests != [] {
      CountersBounded(requests[1..]);
    }
  }

  class VerificationPage {
    var requests: seq<Request>
    var searchTerm: string
    var filterStatus: string

    constructor ()
      ensures requests == [] && searchTerm == "" && filterStatus == "all"
    {
      requests := [];
      searchTerm := "";
      filterStatus := "all";
    }

    /** `handleApprove`. */
    method Approve(id: int)
      modifies this
      ensures requests == Stamp(old(requests), id, "approved")
      ensures searchTerm == old(searchTerm) && filterStatus == old(filterStatus)
    {
      requests := Stamp(requests, id, "approved");
    }

    /** `handleReject`. */
    method Reject(id: int)
      modifies this
      ensures requests == Stamp(old(requests), id, "rejected")
      ensures searchTerm == old(searchTerm) && filterStatus == old(filterStatus)
    {
      requests := Stamp(requests, id, "rejected");
    }

    /** The requests the page lists. */
    function Shown(): (r: seq<Request>)
      reads this
      ensures Seqs.IsSubseq(r, requests)
      ensures forall req :: req in r <==>
        req in requests && MatchesSearch(req, searchTerm) && MatchesFilter(req, filterStatus)
    {
      VisibleSpec(requests, searchTerm, filterStatus);
      Visible(requests, searchTerm, filterStatus)
    }
  }
}
