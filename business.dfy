/** The business page: a local list of businesses, a search box, and the
    assign flow (pick a business, confirm or cancel in a modal) plus the
    unassign button. */
module Business {

  import opened Optional
  import opened Json
  import Seqs

  /** A business as the page reads it; `owner` is `null` (None) or a
      name. */
  datatype Business = Business(id: int, name: string, email: string, category: string, owner: Option<string>)

  /** The search box: name, email or category mentions the term. */
  predicate Matches(b: Business, term: string) {
    Mentions(b.name, term) || Mentions(b.email, term) || Mentions(b.category, term)
  }

  /** `filteredBusinesses`. */
  function Search(businesses: seq<Business>, term: string): (r: seq<Business>)
    ensures |r| <= |businesses|
  {
    Seqs.Filter(businesses, (b: Business) => Matches(b, term))
  }

  /** The search keeps exactly the matching businesses, in their order,
      and an empty term keeps them all. */
  lemma SearchSpec(businesses: seq<Business>, term: string)
    ensures forall b :: b in Search(businesses, term) <==> b in businesses && Matches(b, term)
    ensures Seqs.IsSubseq(Search(businesses, term), businesses)
    ensures Search(businesses, "") == businesses
  {
    var keep := (b: Business) => Matches(b, term);
    forall b
      ensures b in Seqs.Filter(businesses, keep) <==> b in businesses && keep(b)
    {
      Seqs.FilterMembership(businesses, keep, b);
    }
    Seqs.FilterIsSubseq(businesses, keep);
    forall b | b in businesses
      ensures Matches(b, "")
    {
      MentionsEmptyAndSelf(b.name);
    }
    Seqs.FilterKeepsAll(businesses, (b: Business) => Matches(b, ""));
  }

  /** `businesses.map(b => b.id === id ? { ...b, owner } : b)`. */
  function SetOwner(businesses: seq<Business>, id: int, owner: Option<string>): (r: seq<Business>)
    ensures |r| == |businesses|
  {
    Seqs.Map(businesses, (b: Business) => if b.id == id then b.(owner := owner) else b)
  }

  /** Only the businesses with that id change, and on them only the
      owner; setting the owner again changes nothing more. */
  lemma {:induction false} SetOwnerSpec(businesses: seq<Business>, id: int, owner: Option<string>)
    ensures forall i :: 0 <= i < |businesses| ==>
      var after := SetOwner(businesses, id, owner)[i];
      after.id == businesses[i].id &&
      (if businesses[i].id == id then after == businesses[i].(owner := owner) else after == businesses[i])
    ensures SetOwner(SetOwner(businesses, id, owner), id, owner) == SetOwner(businesses, id, owner)
  {
    var once := SetOwner(businesses, id, owner);
    assert forall i :: 0 <= i < |businesses| ==> once[i].id == businesses[i].id;
  }

  /** Unassigning undoes assigning on a business that had no owner. */
  lemma UnassignUndoesAssign(businesses: seq<Business>, id: int)
    requires forall b :: b in businesses && b.id == id ==> b.owner.None?
    ensures SetOwner(SetOwner(businesses, id, Some("admin")), id, None) == businesses
  {
    var once := SetOwner(businesses, id, Some("admin"));
    var twice := SetOwner(once, id, None);
    forall i | 0 <= i < |businesses|
      ensures twice[i] == businesses[i]
    {
      assert businesses[i] in businesses;
    }
  }

  class BusinessPage {
    var businesses: seq<Business>
    var searchTerm: string
    var showAssignModal: bool
    var selected: Option<Business>

    /** The modal is open exactly while a business is selected. */
    predicate Valid()
      reads this
    {
      showAssignModal <==> selected.Some?
    }

    constructor ()
      ensures Valid()
      ensures businesses == [] && searchTerm == "" && !showAssignModal && selected == None
    {
      businesses := [];
      searchTerm := "";
      showAssignModal := false;
      selected := None;
    }

    /** `handleAssignBusiness`: remembers the business and opens the
        modal. */
    method Assign(b: Business)
      modifies this
      ensures Valid()
      ensures selected == Some(b) && showAssignModal
      ensures businesses == old(businesses) && searchTerm == old(searchTerm)
    {
      selected := Some(b);
      showAssignModal := true;
    }

    /** `confirmAssignBusiness`: the modal's confirm button, so a business
        is selected; it gets `owner: 'admin'`, then the modal closes. */
    method Confirm()
      requires Valid() && showAssignModal
      modifies this
      ensures Valid()
      ensures businesses == SetOwner(old(businesses), old(selected).value.id, Some("admin"))
      ensures !showAssignModal && selected == None && searchTerm == old(searchTerm)
    {
      businesses := SetOwner(businesses, selected.value.id, Some("admin"));
      showAssignModal := false;
      selected := None;
    }

    /** The modal's cancel button. */
    method Cancel()
      modifies this
      ensures Valid()
      ensures !showAssignModal && selected == None
      ensures businesses == old(businesses) && searchTerm == old(searchTerm)
    {
      showAssignModal := false;
      selected := None;
    }

    /** `handleUnassignBusiness`. */
    method Unassign(id: int)
      modifies this
      ensures businesses == SetOwner(old(businesses), id, None)
      ensures showAssignModal == old(showAssignModal) && selected == old(selected) && searchTerm == old(searchTerm)
    {
      businesses := SetOwner(businesses, id, None);
    }

    function Shown(): (r: seq<Business>)
      reads this
      ensures Seqs.IsSubseq(r, businesses)
      ensures forall b :: b in r <==> b in businesses && Matches(b, searchTerm)
    {
      SearchSpec(businesses, searchTerm);
      Search(businesses, searchTerm)
    }
  }
}
