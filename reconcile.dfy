/** The list transforms the entity pages apply to their records: the
    normalisation of a fetched list, the three push handlers, the patch a
    successful local action applies, and the search filter. A record is a
    JavaScript value and its `id` is read as a property; records on which
    the pages' code would throw (`null`, or a non-string searched field)
    are outside the model. */
module Reconcile {

  import opened Optional
  import opened Json
  import Seqs

  function IdOf(r: Json): Json {
    Get(r, "id")
  }

  /** Every id occurs at most once. */
  predicate UniqueIds(list: seq<Json>) {
    forall i, j :: 0 <= i < j < |list| ==> IdOf(list[i]) != IdOf(list[j])
  }

  // ---------------------------------------------------------------------
  // Fetch
  // ---------------------------------------------------------------------

  /** The list a fetched body yields: the body itself when it is an array,
      else its `<plural>` property when that is an array, else nothing
      (the page keeps what it had). */
  function Normalize(data: Json, plural: string): (r: Option<seq<Json>>)
    ensures data.Arr? ==> r == Some(data.items)
    ensures !data.Arr? && Get(data, plural).Arr? ==> r == Some(Get(data, plural).items)
    ensures r.None? <==> !data.Arr? && !Get(data, plural).Arr?
  {
    if Truthy(data) && data.Arr? then Some(data.items)
    else if Truthy(Get(data, plural)) && Get(data, plural).Arr? then Some(Get(data, plural).items)
    else None
  }

  /** `data` if it is an array, else `data.<plural> || []` (the Reports
      and Analytics shape); `None` when that is not an array either, which
      is where the page's code throws. */
  function ListOrEmpty(data: Json, plural: string): (r: Option<seq<Json>>)
    ensures data.Arr? ==> r == Some(data.items)
    ensures !data.Arr? && Get(data, plural).Arr? ==> r == Some(Get(data, plural).items)
    ensures !data.Arr? && !Truthy(Get(data, plural)) ==> r == Some([])
    ensures r.None? <==> !data.Arr? && Truthy(Get(data, plural)) && !Get(data, plural).Arr?
  {
    if data.Arr? then Some(data.items)
    else
      var fallback := Or(Get(data, plural), Arr([]));
      if fallback.Arr? then Some(fallback.items) else None
  }

  // ---------------------------------------------------------------------
  // Push handlers
  // ---------------------------------------------------------------------

  /** `onNew`: `[record, ...prev]`. */
  function Prepend(list: seq<Json>, r: Json): (out: seq<Json>)
    ensures |out| == |list| + 1 && out[0] == r && out[1..] == list
  {
    [r] + list
  }

  /** `onNew` does not look for the id: prepending a record whose id is
      already listed leaves the list with that id twice. */
  lemma PrependDuplicates(list: seq<Json>, r: Json, i: nat)
    requires i < |list| && IdOf(list[i]) == IdOf(r)
    ensures !UniqueIds(Prepend(list, r))
  {
    assert IdOf(Prepend(list, r)[0]) == IdOf(Prepend(list, r)[i + 1]);
  }

  /** `onUpdated`: `prev.map(x => x.id === updated.id ? updated : x)`. */
  function ReplaceById(list: seq<Json>, updated: Json): (out: seq<Json>)
    ensures |out| == |list|
    ensures forall i :: 0 <= i < |list| && IdOf(list[i]) == IdOf(updated) ==> out[i] == updated
    ensures forall i :: 0 <= i < |list| && IdOf(list[i]) != IdOf(updated) ==> out[i] == list[i]
  {
    Seqs.Map(list, x => if IdOf(x) == IdOf(updated) then updated else x)
  }

  /** An update for an id that is not listed changes nothing: `onUpdated`
      never inserts. */
  lemma ReplaceUnknownIsNoOp(list: seq<Json>, updated: Json)
    requires forall i :: 0 <= i < |list| ==> IdOf(list[i]) != IdOf(updated)
    ensures ReplaceById(list, updated) == list
  {
  }

  /** A replacement keeps every position's id, so unique ids stay
      unique. */
  lemma ReplaceKeepsIds(list: seq<Json>, updated: Json)
    ensures forall i :: 0 <= i < |list| ==> IdOf(ReplaceById(list, updated)[i]) == IdOf(list[i])
    ensures UniqueIds(list) ==> UniqueIds(ReplaceById(list, updated))
  {
  }

  /** With `A, B, C` listed, an update for `B` replaces it in place. */
  lemma UpdateInPlace(a: Json, b: Json, c: Json, b2: Json)
    requires IdOf(a) != IdOf(b) && IdOf(c) != IdOf(b) && IdOf(b2) == IdOf(b)
    ensures ReplaceById([a, b, c], b2) == [a, b2, c]
  {
    var list, want := [a, b, c], [a, b2, c];
    forall i | 0 <= i < 3
      ensures want[i] == if IdOf(list[i]) == IdOf(b2) then b2 else list[i]
    {
      if i == 1 {
        assert list[i] == b && want[i] == b2;
      } else {
        assert list[i] == want[i] && IdOf(list[i]) != IdOf(b2);
      }
    }
    ReplacePointwise(list, b2, want);
  }

  /** A list that agrees with the replacement at every position is the
      replacement. */
  lemma ReplacePointwise(list: seq<Json>, updated: Json, want: seq<Json>)
    requires |want| == |list|
    requires forall i :: 0 <= i < |list| ==> want[i] == if IdOf(list[i]) == IdOf(updated) then updated else list[i]
    ensures ReplaceById(list, updated) == want
  {
  }

  /** The id an `onDeleted` payload names: `data.<key> || data.id`. */
  function DeletedId(data: Json, key: string): Json {
    Or(Get(data, key), Get(data, "id"))
  }

  /** `list.find(x => x.id === id)`: the earliest record with that id. */
  function FirstWithId(list: seq<Json>, id: Json): (r: Option<Json>)
    ensures r.Some? ==> r.value in list && IdOf(r.value) == id
    ensures r.None? <==> forall x :: x in list ==> IdOf(x) != id
    ensures r.Some? ==> exists i :: 0 <= i < |list| && list[i] == r.value && forall j :: 0 <= j < i ==> IdOf(list[j]) != id
  {
    if list == [] then None
    else if IdOf(list[0]) == id then Some(list[0])
    else
      assert forall x :: x in list ==> x == list[0] || x in list[1..];
      var r := FirstWithId(list[1..], id);
      if r.Some? then
        var i :| 0 <= i < |list[1..]| && list[1..][i] == r.value && forall j :: 0 <= j < i ==> IdOf(list[1..][j]) != id;
        assert list[i + 1] == r.value && forall j :: 0 <= j < i + 1 ==> IdOf(list[j]) != id;
        r
      else r
  }

  /** The record `find` yields is `Seqs.Find` with the id test, which is
      the first record the filter `x.id === id` keeps. */
  lemma {:induction false} FirstWithIdIsFirstKept(list: seq<Json>, id: Json)
    ensures FirstWithId(list, id) == Seqs.Find(list, x => IdOf(x) == id)
    ensures FirstWithId(list, id) ==
      var kept := Seqs.Filter(list, x => IdOf(x) == id);
      if kept == [] then None else Some(kept[0])
  {
    if list != [] && IdOf(list[0]) != id {
      FirstWithIdIsFirstKept(list[1..], id);
    }
    Seqs.FindIsFirstKept(list, x => IdOf(x) == id);
  }

  /** `prev.filter(x => x.id !== id)`. */
  function RemoveById(list: seq<Json>, id: Json): (out: seq<Json>)
    ensures |out| <= |list|
    ensures forall r :: r in out ==> r in list && IdOf(r) != id
  {
    Seqs.Filter(list, x => IdOf(x) != id)
  }

  /** Removal keeps exactly the records with another id, in their order,
      and removing the same id again changes nothing. */
  lemma RemoveSpec(list: seq<Json>, id: Json)
    ensures forall r :: r in RemoveById(list, id) <==> r in list && IdOf(r) != id
    ensures Seqs.IsSubseq(RemoveById(list, id), list)
    ensures RemoveById(RemoveById(list, id), id) == RemoveById(list, id)
  {
    var keep := x => IdOf(x) != id;
    forall r
      ensures r in Seqs.Filter(list, keep) <==> r in list && IdOf(r) != id
    {
      Seqs.FilterMembership(list, keep, r);
    }
    Seqs.FilterIsSubseq(list, keep);
    Seqs.FilterIdempotent(list, keep);
  }

  /** Removing an id that is not listed changes nothing. */
  lemma RemoveUnknownIsNoOp(list: seq<Json>, id: Json)
    requires forall r :: r in list ==> IdOf(r) != id
    ensures RemoveById(list, id) == list
  {
    Seqs.FilterKeepsAll(list, x => IdOf(x) != id);
  }

  // ---------------------------------------------------------------------
  // Local actions
  // ---------------------------------------------------------------------

  /** `prev.map(x => x.id === id ? { ...x, ...updates } : x)`. */
  function PatchById(list: seq<Json>, id: Json, updates: map<string, Json>): (out: seq<Json>)
    ensures |out| == |list|
  {
    Seqs.Map(list, x => if IdOf(x) == id then With(x, updates) else x)
  }

  /** A patch changes only the records with that id, and on them only the
      patched fields; an `id` left out of the patch keeps every id. */
  lemma PatchSpec(list: seq<Json>, id: Json, updates: map<string, Json>)
    ensures forall i :: 0 <= i < |list| && IdOf(list[i]) != id ==> PatchById(list, id, updates)[i] == list[i]
    ensures forall i, k :: 0 <= i < |list| && IdOf(list[i]) == id && k in updates ==>
      Get(PatchById(list, id, updates)[i], k) == updates[k]
    ensures forall i, k :: 0 <= i < |list| && IdOf(list[i]) == id && k !in updates ==>
      Get(PatchById(list, id, updates)[i], k) == Get(list[i], k)
    ensures "id" !in updates ==>
      forall i :: 0 <= i < |list| ==> IdOf(PatchById(list, id, updates)[i]) == IdOf(list[i])
  {
  }

  /** Spreading the same updates twice is spreading them once. */
  lemma WithIdempotent(r: Json, updates: map<string, Json>)
    ensures With(With(r, updates), updates) == With(r, updates)
  {
    var once := With(r, updates);
    assert once.fields + updates == once.fields;
  }

  /** Applying the same patch twice is applying it once. */
  lemma PatchIdempotent(list: seq<Json>, id: Json, updates: map<string, Json>)
    ensures PatchById(PatchById(list, id, updates), id, updates) == PatchById(list, id, updates)
  {
    var once := PatchById(list, id, updates);
    forall i | 0 <= i < |list|
      ensures PatchById(once, id, updates)[i] == once[i]
    {
      if IdOf(list[i]) == id {
        WithIdempotent(list[i], updates);
      }
    }
  }

  // ---------------------------------------------------------------------
  // Search
  // ---------------------------------------------------------------------

  /** Some listed field contains the term, ignoring case. */
  predicate AnyFieldMatches(r: Json, keys: seq<string>, term: string) {
    exists i :: 0 <= i < |keys| && FieldMatches(r, keys[i], term)
  }

  /** `(r.k1?...includes(t) || r.k2?...includes(t) || ...) && r`. */
  predicate Kept(r: Json, keys: seq<string>, term: string) {
    AnyFieldMatches(r, keys, term) && Truthy(r)
  }

  /** The search filter over the given fields. */
  function Search(list: seq<Json>, keys: seq<string>, term: string): seq<Json> {
    Seqs.Filter(list, r => Kept(r, keys, term))
  }

  /** The search keeps exactly the matching records, in their order. */
  lemma SearchSpec(list: seq<Json>, keys: seq<string>, term: string)
    ensures forall r :: r in Search(list, keys, term) <==> r in list && Kept(r, keys, term)
    ensures Seqs.IsSubseq(Search(list, keys, term), list)
    ensures |Search(list, keys, term)| <= |list|
  {
    var keep := r => Kept(r, keys, term);
    forall r
      ensures r in Seqs.Filter(list, keep) <==> r in list && Kept(r, keys, term)
    {
      Seqs.FilterMembership(list, keep, r);
    }
    Seqs.FilterIsSubseq(list, keep);
  }

  /** An empty search term keeps every object record that has one of the
      searched fields as a string, and drops those that have none. */
  lemma EmptySearchKeepsStringRecords(list: seq<Json>, keys: seq<string>)
    ensures forall r :: r in Search(list, keys, "") <==>
      r in list && Truthy(r) && exists i :: 0 <= i < |keys| && Get(r, keys[i]).Str?
  {
    SearchSpec(list, keys, "");
    forall r, i | 0 <= i < |keys|
      ensures FieldMatches(r, keys[i], "") <==> Get(r, keys[i]).Str?
    {
      EmptyTermMatchesStringFields(r, keys[i]);
    }
  }
}
