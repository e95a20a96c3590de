/** The saved and seen collections: check-then-append, keyed by identifier. */
module Triage {
  import opened Catalog

  /**
   * The collection after triaging the displayed entry: unchanged when nothing is
   * displayed or an entry with the same identifier is already there, otherwise
   * the displayed entry appended at the end.
   */
  function Remember(list: seq<Anime>, current: Option<Anime>): (r: seq<Anime>)
    ensures |list| <= |r| <= |list| + 1 && r[..|list|] == list
    ensures |r| == |list| + 1 <==> current.Some? && !Listed(list, current.value.malId)
    ensures |r| == |list| + 1 ==> r[|list|] == current.value
    ensures current.Some? ==> Listed(r, current.value.malId)
    ensures forall id :: Listed(r, id) <==> Listed(list, id) || (current.Some? && current.value.malId == id)
    ensures DistinctIds(list) ==> DistinctIds(r)
  {
    if current.None? || Listed(list, current.value.malId) then list
    else
      var r := list + [current.value];
      assert r[|list|] in r;
      assert forall a :: a in r ==> a in list || a == current.value;
      r
  }

  /** Triaging the same entry twice changes nothing the second time. */
  lemma RememberIdempotent(list: seq<Anime>, current: Option<Anime>)
    ensures Remember(Remember(list, current), current) == Remember(list, current)
  {
  }
}
