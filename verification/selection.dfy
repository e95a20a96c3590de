/**
 * Choosing the next batch of candidates: the filtered request, the exclusion of
 * saved and seen entries, and the broader request tried when nothing survives.
 */
module Selection {
  import opened Catalog
  import opened Randomness
  import opened Query
  import opened Sequences

  /** What a fetch yields: the decoded `data` array, or a failed request or network error. */
  datatype Response = Ok(data: seq<Anime>) | HttpError

  /** The catalog endpoint, as seen by the client: each request has one response. */
  type Api = Query -> Response

  /** The entry is neither saved nor seen (compared by identifier). */
  predicate Eligible(a: Anime, saved: seq<Anime>, seen: seq<Anime>) {
    !Listed(saved, a.malId) && !Listed(seen, a.malId)
  }

  ghost predicate AllEligible(s: seq<Anime>, saved: seq<Anime>, seen: seq<Anime>) {
    forall a :: a in s ==> Eligible(a, saved, seen)
  }

  /**
   * The `filter` over a fetched batch: keeps exactly the eligible entries, every
   * copy of each, in their fetched order.
   */
  function Unseen(batch: seq<Anime>, saved: seq<Anime>, seen: seq<Anime>): (r: seq<Anime>)
    ensures IsSubsequence(r, batch)
    ensures AllEligible(r, saved, seen)
    ensures forall a :: multiset(r)[a] == if Eligible(a, saved, seen) then multiset(batch)[a] else 0
  {
    if batch == [] then []
    else
      var rest := Unseen(batch[1..], saved, seen);
      assert batch == [batch[0]] + batch[1..];
      if Eligible(batch[0], saved, seen) then [batch[0]] + rest else rest
  }

  /** Filtering a batch whose identifiers are distinct leaves them distinct. */
  lemma UnseenKeepsDistinct(batch: seq<Anime>, saved: seq<Anime>, seen: seq<Anime>)
    requires DistinctIds(batch)
    ensures DistinctIds(Unseen(batch, saved, seen))
  {
    var r := Unseen(batch, saved, seen);
    forall a: Anime, b: Anime | a in multiset(r) && b in multiset(r) && a.malId == b.malId
      ensures a == b && multiset(r)[a] == 1
    {
      assert a in multiset(batch) && b in multiset(batch);
    }
  }

  /** The requests issued and, unless a request failed, the candidates they yielded. */
  datatype Selection = Selection(requests: seq<Query>, result: Option<seq<Anime>>)

  /**
   * The fetching and filtering part of loading the queue: the filtered request first;
   * the broader request only when the first succeeded and none of its entries is
   * eligible. A failed request ends the load.
   */
  function Select(f: Filters, saved: seq<Anime>, seen: seq<Anime>, api: Api, draws: Draws): (s: Selection)
    ensures 1 <= |s.requests| <= 2
    ensures s.requests[0] == SearchQuery(f, PrimaryPage(draws.page))
    ensures |s.requests| == 2 <==>
      api(s.requests[0]).Ok? && Unseen(api(s.requests[0]).data, saved, seen) == []
    ensures |s.requests| == 2 ==> s.requests[1] == BroadQuery(BroadPage(draws.broadPage))
    ensures s.result.None? <==> api(s.requests[|s.requests| - 1]).HttpError?
    ensures s.result.Some? ==>
      s.result.value == Unseen(api(s.requests[|s.requests| - 1]).data, saved, seen)
    ensures s.result.Some? ==> AllEligible(s.result.value, saved, seen)
    ensures s.result == Some([]) ==> |s.requests| == 2
  {
    var primary := SearchQuery(f, PrimaryPage(draws.page));
    match api(primary)
    case HttpError => Selection([primary], None)
    case Ok(data) =>
      var kept := Unseen(data, saved, seen);
      if kept != [] then Selection([primary], Some(kept))
      else
        var broad := BroadQuery(BroadPage(draws.broadPage));
        match api(broad)
        case HttpError => Selection([primary, broad], None)
        case Ok(more) => Selection([primary, broad], Some(Unseen(more, saved, seen)))
  }

  /** Every batch the endpoint returns lists each identifier at most once. */
  ghost predicate DistinctBatches(api: Api) {
    forall q :: api(q).Ok? ==> DistinctIds(api(q).data)
  }

  /** When batches have distinct identifiers, so do the chosen candidates. */
  lemma SelectKeepsDistinct(f: Filters, saved: seq<Anime>, seen: seq<Anime>, api: Api, draws: Draws)
    requires DistinctBatches(api)
    ensures Select(f, saved, seen, api, draws).result.Some? ==>
      DistinctIds(Select(f, saved, seen, api, draws).result.value)
  {
    var s := Select(f, saved, seen, api, draws);
    if s.result.Some? {
      var last := s.requests[|s.requests| - 1];
      UnseenKeepsDistinct(api(last).data, saved, seen);
    }
  }
}
