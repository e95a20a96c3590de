/**
 * The discovery session: the queue of candidates, the displayed entry, the saved
 * and seen collections and the filter record, with the operations the client runs
 * on them.
 */
module Discovery {
  import opened Catalog
  import opened Randomness
  import opened Shuffle
  import opened Query
  import opened Selection
  import opened Triage

  /** What the card shows after asking for the next entry. */
  datatype Display = Showing(item: Anime) | NoMoreAnime | LoadError

  /** The queue, the displayed entry and what is shown. */
  datatype View = View(queue: seq<Anime>, current: Option<Anime>, shown: Display)

  /**
   * The queue after a load: the shuffled candidates when the load succeeds; when it
   * fails, the old queue if the first request failed, and the empty queue if the
   * broader one did (the empty filtered batch had already replaced the queue).
   */
  function AfterLoad(queue: seq<Anime>, sel: Selection, order: nat -> Roll): seq<Anime> {
    match sel.result
    case Some(items) => Shuffled(items, order)
    case None => if |sel.requests| == 1 then queue else []
  }

  /** A successful load holds exactly the candidates, reordered; a failed one keeps the old queue or empties it. */
  lemma AfterLoadShape(queue: seq<Anime>, sel: Selection, order: nat -> Roll)
    ensures sel.result.Some? ==> multiset(AfterLoad(queue, sel, order)) == multiset(sel.result.value)
    ensures sel.result.None? ==> AfterLoad(queue, sel, order) == queue || AfterLoad(queue, sel, order) == []
  {
    if sel.result.Some? {
      ShuffledPermutes(sel.result.value, order);
    }
  }

  /**
   * Asking for the next entry: pop the front of the queue, loading first when the
   * queue is empty. When the load fails or yields nothing, the displayed entry stays.
   */
  function Next(queue: seq<Anime>, current: Option<Anime>, f: Filters,
                saved: seq<Anime>, seen: seq<Anime>, api: Api, draws: Draws): View
  {
    var q := if queue != [] then queue else AfterLoad(queue, Select(f, saved, seen, api, draws), draws.order);
    if queue == [] && Select(f, saved, seen, api, draws).result.None? then View(q, current, LoadError)
    else if q == [] then View(q, current, NoMoreAnime)
    else View(q[1..], Some(q[0]), Showing(q[0]))
  }

  /**
   * A non-empty queue is popped without fetching; a shown entry becomes the displayed
   * one; otherwise the displayed entry stays and the queue is left empty.
   */
  lemma NextPops(queue: seq<Anime>, current: Option<Anime>, f: Filters,
                 saved: seq<Anime>, seen: seq<Anime>, api: Api, draws: Draws)
    ensures var v := Next(queue, current, f, saved, seen, api, draws);
      (queue != [] ==> v.shown == Showing(queue[0]) && v.queue == queue[1..]) &&
      (v.shown.Showing? ==> v.current == Some(v.shown.item)) &&
      (!v.shown.Showing? ==> v.current == current && v.queue == [])
  {
  }

  /**
   * The session's freshness invariant: every queued entry is neither saved nor seen,
   * queued identifiers are distinct, and the displayed entry is not queued again.
   */
  ghost predicate Untriaged(queue: seq<Anime>, current: Option<Anime>, saved: seq<Anime>, seen: seq<Anime>) {
    AllEligible(queue, saved, seen) && DistinctIds(queue) &&
    (current.Some? ==> !Listed(queue, current.value.malId))
  }

  /** Popping the front of a queue with distinct identifiers leaves no entry with its identifier. */
  lemma PopKeepsDistinct(q: seq<Anime>)
    requires q != [] && DistinctIds(q)
    ensures DistinctIds(q[1..]) && !Listed(q[1..], q[0].malId)
  {
    assert q == [q[0]] + q[1..];
    assert multiset(q) == multiset{q[0]} + multiset(q[1..]);
    forall b | b in q[1..] ensures b.malId != q[0].malId {
      assert b in multiset(q) && q[0] in multiset(q);
      assert multiset(q)[q[0]] == 1 + multiset(q[1..])[q[0]];
    }
  }

  /** A successful load queues only eligible entries, with distinct identifiers when batches have them. */
  lemma {:induction false} LoadedUntriaged(f: Filters, saved: seq<Anime>, seen: seq<Anime>, api: Api, draws: Draws)
    requires Select(f, saved, seen, api, draws).result.Some?
    ensures AllEligible(Shuffled(Select(f, saved, seen, api, draws).result.value, draws.order), saved, seen)
    ensures DistinctBatches(api) ==>
      DistinctIds(Shuffled(Select(f, saved, seen, api, draws).result.value, draws.order))
  {
    var items := Select(f, saved, seen, api, draws).result.value;
    var q := Shuffled(items, draws.order);
    ShuffledPermutes(items, draws.order);
    forall a | a in q ensures Eligible(a, saved, seen) {
      assert a in multiset(q);
    }
    if DistinctBatches(api) {
      SelectKeepsDistinct(f, saved, seen, api, draws);
    }
  }

  /** An entry shown by `Next` from a queue of eligible entries is neither saved nor seen. */
  lemma {:induction false} NextShowsEligible(queue: seq<Anime>, current: Option<Anime>, f: Filters,
                                             saved: seq<Anime>, seen: seq<Anime>, api: Api, draws: Draws)
    requires AllEligible(queue, saved, seen)
    ensures Next(queue, current, f, saved, seen, api, draws).shown.Showing? ==>
      Eligible(Next(queue, current, f, saved, seen, api, draws).shown.item, saved, seen)
  {
    if queue == [] && Select(f, saved, seen, api, draws).result.Some? {
      LoadedUntriaged(f, saved, seen, api, draws);
    }
  }

  /**
   * `Next` restores the freshness invariant from any queue of eligible entries with
   * distinct identifiers, provided fetched batches have distinct identifiers.
   */
  lemma {:induction false} NextKeepsUntriaged(queue: seq<Anime>, current: Option<Anime>, f: Filters,
                                              saved: seq<Anime>, seen: seq<Anime>, api: Api, draws: Draws)
    requires AllEligible(queue, saved, seen) && DistinctIds(queue)
    requires DistinctBatches(api)
    ensures var v := Next(queue, current, f, saved, seen, api, draws);
      Untriaged(v.queue, v.current, saved, seen)
  {
    var q := if queue != [] then queue else AfterLoad(queue, Select(f, saved, seen, api, draws), draws.order);
    if queue == [] && Select(f, saved, seen, api, draws).result.Some? {
      LoadedUntriaged(f, saved, seen, api, draws);
    }
    if q != [] {
      PopKeepsDistinct(q);
      assert forall a :: a in q[1..] ==> a in q;
    }
  }

  /** Saving or marking the displayed entry keeps the freshness invariant. */
  lemma RememberKeepsUntriaged(queue: seq<Anime>, current: Option<Anime>, saved: seq<Anime>, seen: seq<Anime>)
    requires Untriaged(queue, current, saved, seen)
    ensures Untriaged(queue, current, Remember(saved, current), seen)
    ensures Untriaged(queue, current, saved, Remember(seen, current))
  {
  }

  class Session {
    var queue: seq<Anime>
    var current: Option<Anime>
    var saved: seq<Anime>
    var seen: seq<Anime>
    var filters: Filters
    /** The last value written to local storage under each key (`None`: never written). */
    ghost var storedSaved: Option<seq<Anime>>
    ghost var storedSeen: Option<seq<Anime>>
    ghost var storedFilters: Option<Filters>

    /** The in-memory collections and filters agree with what local storage yields on reload. */
    ghost predicate Persisted()
      reads this`saved, this`seen, this`filters, this`storedSaved, this`storedSeen, this`storedFilters
    {
      saved == storedSaved.GetOr([]) && seen == storedSeen.GetOr([]) &&
      filters == storedFilters.GetOr(DefaultFilters())
    }

    /** The freshness invariant on the session's own state. */
    ghost predicate Pending()
      reads this`queue, this`current, this`saved, this`seen
    {
      Untriaged(queue, current, saved, seen)
    }

    /** Start-up: the collections and filters are read back from local storage. */
    constructor (savedBlob: Option<seq<Anime>>, seenBlob: Option<seq<Anime>>, filtersBlob: Option<Filters>)
      ensures queue == [] && current == None
      ensures saved == savedBlob.GetOr([]) && seen == seenBlob.GetOr([])
      ensures filters == filtersBlob.GetOr(DefaultFilters())
      ensures storedSaved == savedBlob && storedSeen == seenBlob && storedFilters == filtersBlob
      ensures Persisted() && Pending()
    {
      queue := [];
      current := None;
      saved := savedBlob.GetOr([]);
      seen := seenBlob.GetOr([]);
      filters := filtersBlob.GetOr(DefaultFilters());
      storedSaved := savedBlob;
      storedSeen := seenBlob;
      storedFilters := filtersBlob;
    }

    /**
     * `loadAnimeQueue`: fetch with the current filters, drop saved and seen entries,
     * fall back to the broader request when nothing survives, shuffle, and replace
     * the queue. Returns whether the load succeeded and the requests it issued.
     */
    method LoadAnimeQueue(api: Api, draws: Draws) returns (ok: bool, requests: seq<Query>)
      modifies this`queue
      ensures var sel := Select(filters, saved, seen, api, draws);
        requests == sel.requests && ok == sel.result.Some? &&
        queue == AfterLoad(old(queue), sel, draws.order)
      ensures ok ==> AllEligible(queue, saved, seen)
      ensures ok && DistinctBatches(api) ==> DistinctIds(queue)
    {
      var primary := SearchQuery(filters, PrimaryPage(draws.page));
      requests := [primary];
      var response := api(primary);
      if response.HttpError? {
        return false, requests;
      }
      queue := Unseen(response.data, saved, seen);
      if queue == [] {
        var broad := BroadQuery(BroadPage(draws.broadPage));
        requests := requests + [broad];
        var fallback := api(broad);
        if fallback.HttpError? {
          return false, requests;
        }
        queue := Unseen(fallback.data, saved, seen);
      }
      queue := ShuffleArray(queue, draws.order);
      ok := true;
      LoadedUntriaged(filters, saved, seen, api, draws);
    }

    /** `displayNextAnime`: pop the front of the queue into the displayed entry, loading first if it is empty. */
    method DisplayNextAnime(api: Api, draws: Draws) returns (shown: Display)
      modifies this`queue, this`current
      ensures View(queue, current, shown) == Next(old(queue), old(current), filters, saved, seen, api, draws)
      ensures old(AllEligible(queue, saved, seen)) && shown.Showing? ==> Eligible(shown.item, saved, seen)
      ensures old(AllEligible(queue, saved, seen) && DistinctIds(queue)) && DistinctBatches(api) ==> Pending()
    {
      if AllEligible(queue, saved, seen) {
        NextShowsEligible(queue, current, filters, saved, seen, api, draws);
      }
      if AllEligible(queue, saved, seen) && DistinctIds(queue) && DistinctBatches(api) {
        NextKeepsUntriaged(queue, current, filters, saved, seen, api, draws);
      }
      if queue == [] {
        var ok, _ := LoadAnimeQueue(api, draws);
        if !ok {
          return LoadError;
        }
        if queue == [] {
          return NoMoreAnime;
        }
      }
      current := Some(queue[0]);
      queue := queue[1..];
      shown := Showing(current.value);
    }

    /** `saveAnime`: append the displayed entry to the saved collection unless its identifier is there. */
    method SaveAnime()
      modifies this`saved, this`storedSaved
      ensures saved == Remember(old(saved), current)
      ensures storedSaved == if saved == old(saved) then old(storedSaved) else Some(saved)
      ensures old(Persisted()) ==> Persisted()
      ensures old(Pending()) ==> Pending()
    {
      if Pending() {
        RememberKeepsUntriaged(queue, current, saved, seen);
      }
      if current.None? {
        return;
      }
      if !Listed(saved, current.value.malId) {
        saved := saved + [current.value];
        storedSaved := Some(saved);
      }
    }

    /** `markAsSeen`: the same operation on the seen collection. */
    method MarkAsSeen()
      modifies this`seen, this`storedSeen
      ensures seen == Remember(old(seen), current)
      ensures storedSeen == if seen == old(seen) then old(storedSeen) else Some(seen)
      ensures old(Persisted()) ==> Persisted()
      ensures old(Pending()) ==> Pending()
    {
      if Pending() {
        RememberKeepsUntriaged(queue, current, saved, seen);
      }
      if current.None? {
        return;
      }
      if !Listed(seen, current.value.malId) {
        seen := seen + [current.value];
        storedSeen := Some(seen);
      }
    }

    /** Replace the filter record and write it to local storage. */
    method StoreFilters(f: Filters)
      modifies this`filters, this`storedFilters
      ensures filters == f && storedFilters == Some(f)
      ensures old(Persisted()) ==> Persisted()
      ensures old(Pending()) ==> Pending()
    {
      filters := f;
      storedFilters := Some(f);
    }

    /**
     * The apply handler's second half: reload the queue with the current filters and,
     * on success, show the next entry (`load` and `next` are the random values of the
     * two steps). A failed load is reported to the user and nothing is shown.
     */
    method Reload(api: Api, load: Draws, next: Draws) returns (ok: bool, shown: Option<Display>)
      modifies this`queue, this`current
      ensures var sel := Select(filters, saved, seen, api, load);
        var loaded := AfterLoad(old(queue), sel, load.order);
        ok == sel.result.Some? && ok == shown.Some? &&
        (ok ==> View(queue, current, shown.value) == Next(loaded, old(current), filters, saved, seen, api, next)) &&
        (!ok ==> queue == loaded && current == old(current))
      ensures old(Pending()) && DistinctBatches(api) ==> Pending()
    {
      ghost var loaded := AfterLoad(queue, Select(filters, saved, seen, api, load), load.order);
      var requests;
      ok, requests := LoadAnimeQueue(api, load);
      if ok {
        var d := DisplayNextAnime(api, next);
        shown := Some(d);
      } else {
        shown := None;
      }
    }

    /** The apply handler: replace and store the filter record, then reload. */
    method ApplyFilters(chosen: Filters, api: Api, load: Draws, next: Draws) returns (ok: bool, shown: Option<Display>)
      modifies this`filters, this`storedFilters, this`queue, this`current
      ensures filters == chosen && storedFilters == Some(chosen)
      ensures var sel := Select(chosen, saved, seen, api, load);
        var loaded := AfterLoad(old(queue), sel, load.order);
        ok == sel.result.Some? && ok == shown.Some? &&
        (ok ==> View(queue, current, shown.value) == Next(loaded, old(current), chosen, saved, seen, api, next)) &&
        (!ok ==> queue == loaded && current == old(current))
      ensures old(Persisted()) ==> Persisted()
      ensures old(Pending()) && DistinctBatches(api) ==> Pending()
    {
      StoreFilters(chosen);
      ok, shown := Reload(api, load, next);
    }

    /** The reset handler: restore and store the default filter record. The queue is left as it is. */
    method ResetFilters()
      modifies this`filters, this`storedFilters
      ensures filters == DefaultFilters() && storedFilters == Some(DefaultFilters())
      ensures old(Persisted()) ==> Persisted()
      ensures old(Pending()) ==> Pending()
    {
      StoreFilters(DefaultFilters());
    }
  }
}
