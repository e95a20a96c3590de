/** The records the discovery session works on: catalog entries and the filter record. */
module Catalog {

  datatype Option<+T> = None | Some(value: T) {
    /** The value, or `default` when absent (the `x || default` idiom of the client). */
    function GetOr(default: T): T {
      match this
      case Some(v) => v
      case None => default
    }
  }

  /**
   * A catalog entry as returned by the search endpoint. Only `malId` takes part in
   * the queue logic; `title` stands for the fields that are only displayed.
   */
  datatype Anime = Anime(malId: int, title: string)

  /**
   * The user's search constraints. A year of `None` is the client's `null`
   * (an empty input, or one that did not parse as a number).
   */
  datatype Filters = Filters(genres: seq<int>, yearMin: Option<int>, yearMax: Option<int>, scoreMin: int)

  /** The record the client starts from and returns to on reset. */
  function DefaultFilters(): Filters {
    Filters([], None, None, 0)
  }

  /** `list.some(x => x.mal_id === id)`. */
  predicate Listed(list: seq<Anime>, id: int) {
    exists a :: a in list && a.malId == id
  }

  /**
   * No entry occurs twice and no two entries share an identifier. Stated on the
   * multiset of entries, so every permutation of `s` satisfies it as well.
   */
  ghost predicate DistinctIds(s: seq<Anime>) {
    forall a, b :: a in multiset(s) && b in multiset(s) && a.malId == b.malId ==>
      a == b && multiset(s)[a] == 1
  }
}
