/** The search parameters of the catalog request, built from the filter record. */
module Query {
  import opened Catalog
  import opened Decimal
  import opened Randomness
  import opened Sequences

  /**
   * The parameter names the client sends: genres, start_date, end_date,
   * min_score, sort, order_by, limit and page.
   */
  datatype Key = Genres | StartDate | EndDate | MinScore | Sort | OrderBy | Limit | Page

  datatype Param = Param(key: Key, value: string)

  /** The appended parameters of a `URLSearchParams`, in order. */
  type Query = seq<Param>

  /** The order in which the client appends the keys. */
  const KeyOrder: seq<Key> := [Genres, StartDate, EndDate, MinScore, Sort, OrderBy, Limit, Page]

  /** `params.get(k)`: the value of the first parameter named k. */
  function Lookup(q: Query, k: Key): Option<string> {
    if q == [] then None else if q[0].key == k then Some(q[0].value) else Lookup(q[1..], k)
  }

  function Keys(q: Query): (ks: seq<Key>)
    ensures |ks| == |q|
  {
    if q == [] then [] else [q[0].key] + Keys(q[1..])
  }

  /** JavaScript truthiness of a year: `null`, `NaN` and 0 are false. */
  predicate Truthy(year: Option<int>) {
    year.Some? && year.value != 0
  }

  /** `Math.floor(Math.random() * 5) + 1`. */
  function PrimaryPage(roll: Roll): (page: int)
    ensures 1 <= page <= 5
  {
    RandomIndex(roll, 5) + 1
  }

  /** `Math.floor(Math.random() * 10) + 1`. */
  function BroadPage(roll: Roll): (page: int)
    ensures 1 <= page <= 10
  {
    RandomIndex(roll, 10) + 1
  }

  /** The fixed tail of every request: best score first, 25 per page, the given page. */
  function Paging(page: int): Query {
    [Param(Sort, "score"), Param(OrderBy, "desc"), Param(Limit, "25"), Param(Page, IntToDecimal(page))]
  }

  /** Prepends p when c holds. */
  function With(c: bool, p: Param, q: Query): Query {
    if c then [p] + q else q
  }

  /** The parameters of the filtered search request. */
  function SearchQuery(f: Filters, page: int): Query {
    With(|f.genres| > 0, Param(Genres, JoinIds(f.genres)),
    With(Truthy(f.yearMin), Param(StartDate, IntToDecimal(f.yearMin.GetOr(0)) + "-01-01"),
    With(Truthy(f.yearMax), Param(EndDate, IntToDecimal(f.yearMax.GetOr(0)) + "-12-31"),
    With(f.scoreMin > 0, Param(MinScore, IntToDecimal(f.scoreMin)),
    Paging(page)))))
  }

  /** The parameters of the broader fallback request: no genre, date or score constraint. */
  function BroadQuery(page: int): (q: Query)
    ensures q == SearchQuery(DefaultFilters(), page)
    ensures Lookup(q, Genres).None? && Lookup(q, StartDate).None?
    ensures Lookup(q, EndDate).None? && Lookup(q, MinScore).None?
  {
    PagingParams(page);
    assert KeyOrder[..4] == [Genres, StartDate, EndDate, MinScore];
    Paging(page)
  }

  lemma LookupWith(c: bool, p: Param, q: Query)
    ensures forall k :: Lookup(With(c, p, q), k) == if c && p.key == k then Some(p.value) else Lookup(q, k)
  {
    if c {
      assert ([p] + q)[1..] == q;
    }
  }

  lemma KeysWith(c: bool, p: Param, q: Query)
    ensures Keys(With(c, p, q)) == if c then [p.key] + Keys(q) else Keys(q)
  {
    if c {
      assert ([p] + q)[1..] == q;
    }
  }

  /** The fixed tail, looked up key by key. */
  lemma PagingParams(page: int)
    ensures Lookup(Paging(page), Sort) == Some("score")
    ensures Lookup(Paging(page), OrderBy) == Some("desc")
    ensures Lookup(Paging(page), Limit) == Some("25")
    ensures Lookup(Paging(page), Page) == Some(IntToDecimal(page))
    ensures forall k :: k in KeyOrder[..4] ==> Lookup(Paging(page), k).None?
    ensures Keys(Paging(page)) == KeyOrder[4..]
  {
    var a, b, c, d := Param(Sort, "score"), Param(OrderBy, "desc"), Param(Limit, "25"), Param(Page, IntToDecimal(page));
    assert Paging(page) == With(true, a, With(true, b, With(true, c, With(true, d, []))));
    LookupWith(true, a, With(true, b, With(true, c, With(true, d, []))));
    LookupWith(true, b, With(true, c, With(true, d, [])));
    LookupWith(true, c, With(true, d, []));
    LookupWith(true, d, []);
    KeysWith(true, a, With(true, b, With(true, c, With(true, d, []))));
    KeysWith(true, b, With(true, c, With(true, d, [])));
    KeysWith(true, c, With(true, d, []));
    KeysWith(true, d, []);
  }

  /**
   * The rules of the filtered request: each optional key is present exactly when its
   * filter is set, with the client's value; sort, order, limit and page are always
   * present.
   */
  lemma {:induction false} SearchQueryParams(f: Filters, page: int)
    ensures Lookup(SearchQuery(f, page), Genres) ==
      if |f.genres| > 0 then Some(JoinIds(f.genres)) else None
    ensures Lookup(SearchQuery(f, page), StartDate) ==
      if Truthy(f.yearMin) then Some(IntToDecimal(f.yearMin.value) + "-01-01") else None
    ensures Lookup(SearchQuery(f, page), EndDate) ==
      if Truthy(f.yearMax) then Some(IntToDecimal(f.yearMax.value) + "-12-31") else None
    ensures Lookup(SearchQuery(f, page), MinScore) ==
      if f.scoreMin > 0 then Some(IntToDecimal(f.scoreMin)) else None
    ensures Lookup(SearchQuery(f, page), Sort) == Some("score")
    ensures Lookup(SearchQuery(f, page), OrderBy) == Some("desc")
    ensures Lookup(SearchQuery(f, page), Limit) == Some("25")
    ensures Lookup(SearchQuery(f, page), Page) == Some(IntToDecimal(page))
  {
    var q4 := Paging(page);
    var p3 := Param(MinScore, IntToDecimal(f.scoreMin));
    var q3 := With(f.scoreMin > 0, p3, q4);
    var p2 := Param(EndDate, IntToDecimal(f.yearMax.GetOr(0)) + "-12-31");
    var q2 := With(Truthy(f.yearMax), p2, q3);
    var p1 := Param(StartDate, IntToDecimal(f.yearMin.GetOr(0)) + "-01-01");
    var q1 := With(Truthy(f.yearMin), p1, q2);
    var p0 := Param(Genres, JoinIds(f.genres));
    assert SearchQuery(f, page) == With(|f.genres| > 0, p0, q1);
    PagingParams(page);
    assert KeyOrder[..4] == [Genres, StartDate, EndDate, MinScore];
    assert Genres in KeyOrder[..4] && StartDate in KeyOrder[..4];
    assert EndDate in KeyOrder[..4] && MinScore in KeyOrder[..4];
    LookupWith(|f.genres| > 0, p0, q1);
    LookupWith(Truthy(f.yearMin), p1, q2);
    LookupWith(Truthy(f.yearMax), p2, q3);
    LookupWith(f.scoreMin > 0, p3, q4);
  }

  /** Every key of the filtered request occurs at most once, in the client's order. */
  lemma {:induction false} SearchQueryKeyOrder(f: Filters, page: int)
    ensures IsSubsequence(Keys(SearchQuery(f, page)), KeyOrder)
  {
    var q4 := Paging(page);
    var p3 := Param(MinScore, IntToDecimal(f.scoreMin));
    var q3 := With(f.scoreMin > 0, p3, q4);
    var p2 := Param(EndDate, IntToDecimal(f.yearMax.GetOr(0)) + "-12-31");
    var q2 := With(Truthy(f.yearMax), p2, q3);
    var p1 := Param(StartDate, IntToDecimal(f.yearMin.GetOr(0)) + "-01-01");
    var q1 := With(Truthy(f.yearMin), p1, q2);
    var p0 := Param(Genres, JoinIds(f.genres));
    assert SearchQuery(f, page) == With(|f.genres| > 0, p0, q1);
    PagingParams(page);
    KeysWith(|f.genres| > 0, p0, q1);
    KeysWith(Truthy(f.yearMin), p1, q2);
    KeysWith(Truthy(f.yearMax), p2, q3);
    KeysWith(f.scoreMin > 0, p3, q4);
    SubsequenceRefl(KeyOrder[4..]);
    assert KeyOrder[3..][1..] == KeyOrder[4..];
    assert IsSubsequence(Keys(q3), KeyOrder[3..]);
    assert KeyOrder[2..][1..] == KeyOrder[3..];
    assert IsSubsequence(Keys(q2), KeyOrder[2..]);
    assert KeyOrder[1..][1..] == KeyOrder[2..];
    assert IsSubsequence(Keys(q1), KeyOrder[1..]);
    assert KeyOrder[0..][1..] == KeyOrder[1..];
    assert KeyOrder[0..] == KeyOrder;
  }
}
