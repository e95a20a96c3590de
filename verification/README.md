# Anime discovery session — a Dafny model

The client in `js/app.js` shows one anime at a time from a queue of candidates fetched
from a catalog search endpoint. The user saves the displayed entry or marks it as seen.
The saved and seen collections and a filter record (genres, a year range, a minimum
score) are kept in local storage.

This project models the logic behind that card:

- **Query building.** The search parameters are built from the filter record (`Query`).
  The number-to-text rendering and the comma join of genre identifiers are in `Decimal`.
- **Selection.** A fetched batch drops every entry whose identifier is already saved or
  seen. When nothing survives, a broader request without filters is tried (`Selection`).
- **Shuffle.** The Fisher–Yates shuffle runs on an array copy (`Shuffle`).
- **Triage.** The check-then-append operations on the saved and seen collections are in
  `Triage`.
- **Session.** The `Discovery.Session` class holds the queue, the displayed entry, the
  two collections and the filters. Its methods are `loadAnimeQueue`, `displayNextAnime`,
  `saveAnime`, `markAsSeen`, and the apply and reset handlers of the filter panel. The queue
  and triage methods are proved against functions on values: `Select`, `AfterLoad`,
  `Next` and `Remember`. The filter methods state the new state directly.

Environment inputs are passed in as parameters:

- **`fetch`.** An `Api` function from a query to a response (`Ok(data)` or `HttpError`).
- **`Math.random`.** The random values come in as `Roll`s, reals in `[0, 1)`, grouped in
  a `Draws` record.
- **`localStorage`.** Modelled as ghost fields holding the last value written under each
  key. The predicate `Persisted` states that memory agrees with storage.

The main invariant, `Untriaged` (`Session.Pending` on the object), says three things:

- no queued entry is saved or seen;
- queued identifiers are distinct;
- the displayed entry is not queued again.

When each fetched batch has distinct identifiers, every handler preserves it: display,
save, mark, apply and reset. A load on its own may queue the displayed entry again, so
`LoadAnimeQueue` does not promise it; showing the next entry restores it.

Behaviour of the code worth knowing:

- The reset handler only restores and stores the default filters. It does not clear or
  reload the queue.
- A load replaces the queue rather than appending to it.
- When the filtered batch is empty, the queue is already empty before the broader
  request is sent. So a failure of that second request leaves an empty queue, not the
  old one.
- A broader request that succeeds but yields nothing eligible counts as a successful
  load. In the apply handler, `displayNextAnime` then finds the queue empty and loads
  once more (js/app.js:389-390, 200-202) before the card can show "no more anime".

## Model

| member | source | states |
|---|---|---|
| Randomness.RandomIndex | js/app.js:436 | `Math.floor(Math.random() * n)` lies in 0 .. n-1 |
| Query.PrimaryPage | js/app.js:145 | the page of the filtered request lies in 1..5 |
| Query.BroadPage | js/app.js:173 | the page of the broader request lies in 1..10 |
| Query.PagingParams | js/app.js:141-145 | the fixed tail `Paging(page)` has sort=score, order_by=desc, limit=25 and the page, in that order, and no filter key |
| Query.Truthy | js/app.js:129-133 | definition: JavaScript truthiness of a number-or-null year (`null`/`NaN` as `None`, and 0, are false); its use is stated by `SearchQueryParams` |
| Query.SearchQuery | js/app.js:121-145 | the parameters of the filtered request: genres, start_date, end_date and min_score each appended under its condition, then the fixed paging tail; its properties are stated by the two lemmas below |
| Query.SearchQueryParams | js/app.js:121-145 | genres is present iff the genre list is non-empty, with the ids comma-joined. start_date is present iff yearMin is truthy, with value `<yearMin>-01-01`. end_date is present iff yearMax is truthy, with value `<yearMax>-12-31`. min_score is present iff scoreMin > 0. sort, order_by, limit and page are always present with their fixed values |
| Query.SearchQueryKeyOrder | js/app.js:121-145 | each key occurs at most once, in the order genres, start_date, end_date, min_score, sort, order_by, limit, page |
| Query.BroadQuery | js/app.js:169-173 | the broader request is the filtered request for the default filter record: no genres, start_date, end_date or min_score key |
| Decimal.IntToDecimal | js/app.js:130-138 | the rendering of an integer starts with '-' exactly for negatives, has at least one digit after the sign, only digits after it, and no leading zero |
| Decimal.ParseIntToDecimal | js/app.js:130-138 | reading back the rendering of an integer gives the integer |
| Decimal.NatToDecimal | js/app.js:138 | the rendering of a natural number is a non-empty string of digits with no leading zero |
| Decimal.JoinIds | js/app.js:125 | `ids.join(',')` of the genre ids; the text is empty exactly when the list is |
| Decimal.SplitJoin | js/app.js:125 | splitting a comma join of comma-free parts gives the parts back |
| Decimal.JoinIdsRoundTrip | js/app.js:125 | the genres value `ids.join(',')` of a non-empty list decodes back to the same list |
| Shuffle.ShuffleDownPermutes | js/app.js:435-438 | the swapping passes from index i down to 1 permute the sequence |
| Shuffle.Shuffled | js/app.js:433-440 | the sequence the shuffle returns for given random values: the passes from the last index down to 1, each swapping index i with `floor(r * (i + 1))`; same length as the input |
| Shuffle.ShuffledPermutes | js/app.js:433-440 | whatever the random values, the shuffle returns a permutation of its input |
| Shuffle.ShuffleArray | js/app.js:433-440 | the loop over the array copy computes `Shuffled` of the input, so the result is a permutation of the input of the same length, and the input itself is not changed |
| Selection.Unseen | js/app.js:160-163 | the filter keeps every copy of each entry whose id is neither saved nor seen, drops all others, and keeps the fetched relative order |
| Selection.UnseenKeepsDistinct | js/app.js:160-163 | filtering a batch with distinct ids leaves the ids distinct |
| Selection.Select | js/app.js:116-186 | the filtered request is issued first. The broader request is issued iff the first succeeded and nothing in it is eligible. The load fails iff the last request fails. Otherwise the candidates are the eligible entries of the last batch. An empty result means both requests were made |
| Selection.SelectKeepsDistinct | js/app.js:160-185 | when every batch has distinct ids, so do the selected candidates |
| Triage.Remember | js/app.js:248-257 | the list grows by one entry iff an entry is displayed and its id is not yet listed, and then the displayed entry is appended at the end. Afterwards the displayed id is listed, exactly the old ids plus that one are listed, and distinct ids stay distinct |
| Triage.RememberIdempotent | js/app.js:252 | triaging the same entry twice changes nothing the second time |
| Discovery.AfterLoad | js/app.js:160-189 | the queue after a load: the shuffled candidates on success; on failure the old queue if the first request failed and the empty queue if the broader one did |
| Discovery.AfterLoadShape | js/app.js:160-189 | a successful load queues a permutation of the candidates; a failed one leaves the old queue or the empty queue |
| Discovery.Next | js/app.js:199-214 | the queue, displayed entry and card after asking for the next entry: pop the front, loading first when the queue is empty |
| Discovery.NextPops | js/app.js:199-214 | a non-empty queue is popped without fetching; a shown entry becomes the displayed one; on a load error or "no more anime" the displayed entry stays and the queue is empty |
| Discovery.PopKeepsDistinct | js/app.js:214 | `shift` on a queue with distinct ids leaves no entry sharing the popped id |
| Discovery.LoadedUntriaged | js/app.js:160-189 | a successful load queues only eligible entries, with distinct ids when the batches have them |
| Discovery.NextShowsEligible | js/app.js:199-214 | an entry shown next from a queue of eligible entries is neither saved nor seen |
| Discovery.NextKeepsUntriaged | js/app.js:199-214 | showing the next entry restores the freshness invariant from any eligible queue with distinct ids |
| Discovery.RememberKeepsUntriaged | js/app.js:248-269 | saving or marking the displayed entry keeps the freshness invariant |
| Discovery.Session.constructor | js/app.js:49-59 | the queue is empty, nothing is displayed, and the collections and filters are the stored values or their defaults |
| Discovery.Session.LoadAnimeQueue | js/app.js:116-196 | issues the requests of `Select`. Succeeds iff `Select` does. The new queue is the shuffled candidates on success; on failure it is the old queue if the first request failed and empty otherwise. A loaded queue is eligible, with distinct ids when batches have them |
| Discovery.Session.DisplayNextAnime | js/app.js:199-214 | the new queue, displayed entry and card are those of `Next`. A shown entry is eligible, and the freshness invariant holds afterwards |
| Discovery.Session.SaveAnime | js/app.js:248-257 | the saved collection becomes `Remember` of the old one. Storage is written exactly when the collection changed. The freshness invariant and the storage agreement are kept |
| Discovery.Session.MarkAsSeen | js/app.js:260-269 | the seen collection becomes `Remember` of the old one. Storage is written exactly when the collection changed. The freshness invariant and the storage agreement are kept |
| Discovery.Session.StoreFilters | js/app.js:377-385 | the filter record is replaced and written to storage, and nothing else changes |
| Discovery.Session.Reload | js/app.js:388-390 | loads, and on success shows the next entry. The outcome and the new state are those of `AfterLoad` followed by `Next`. A failed load shows nothing |
| Discovery.Session.ApplyFilters | js/app.js:372-396 | replaces and stores the filters, then reloads under the new filters and shows the next entry on success. The freshness invariant and the storage agreement are kept |
| Discovery.Session.ResetFilters | js/app.js:398-418 | restores and stores the default filter record. The queue and the displayed entry are unchanged |

## Left out

- The DOM is not modelled: the card, lists, modal, genre tags, and the text and images shown. A `Display` value records which of the three card states results.
- `fetch` and JSON decoding are not modelled; the `Api` function gives each request one response. Status text, thrown error messages and `console` output are dropped.
- URL serialisation and percent-encoding of `URLSearchParams` are left out. A query is the ordered list of appended key/value pairs.
- Parsing of corrupt local-storage JSON is left out. Stored values are ghost fields and the start-up values are constructor parameters.
- The uniformity of `Math.random` and of the shuffle cannot be stated over reals given as parameters. Only the range of each draw and the permutation property are proved.
- Query.SearchQuery: `scoreMin` is an integer. The slider value goes through `parseFloat`, and a fractional score and its decimal rendering are not modelled.
- Reading the filter form in the apply handler is not modelled: `parseInt` of the year inputs and of the selected genre options. The resulting record is a parameter of `ApplyFilters`.
- `Anime` keeps only `mal_id` and a title; the other fields are only displayed.
- `loadGenres`, `populateGenreSelect`, `applyStoredFilters`, `init`, the saved/seen list rendering and the event wiring are outside the queue logic and are not modelled.
- Asynchronous interleaving is not modelled. Handlers run one at a time to completion, so a click during a pending fetch is not represented. `displayNextAnime` is not awaited by the apply handler, and this is modelled as running to completion before the next event.
- Discovery.Session.DisplayNextAnime: freshness of the new queue is proved only when every fetched batch lists each id at most once (`DistinctBatches`). A batch with a repeated id would queue that entry twice, as the client does.
- Decimal.IntToDecimal: writes the exact decimal digits of any integer. JavaScript agrees only for integers a double represents exactly and below 10^21 in magnitude; larger years or scores render in exponent form (`1e+21`) or rounded, which the model does not capture.
