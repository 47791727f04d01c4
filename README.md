# mongoose-search-plugin, modelled in Dafny

The plugin adds full-text search to a mongoose schema. When the plugin is
installed, every document gets a keyword attribute (by default `_keywords`).
This attribute holds the stemmed, de-duplicated words of the configured source
fields. A pre-save hook keeps it current, and the static `setKeywords` rebuilds
it for a whole collection. The static `search(query, fields, options, callback)`
works in these steps:

1. It stems the query.
2. It looks the stems up in a `SearchResult` cache collection.
3. On a miss, it fetches every document whose keywords share a stem with the
   query. Unless a `sort` option is given, it ranks them by relevance: a
   double sum of string distances above 0.5.
4. It stores the ranked ids in the cache.
5. It cuts a page out of the ids with `skip`/`limit`.
6. It fetches that page (by `find` or by an aggregation pipeline). Unless a
   `sort` was given, it puts the page back in ranked order.

The model is organised in modules:

- `Sequences`: `_.unique`, `join`, `indexOf` and `slice`.
- `StableSort`: `_.sortBy`.
- `Plugin`: the install options.
- `Keywords`: keyword extraction. Documents are a class whose methods update
  their fields in place.
- `Relevance`: scoring, as looping methods proved equal to recursive
  specification functions.
- `SearchCache`: the cache collection, a class holding a sequence of entries.
- `Arguments`: the argument-count dispatch.
- `Search`: the search pipeline.
- `CacheBehaviour`: what two consecutive searches observe of the cache.

The document store's answers are parameters (`SearchIo`). The requests the
search sends are returned as a log of `DbCall` values.

Two behaviours of the code are reproduced as written:

- `findResult` adds the keyword clause to the caller's own `options.conditions`
  object. The entry it then stores carries that mutated fingerprint, so a new
  options object with the same conditions misses the cache again, while the
  same object reused hits it. See `SearchCache.StoredConditionsDiffer` and the
  `CacheBehaviour` methods.
- A lookup without conditions has no `conditions` key, so it matches a cached
  entry whatever that entry's conditions are (`SearchCache.Matches`).

## Model

| member | source | states |
|---|---|---|
| Arguments.Dispatch | index.js:36-47 | with 2 arguments the second is the callback, with 3 the third, both with a new `{}` as options; otherwise the fourth is the callback and options are the third argument exactly when it is truthy, else `{}`; `fields` is always the second argument |
| Arguments.CallShapes | index.js:36-47 | the three call shapes side by side, each following directly from `Dispatch`'s definition; in the two-argument shape `fields` still holds the callback |
| Sequences.Unique | index.js:50 | the result has no duplicates and holds exactly the elements of the input, never more of them than the input |
| Sequences.UniqueOfDistinct | index.js:232 | de-duplicating a duplicate-free sequence returns it unchanged |
| Sequences.UniqueKeepsPrefix | index.js:50 | de-duplication keeps first occurrences: the result for a prefix is a prefix of the result for the whole |
| Sequences.Join | index.js:228 | defines `parts.join(sep)`: the parts with one separator between neighbours, `''` for no parts |
| Sequences.JoinAppend | index.js:228 | joining a concatenation is joining each part with one separator between |
| Sequences.IndexOf | index.js:74 | the position of the first occurrence, or -1 exactly when absent |
| Sequences.JsSlice | index.js:62 | `slice(start, end)` with negative positions counted from the end and positions clamped: a contiguous run from the clamped start, of length clamped end minus clamped start or 0 |
| StableSort.SortBy | index.js:140-144 | `_.sortBy` by a key, defined as insertion of each element before the first later-sorted one whose key is not smaller; keeps the length |
| StableSort.SortByCorrect | index.js:140-144 | `_.sortBy` returns a permutation of its input ordered by non-decreasing key, keeping input order among equal keys |
| Plugin.Install | index.js:21-26 | the configured fields, stemmer and distance are used; each attribute name is the given one, or `_keywords` and `_relevance` when none is given |
| Keywords.FieldText | index.js:222-231 | defines one field's contribution: a string as is, an array joined with spaces, anything else `''` |
| Keywords.FieldTexts | index.js:221-231 | one contribution per configured field, the i-th being the contribution of the i-th configured field |
| Keywords.ProcessKeywords | index.js:219-233 | the keywords are duplicate-free and are exactly the stems of the joined field texts |
| Keywords.KeywordTextInFieldOrder | index.js:221-232 | the field texts appear in configured field order, separated by one space |
| Keywords.KeywordsDependOnConfiguredFields | index.js:219-233 | documents agreeing on the configured fields get the same keywords |
| Keywords.Document.constructor | index.js:235-238 | a new document is new, has no modified fields and no keywords yet |
| Keywords.Document.Set | index.js:238-240 | setting a field to a different value marks it modified; nothing else changes; a document with current keywords keeps its invariant, and a stale one may be edited too |
| Keywords.Document.NeedsKeywords | index.js:238-240 | defines the hook's condition: the document is new or some configured field is marked modified |
| Keywords.Document.UpdateKeywords | index.js:215-217 | the keyword attribute becomes the keywords of the current field values |
| Keywords.Document.PreSave | index.js:235-244 | keywords are recomputed exactly when the document is new or a configured field is modified; otherwise they are unchanged; either way a valid document leaves with current keywords |
| Keywords.Document.Save | index.js:235-244 | a save runs the hook, persists values and keywords on success (which then agree, unless the document already had stale keywords and no configured field was modified), and clears the new and modified flags; a failed save keeps the flags |
| Keywords.EditAndSave | index.js:235-244 | editing a configured field of any document, even one with stale keywords, and saving it recomputes its keywords; on success the persisted keywords match the persisted values |
| Keywords.RebuildOne | index.js:201-207 | one document of the rebuild: keywords recomputed unconditionally, field values untouched, persisted keywords current when its save succeeds |
| Keywords.SetKeywords | index.js:191-213 | a fetch error is reported once and nothing changes; otherwise every document is rebuilt and saved in order, each save reported, and completion reported exactly once at the end without error, also when saves fail or the collection is empty |
| Relevance.Contribution | index.js:176-183 | a pair contributes something exactly when its distance exceeds 0.5, and then exactly that distance; never a negative amount |
| Relevance.TokenScore | index.js:175-187 | a token's relevance is never negative |
| Relevance.Score | index.js:166-173 | a document's relevance is never negative |
| Relevance.TokenRelevance | index.js:175-187 | the accumulation loop computes the token's relevance |
| Relevance.ProcessRelevance | index.js:166-173 | the accumulation loop computes the document's relevance |
| Relevance.TokenScoreZero | index.js:175-187 | a token's relevance is 0 exactly when no document token is more than 0.5 close to it |
| Relevance.ScoreZero | index.js:166-187 | relevance is 0 exactly when no (query token, document token) pair exceeds 0.5, in particular for no query tokens |
| Relevance.TokenScoreSplit | index.js:179-184 | a token's relevance over concatenated keyword lists is the sum of the parts |
| Relevance.ScoreSplit | index.js:166-187 | relevance is additive over the document's keywords |
| Relevance.AddingKeywordNeverLowers | index.js:166-187 | adding a keyword to a document never lowers its relevance |
| Relevance.TokenScoreBound | index.js:175-187 | with distances at most 1, a token's relevance is at most the number of document tokens |
| Relevance.ScoreBound | index.js:166-187 | with distances at most 1, relevance is at most query tokens times document tokens |
| SearchCache.FingerprintOf | index.js:114-116 | a fingerprint is present exactly when conditions are |
| SearchCache.Matches | index.js:109-119 | defines when a stored entry matches a lookup filter: same collection and stems, and the same fingerprint only when the filter has a `conditions` key |
| SearchCache.FirstMatch | index.js:119-122 | `findOne` finds nothing exactly when no entry matches, else the earliest matching entry |
| SearchCache.FirstMatchAppend | index.js:158-161 | storing an entry changes only lookups that found nothing, and those find it exactly when it matches |
| SearchCache.StoredResultIsFound | index.js:109-122 | after an unconditioned miss and a store under the same model and stems, the same lookup finds the stored entry, whatever conditions it carries |
| SearchCache.StoredConditionsDiffer | index.js:131-155 | an entry stored with the keyword clause added to the conditions is never found by a lookup with the original conditions |
| SearchCache.SearchResultStore.constructor | index.js:19 | a store handle with no entries, a convenience for building examples; the source's collection persists between runs and no property depends on it starting empty |
| SearchCache.SearchResultStore.FindOne | index.js:119-122 | a store error is returned as is; otherwise the first matching entry, or none when no entry matches |
| SearchCache.SearchResultStore.Save | index.js:158-161 | a successful save appends the entry; a failed one changes nothing |
| Search.SearchOptions.Empty | index.js:39 | the literal `{}`: no sort, skip, limit, conditions, aggregate or populate |
| Search.ResolveOptions | index.js:39-45 | an object argument is used itself, so the search writes to the caller's object; anything else becomes a new `{}` |
| Search.Ids | index.js:147 | `_.pluck(docs, '_id')` keeps the candidates' order |
| Search.Scored | index.js:139-143 | each candidate gets the relevance of its keywords and nothing else changes |
| Search.Ranked | index.js:139-145 | the ranking has one entry per candidate, each a scored candidate |
| Search.CandidateOrder | index.js:139-145 | with a sort the candidates keep fetch order unchanged; without, every candidate carries the relevance of its keywords; the count is kept |
| Search.RankedProperties | index.js:139-145 | the ranking is a permutation of the scored candidates, each carrying its relevance, in non-increasing relevance order, fetch order kept among equal relevance |
| Search.Rank | index.js:139-145 | the scoring loop followed by the sort computes the ranking |
| Search.CacheKey | index.js:109-116 | the lookup key is model name and stems, with a conditions fingerprint exactly when conditions are given |
| Search.CandidateFilter | index.js:131-133 | the candidate filter is the caller's conditions (or `{}`) with the keyword attribute required to hold one of the stems, nothing else added or dropped |
| Search.GetSearchResult | index.js:107-164 | a lookup error is returned alone; a hit returns the stored ids with no further request and no store; a miss queries the candidates with the keyword clause (added to the caller's conditions object when it has one), fails alone on a find or store error, and otherwise appends exactly one entry holding the ranked (or, with a sort, fetched-order) ids, under the mutated fingerprint, and returns those ids |
| Search.Paginate | index.js:59-63 | without skip or limit the ids are untouched; otherwise skip and limit get their defaults and the page is the ids from skip on, of length min(limit, max(0, count - skip)) |
| Search.DocIds | index.js:73-75 | the `_id` of each fetched document, in order, as the reorder key reads it |
| Search.Reorder | index.js:73-75 | the reordered page is a permutation of the fetched documents |
| Search.ReorderProperties | index.js:70-76 | the reordered page is a permutation of the fetched documents in non-decreasing position in the page ids, fetch order kept among equal positions |
| Search.ReorderRestoresPageOrder | index.js:70-76 | when the fetched documents are exactly the page ids, each once, the reordered page lists them in page order |
| Search.PageRequest | index.js:81-104 | with `aggregate` a pipeline that starts with the id match and a limit to the page size, followed by the caller's stages; otherwise a find on the id clause extended by the conditions, with the given projection, sort and populate paths |
| Search.FetchResults | index.js:59-104 | skip and limit get their pagination values, the request asks for the paginated ids with the current options, a page error is returned alone, and on success `totalCount` is the full id count and the results are the fetched page as is with a sort, reordered by page position without |
| Search.Search | index.js:49-105 | `tokens` are the query's distinct stems and `hit` the cache's answer to the lookup; the first request is the cache lookup; the caller's conditions object gains the keyword clause exactly when the lookup misses and conditions were given, and that altered object is what the stored fingerprint and the page filter use; when the cache step fails the call fails with exactly the step's error (lookup, candidate find or cache write), after one, two or three requests, with the cache and skip and limit untouched and no page fetched; a cache hit makes two requests and a miss four; on a miss the second request is the candidate find on the conditions extended with the keyword `$in` clause, and after a successful find the third stores the ranked ids under the (possibly altered) conditions' fingerprint; otherwise skip and limit get their pagination values, the page request asks for the paginated ids, a page error is returned alone, and on success `totalCount` is the full id count whatever skip and limit are, the ids are the cached ones or those the miss stored, and the results are the fetched page as is with a sort, reordered by page position without; every failure carries an error the store reported |
| CacheBehaviour.RepeatedSearchHitsCache | index.js:107-161 | without conditions, a repeated search is answered by one cache lookup with identical ids |
| CacheBehaviour.ConditionedRepeatMisses | index.js:114-156 | repeating a search with equal conditions in a new options object misses the cache and queries the candidates again |
| CacheBehaviour.ReusedOptionsHit | index.js:129-161 | repeating a search with the same options object hits the cache with identical ids |

## Left out

- Document store I/O is not modelled as a database. This covers `find`, `findOne`, `save`, `aggregate`, `populate`, the cursor and the callbacks. Each answer is a parameter; each request is a `DbCall` value.
- The cache's one-hour expiry (index.js:14) is left out: the database removes old entries, not this code.
- Schema mutation and index declarations (index.js:17, 28-33) are left out: they only configure the database.
- The Porter stemmer and Jaro-Winkler distance are function parameters of `Plugin.Config`. The model says nothing about their results, except where a lemma requires distances at most 1.
- Floating point is not modelled: relevance is a `real`.
- `json-stable-stringify` is modelled as the injective constructor `SearchCache.Fingerprint`. It is assumed equal exactly for equal condition objects.
- The callback fan-out of `setKeywords` (`_.after`) is sequential in the model: saves complete in document order.
- The error log line of `setKeywords` (index.js:205) is left out.
- The contents of aggregation stages, populate projections and sort specifications are passed through and not interpreted.
- SearchCache.FirstMatch and SearchCache.SearchResultStore.FindOne: an unsorted `findOne` returns the first match in the collection's natural order, which MongoDB does not promise to be insertion order. The model assumes insertion order. Several entries can match one lookup: a lookup without conditions matches entries with any conditions, and searches with conditions in new options objects keep appending entries under the same altered fingerprint. `SearchCache.FirstMatchAppend` (a lookup that found an entry still finds it after another is stored) rests on this assumption.
- Search.Search: `skip` and `limit` are integers where 0 stands for every falsy value; non-integer, `NaN` and string values are not modelled.
- Search.Paginate: the page's length and contents are stated only for non-negative `skip` and `limit`; for negative ones only the `slice` arithmetic of `Sequences.JsSlice` is stated.
- Search.Reorder: ids are compared by value, so a document sorts by its id's position in the page. JavaScript `indexOf` on object ids compares references, so the code as run can put every document at -1 and keep fetch order.
- Search.Scored: the relevance set on a candidate document is not written back to the store; only the ranking uses it.
- Search.Search: when `search` is called with two arguments, the callback stays in `fields` and is passed to `find` as the projection. The model takes `fields` as a `Projection` value, so this case is not captured.
- Keywords.Document.Set: `isModified` is modelled per top-level field with value comparison; mongoose's nested-path rules are not.
- Keywords.FieldTexts: array items are taken as their string forms; how other item types print in `join` is not modelled.
