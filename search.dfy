/**
 * The static `search`: query stems, cache lookup, ranking of the candidates
 * on a miss, storing the ranked ids, pagination, fetching the page and putting
 * it back in ranked order. Calls to the document store are recorded as the
 * requests the search issues (`DbCall`); their answers are the parameters
 * collected in `SearchIo`.
 */
module Search {
  import opened Wrappers
  import opened Plugin
  import opened Sequences
  import opened StableSort
  import opened Relevance
  import opened SearchCache
  import opened Arguments

  /** A sort specification, passed through to the store. */
  type SortSpec = seq<(string, int)>

  /** The output field specification: all fields, or a projection such as `{title: 0}`. */
  datatype Projection = AllFields | Fields(spec: map<string, int>)

  /** An aggregation stage. */
  datatype Stage = MatchIds(ids: seq<Id>) | LimitTo(n: nat) | Custom(text: string)

  /** One `populate` instruction: a reference path and an optional projection. */
  datatype PopulateSpec = PopulateSpec(path: string, fields: Option<Projection>)

  /** How the page of documents is fetched. */
  datatype PageQuery =
    | AggregatePage(pipeline: seq<Stage>)
    | FindPage(filter: Conditions, projection: Projection, sort: Option<SortSpec>, populate: seq<PopulateSpec>)

  /** A request the search sends to the document store. */
  datatype DbCall =
    | FindCached(key: CacheFilter)
    | FindCandidates(filter: Conditions, sort: Option<SortSpec>)
    | StoreEntry(entry: CacheEntry)
    | FetchPage(query: PageQuery)

  /** A candidate fetched on a cache miss: its id, its keywords and the relevance set on it. */
  datatype Candidate = Candidate(id: Id, keywords: seq<Stem>, relevance: Option<real>)

  /** A fetched result document. */
  datatype ResultDoc = ResultDoc(id: Id, body: map<string, FieldValue>)

  /** The store's answers: lookup error, candidates, cache-write error, fetched page. */
  datatype SearchIo = SearchIo(
    lookupError: Option<DbError>,
    candidates: Result<seq<Candidate>, DbError>,
    storeError: Option<DbError>,
    page: Result<seq<ResultDoc>, DbError>)

  /** What the callback receives on success. */
  datatype SearchData = SearchData(totalCount: nat, results: seq<ResultDoc>)

  /**
   * The options object of one search. It belongs to the caller and `search`
   * writes to it. `limit` and `skip` hold 0 for every falsy value.
   */
  class SearchOptions {
    var sort: Option<SortSpec>
    var limit: int
    var skip: int
    var conditions: Option<Conditions>
    var aggregate: Option<seq<Stage>>
    var populate: Option<seq<PopulateSpec>>

    /** The literal `{}`. */
    constructor Empty()
      ensures sort == None && limit == 0 && skip == 0 && conditions == None
      ensures aggregate == None && populate == None
    {
      sort, limit, skip, conditions, aggregate, populate := None, 0, 0, None, None, None;
    }
  }

  /**
   * The options object after dispatch: the caller's object, or a new `{}`
   * (also for a truthy non-object, whose properties all read as undefined).
   */
  method ResolveOptions(arg: OptionsArg<SearchOptions>) returns (o: SearchOptions)
    ensures arg.Passed? && arg.value.Object? ==> o == arg.value.obj
    ensures !(arg.Passed? && arg.value.Object?) ==>
      fresh(o) && o.sort == None && o.limit == 0 && o.skip == 0 && o.conditions == None
      && o.aggregate == None && o.populate == None
  {
    if arg.Passed? && arg.value.Object? {
      o := arg.value.obj;
    } else {
      o := new SearchOptions.Empty();
    }
  }

  // ---------------------------------------------------------------- ranking

  /** `_.pluck(docs, '_id')`. */
  function Ids(docs: seq<Candidate>): (ids: seq<Id>)
    ensures |ids| == |docs| && forall i :: 0 <= i < |docs| ==> ids[i] == docs[i].id
  {
    seq(|docs|, i requires 0 <= i < |docs| => docs[i].id)
  }

  /** The sort key of the ranking: `-relevance`. */
  function NegRelevance(c: Candidate): real {
    -c.relevance.GetOr(0.0)
  }

  /** The candidates with their relevance set (`doc.set(relevancePath, relevance)`). */
  function Scored(distance: (Stem, Stem) -> real, tokens: seq<Stem>, docs: seq<Candidate>): (s: seq<Candidate>)
    ensures |s| == |docs|
    ensures forall i :: 0 <= i < |docs| ==>
      s[i] == docs[i].(relevance := Some(Score(distance, tokens, docs[i].keywords)))
  {
    seq(|docs|, i requires 0 <= i < |docs| => docs[i].(relevance := Some(Score(distance, tokens, docs[i].keywords))))
  }

  /** The ranking: a stable sort of the scored candidates by `-relevance`. */
  function Ranked(distance: (Stem, Stem) -> real, tokens: seq<Stem>, docs: seq<Candidate>): (r: seq<Candidate>)
    ensures |r| == |docs|
    ensures forall i :: 0 <= i < |r| ==> r[i] in Scored(distance, tokens, docs)
  {
    var s := Scored(distance, tokens, docs);
    SortByCorrect(s, NegRelevance);
    assert forall i :: 0 <= i < |SortBy(s, NegRelevance)| ==> SortBy(s, NegRelevance)[i] in multiset(s);
    SortBy(s, NegRelevance)
  }

  /** The candidate order findResult produces: ranked, unless a sort was requested. */
  function CandidateOrder(sort: Option<SortSpec>, distance: (Stem, Stem) -> real, tokens: seq<Stem>,
                          docs: seq<Candidate>): (r: seq<Candidate>)
    ensures |r| == |docs|
    ensures sort.Some? ==> r == docs
    ensures sort.None? ==> forall i :: 0 <= i < |r| ==> r[i].relevance == Some(Score(distance, tokens, r[i].keywords))
  {
    if sort.None? then
      RankedProperties(distance, tokens, docs);
      Ranked(distance, tokens, docs)
    else docs
  }

  /**
   * The ranking permutes the candidates, gives each the relevance of its
   * keywords, orders them by non-increasing relevance, and among equal
   * relevance keeps the fetch order.
   */
  lemma RankedProperties(distance: (Stem, Stem) -> real, tokens: seq<Stem>, docs: seq<Candidate>)
    ensures var r := Ranked(distance, tokens, docs);
      |r| == |docs|
      && multiset(r) == multiset(Scored(distance, tokens, docs))
      && (forall i :: 0 <= i < |r| ==> r[i].relevance == Some(Score(distance, tokens, r[i].keywords)))
      && (forall i, j :: 0 <= i < j < |r| ==>
            Score(distance, tokens, r[i].keywords) >= Score(distance, tokens, r[j].keywords))
      && (forall k :: WithKey(r, NegRelevance, k) == WithKey(Scored(distance, tokens, docs), NegRelevance, k))
  {
    var s := Scored(distance, tokens, docs);
    var r := Ranked(distance, tokens, docs);
    SortByCorrect(s, NegRelevance);
    forall i | 0 <= i < |r| ensures r[i].relevance == Some(Score(distance, tokens, r[i].keywords)) {
      assert r[i] in multiset(s);
      var p :| 0 <= p < |s| && s[p] == r[i];
    }
    forall i, j | 0 <= i < j < |r|
      ensures Score(distance, tokens, r[i].keywords) >= Score(distance, tokens, r[j].keywords)
    {
      assert NegRelevance(r[i]) <= NegRelevance(r[j]);
    }
  }

  /** findResult's ranking step: scores every candidate in a loop, then sorts. */
  method Rank(distance: (Stem, Stem) -> real, tokens: seq<Stem>, docs: seq<Candidate>)
    returns (ranked: seq<Candidate>)
    ensures ranked == Ranked(distance, tokens, docs)
  {
    var scored: seq<Candidate> := [];
    for i := 0 to |docs|
      invariant scored == Scored(distance, tokens, docs[..i])
    {
      var relevance := ProcessRelevance(distance, tokens, docs[i].keywords);
      scored := scored + [docs[i].(relevance := Some(relevance))];
    }
    assert docs[..|docs|] == docs;
    ranked := SortBy(scored, NegRelevance);
  }

  // ------------------------------------------------------------ the cache

  /** The cache lookup filter: model name, stems, and the stringified conditions if any. */
  function CacheKey(model: string, tokens: seq<Stem>, conditions: Option<Conditions>): (f: CacheFilter)
    ensures f.collection == model && f.query == tokens
    ensures f.conditions.Some? <==> conditions.Some?
  {
    CacheFilter(model, tokens, FingerprintOf(conditions))
  }

  /**
   * The candidate query: the caller's conditions (or a new `{}`) with the
   * keyword attribute required to contain one of the stems.
   */
  function CandidateFilter(conditions: Option<Conditions>, keywordsPath: string, tokens: seq<Stem>): (c: Conditions)
    ensures keywordsPath in c && c[keywordsPath] == InStems(tokens)
    ensures forall k :: k in c && k != keywordsPath ==> conditions.Some? && k in conditions.value && c[k] == conditions.value[k]
    ensures conditions.Some? ==> forall k :: k in conditions.value && k != keywordsPath ==> k in c
  {
    conditions.GetOr(map[])[keywordsPath := InStems(tokens)]
  }

  /**
   * `getSearchResult` with `findResult`: look the stems up in the cache; on a
   * miss fetch the candidates, rank them unless a sort was requested, store
   * their ids and answer with them. The caller's conditions object is the one
   * the keyword clause is added to, so the stored entry carries it.
   */
  method GetSearchResult(model: string, plugin: Config, store: SearchResultStore, tokens: seq<Stem>,
                         sort: Option<SortSpec>, options: SearchOptions, io: SearchIo)
    returns (r: Result<seq<Id>, DbError>, calls: seq<DbCall>)
    modifies store, options`conditions
    ensures |calls| >= 1 && calls[0] == FindCached(CacheKey(model, tokens, old(options.conditions)))
    ensures io.lookupError.Some? ==>
      r == Failure(io.lookupError.value) && |calls| == 1
      && store.entries == old(store.entries) && options.conditions == old(options.conditions)
    ensures io.lookupError.None? && FirstMatch(old(store.entries), CacheKey(model, tokens, old(options.conditions))).Some? ==>
      r == Success(FirstMatch(old(store.entries), CacheKey(model, tokens, old(options.conditions))).value.results)
      && |calls| == 1 && store.entries == old(store.entries) && options.conditions == old(options.conditions)
    ensures io.lookupError.None? && FirstMatch(old(store.entries), CacheKey(model, tokens, old(options.conditions))).None? ==>
      |calls| >= 2
      && calls[1] == FindCandidates(CandidateFilter(old(options.conditions), plugin.keywordsPath, tokens), sort)
      && options.conditions == if old(options.conditions).Some?
                               then Some(CandidateFilter(old(options.conditions), plugin.keywordsPath, tokens))
                               else None
    ensures io.lookupError.None? && FirstMatch(old(store.entries), CacheKey(model, tokens, old(options.conditions))).None?
            && io.candidates.Failure? ==>
      r == Failure(io.candidates.error) && |calls| == 2 && store.entries == old(store.entries)
    ensures io.lookupError.None? && FirstMatch(old(store.entries), CacheKey(model, tokens, old(options.conditions))).None?
            && io.candidates.Success? ==>
      var entry := CacheEntry(model, tokens, FingerprintOf(options.conditions),
                              Ids(CandidateOrder(sort, plugin.distance, tokens, io.candidates.value)));
      |calls| == 3 && calls[2] == StoreEntry(entry)
      && (io.storeError.Some? ==> r == Failure(io.storeError.value) && store.entries == old(store.entries))
      && (io.storeError.None? ==> r == Success(entry.results) && store.entries == old(store.entries) + [entry])
  {
    var filter := CacheKey(model, tokens, options.conditions);
    calls := [FindCached(filter)];
    var cached := store.FindOne(filter, io.lookupError);
    if cached.Failure? {
      return Failure(cached.error), calls;
    }
    if cached.value.Some? {
      return Success(cached.value.value.results), calls;
    }

    // findResult
    var conditions := CandidateFilter(options.conditions, plugin.keywordsPath, tokens);
    if options.conditions.Some? {
      options.conditions := Some(conditions);
    }
    calls := calls + [FindCandidates(conditions, sort)];
    if io.candidates.Failure? {
      return Failure(io.candidates.error), calls;
    }
    var docs := io.candidates.value;
    if sort.None? {
      docs := Rank(plugin.distance, tokens, docs);
    }
    var ids := Ids(docs);
    var entry := CacheEntry(model, tokens, FingerprintOf(options.conditions), ids);
    calls := calls + [StoreEntry(entry)];
    var ok := store.Save(entry, io.storeError);
    if !ok {
      return Failure(io.storeError.value), calls;
    }
    r := Success(ids);
  }

  // ------------------------------------------------------------ the page

  /** The options' skip and limit after pagination, and the page of ids. */
  datatype Window = Window(skip: int, limit: int, page: seq<Id>)

  function Min(a: int, b: int): int { if a < b then a else b }
  function Max(a: int, b: int): int { if a < b then b else a }

  /**
   * Pagination: only when limit or skip is truthy, skip defaults to 0 and
   * limit to what remains after skip, and the page is the slice they delimit.
   */
  function Paginate(ids: seq<Id>, skip: int, limit: int): (w: Window)
    ensures skip == 0 && limit == 0 ==> w == Window(0, 0, ids)
    ensures skip != 0 || limit != 0 ==>
      w.skip == skip && w.limit == if limit != 0 then limit else |ids| - skip
    ensures 0 <= skip && 0 <= limit ==>
      |w.page| == if limit > 0 then Min(limit, Max(0, |ids| - skip)) else Max(0, |ids| - skip)
    ensures 0 <= skip && 0 <= limit ==> forall i :: 0 <= i < |w.page| ==> w.page[i] == ids[skip + i]
  {
    if limit != 0 || skip != 0 then
      var l := if limit != 0 then limit else |ids| - skip;
      Window(skip, l, JsSlice(ids, skip, skip + l))
    else
      Window(skip, limit, ids)
  }

  /**
   * The ids of fetched documents, in order: the `doc._id` values the reorder
   * key reads. It serves to state `ReorderRestoresPageOrder`.
   */
  function DocIds(docs: seq<ResultDoc>): (ids: seq<Id>)
    ensures |ids| == |docs| && forall i :: 0 <= i < |docs| ==> ids[i] == docs[i].id
  {
    seq(|docs|, i requires 0 <= i < |docs| => docs[i].id)
  }

  /** The reordering key: `ids.indexOf(doc._id)`, -1 for a document not in the page. */
  function PagePosition(ids: seq<Id>): ResultDoc -> real {
    (d: ResultDoc) => IndexOf(ids, d.id) as real
  }

  /** The fetched page put in the order of the page's ids (stable). */
  function Reorder(ids: seq<Id>, docs: seq<ResultDoc>): (r: seq<ResultDoc>)
    ensures |r| == |docs| && multiset(r) == multiset(docs)
  {
    SortByCorrect(docs, PagePosition(ids));
    SortBy(docs, PagePosition(ids))
  }

  /**
   * The reordered page permutes the fetched documents, orders them by their
   * position in the page ids, and keeps fetch order among equal positions
   * (such as documents whose id is not in the page, which all come first).
   */
  lemma ReorderProperties(ids: seq<Id>, docs: seq<ResultDoc>)
    ensures var r := Reorder(ids, docs);
      |r| == |docs| && multiset(r) == multiset(docs)
      && (forall i, j :: 0 <= i < j < |r| ==> IndexOf(ids, r[i].id) <= IndexOf(ids, r[j].id))
      && (forall k :: WithKey(r, PagePosition(ids), k) == WithKey(docs, PagePosition(ids), k))
  {
    var r := Reorder(ids, docs);
    SortByCorrect(docs, PagePosition(ids));
    forall i, j | 0 <= i < j < |r| ensures IndexOf(ids, r[i].id) <= IndexOf(ids, r[j].id) {
      assert PagePosition(ids)(r[i]) <= PagePosition(ids)(r[j]);
    }
  }

  lemma {:induction false} CountTwice<T>(s: seq<T>, i: nat, j: nat)
    requires i < j < |s| && s[i] == s[j]
    ensures multiset(s)[s[i]] >= 2
  {
    assert s == s[..j] + s[j..];
    assert s[i] in s[..j];
    assert s[j..][0] == s[i];
  }

  lemma {:induction false} CountDistinct<T>(s: seq<T>, x: T)
    requires NoDuplicates(s)
    ensures multiset(s)[x] <= 1
    decreases |s|
  {
    if s != [] {
      assert s == [s[0]] + s[1..];
      CountDistinct(s[1..], x);
      if x == s[0] {
        assert x !in s[1..];
      }
    }
  }

  /** Some position of `k` holds `v`. */
  ghost predicate Hits(k: seq<int>, v: int) {
    exists a :: 0 <= a < |k| && k[a] == v
  }

  /** Strictly increasing positions in [0, n) that hit every position are 0, 1, ..., n-1. */
  lemma {:induction false} IdentityPositions(k: seq<int>, n: nat, i: nat)
    requires forall a, b :: 0 <= a < b < |k| ==> k[a] < k[b]
    requires forall a :: 0 <= a < |k| ==> 0 <= k[a] < n
    requires forall v :: 0 <= v < n ==> Hits(k, v)
    requires i < |k|
    ensures k[i] == i
    decreases i
  {
    if i > 0 {
      IdentityPositions(k, n, i - 1);
      assert k[i] > k[i - 1];
    }
    assert k[i] >= i;
    assert Hits(k, i);
    var a :| 0 <= a < |k| && k[a] == i;
    if a < i {
      IdentityPositions(k, n, a);
      assert false;
    } else if a > i {
      assert false;
    }
  }

  /** A permutation of documents with distinct ids has distinct ids and the same documents. */
  lemma PermutedDistinctIds(r: seq<ResultDoc>, docs: seq<ResultDoc>)
    requires multiset(r) == multiset(docs)
    requires NoDuplicates(DocIds(docs))
    ensures NoDuplicates(DocIds(r))
    ensures forall i :: 0 <= i < |r| ==> r[i] in docs
    ensures forall p :: 0 <= p < |docs| ==> docs[p] in r
  {
    forall i | 0 <= i < |r| ensures r[i] in docs {
      assert r[i] in multiset(docs);
    }
    forall p | 0 <= p < |docs| ensures docs[p] in r {
      assert docs[p] in multiset(r);
    }
    assert NoDuplicates(docs) by {
      forall p, q | 0 <= p < q < |docs| ensures docs[p] != docs[q] {
        assert DocIds(docs)[p] != DocIds(docs)[q];
      }
    }
    forall i, j | 0 <= i < j < |r| ensures DocIds(r)[i] != DocIds(r)[j] {
      var p :| 0 <= p < |docs| && docs[p] == r[i];
      var q :| 0 <= q < |docs| && docs[q] == r[j];
      if p == q {
        CountTwice(r, i, j);
        CountDistinct(docs, r[i]);
      } else {
        assert DocIds(docs)[p] != DocIds(docs)[q];
      }
    }
  }

  /** The position in `ids` of each document's id. */
  function Positions(ids: seq<Id>, docs: seq<ResultDoc>): (k: seq<int>)
    ensures |k| == |docs| && forall i :: 0 <= i < |docs| ==> k[i] == IndexOf(ids, docs[i].id)
  {
    seq(|docs|, i requires 0 <= i < |docs| => IndexOf(ids, docs[i].id))
  }

  /** Distinct elements of a sequence have distinct first positions. */
  lemma IndexOfDistinct(ids: seq<Id>, x: Id, y: Id)
    requires x in ids && y in ids && x != y
    ensures IndexOf(ids, x) != IndexOf(ids, y)
  {
  }

  lemma PositionsIncrease(ids: seq<Id>, r: seq<ResultDoc>)
    requires NoDuplicates(DocIds(r))
    requires forall i :: 0 <= i < |r| ==> r[i].id in ids
    requires forall i, j :: 0 <= i < j < |r| ==> IndexOf(ids, r[i].id) <= IndexOf(ids, r[j].id)
    ensures forall a, b :: 0 <= a < b < |r| ==> Positions(ids, r)[a] < Positions(ids, r)[b]
    ensures forall a :: 0 <= a < |r| ==> 0 <= Positions(ids, r)[a] < |ids|
  {
    forall a, b | 0 <= a < b < |r| ensures Positions(ids, r)[a] < Positions(ids, r)[b] {
      assert r[a].id != r[b].id by {
        assert DocIds(r)[a] != DocIds(r)[b];
      }
      IndexOfDistinct(ids, r[a].id, r[b].id);
    }
  }

  lemma PositionsCover(ids: seq<Id>, r: seq<ResultDoc>)
    requires forall v :: 0 <= v < |ids| ==> ids[v] in DocIds(r)
    requires NoDuplicates(ids)
    ensures forall v :: 0 <= v < |ids| ==> Hits(Positions(ids, r), v)
  {
    forall v | 0 <= v < |ids| ensures Hits(Positions(ids, r), v) {
      assert ids[v] in DocIds(r);
      var a :| 0 <= a < |DocIds(r)| && DocIds(r)[a] == ids[v];
      assert Positions(ids, r)[a] == v;
    }
  }

  /** Strictly increasing positions in [0, n) that hit every position are exactly 0, 1, ..., n-1. */
  lemma IdentityPositionsAll(k: seq<int>, n: nat)
    requires forall a, b :: 0 <= a < b < |k| ==> k[a] < k[b]
    requires forall a :: 0 <= a < |k| ==> 0 <= k[a] < n
    requires forall v :: 0 <= v < n ==> Hits(k, v)
    ensures |k| == n && forall i :: 0 <= i < |k| ==> k[i] == i
  {
    if |k| < n {
      assert Hits(k, n - 1);
      var a :| 0 <= a < |k| && k[a] == n - 1;
      IdentityPositions(k, n, a);
    } else if |k| > n {
      IdentityPositions(k, n, n);
    }
    forall i | 0 <= i < |k| ensures k[i] == i {
      IdentityPositions(k, n, i);
    }
  }

  /**
   * Documents with distinct ids, ordered by their position in a duplicate-free
   * list of ids and covering exactly those ids, list them in order.
   */
  lemma OrderedByPosition(ids: seq<Id>, r: seq<ResultDoc>)
    requires NoDuplicates(ids) && NoDuplicates(DocIds(r))
    requires forall i :: 0 <= i < |r| ==> r[i].id in ids
    requires forall v :: 0 <= v < |ids| ==> ids[v] in DocIds(r)
    requires forall i, j :: 0 <= i < j < |r| ==> IndexOf(ids, r[i].id) <= IndexOf(ids, r[j].id)
    ensures DocIds(r) == ids
  {
    PositionsAreIdentity(ids, r);
    IdsAtTheirPositions(ids, r);
  }

  /** Under the same conditions, the i-th document's id is at position i of the ids. */
  lemma PositionsAreIdentity(ids: seq<Id>, r: seq<ResultDoc>)
    requires NoDuplicates(ids) && NoDuplicates(DocIds(r))
    requires forall i :: 0 <= i < |r| ==> r[i].id in ids
    requires forall v :: 0 <= v < |ids| ==> ids[v] in DocIds(r)
    requires forall i, j :: 0 <= i < j < |r| ==> IndexOf(ids, r[i].id) <= IndexOf(ids, r[j].id)
    ensures |Positions(ids, r)| == |ids|
    ensures forall i :: 0 <= i < |r| ==> Positions(ids, r)[i] == i
  {
    PositionsIncrease(ids, r);
    PositionsCover(ids, r);
    IdentityPositionsAll(Positions(ids, r), |ids|);
  }

  /** Documents each at the position of its id in `ids`, as many as ids, list the ids. */
  lemma IdsAtTheirPositions(ids: seq<Id>, r: seq<ResultDoc>)
    requires |Positions(ids, r)| == |ids|
    requires forall i :: 0 <= i < |r| ==> Positions(ids, r)[i] == i
    ensures DocIds(r) == ids
  {
    forall i | 0 <= i < |r| ensures DocIds(r)[i] == ids[i] {
      assert IndexOf(ids, r[i].id) == Positions(ids, r)[i] == i;
    }
  }

  /**
   * When the page ids and the fetched documents' ids are duplicate-free and
   * the same ids, the reordered page lists exactly the page ids, in order.
   */
  lemma ReorderRestoresPageOrder(ids: seq<Id>, docs: seq<ResultDoc>)
    requires NoDuplicates(ids) && NoDuplicates(DocIds(docs))
    requires forall i :: 0 <= i < |docs| ==> docs[i].id in ids
    requires forall i :: 0 <= i < |ids| ==> ids[i] in DocIds(docs)
    ensures DocIds(Reorder(ids, docs)) == ids
  {
    var r := Reorder(ids, docs);
    ReorderProperties(ids, docs);
    PermutedDistinctIds(r, docs);
    SameDocumentsSameIds(ids, r, docs);
    OrderedByPosition(ids, r);
  }

  /** Two sequences holding the same documents cover the same ids. */
  lemma SameDocumentsSameIds(ids: seq<Id>, r: seq<ResultDoc>, docs: seq<ResultDoc>)
    requires forall i :: 0 <= i < |r| ==> r[i] in docs
    requires forall p :: 0 <= p < |docs| ==> docs[p] in r
    requires forall i :: 0 <= i < |docs| ==> docs[i].id in ids
    requires forall i :: 0 <= i < |ids| ==> ids[i] in DocIds(docs)
    ensures forall i :: 0 <= i < |r| ==> r[i].id in ids
    ensures forall v :: 0 <= v < |ids| ==> ids[v] in DocIds(r)
  {
    forall i | 0 <= i < |r| ensures r[i].id in ids {
      assert r[i] in docs;
      var p :| 0 <= p < |docs| && docs[p] == r[i];
    }
    forall v | 0 <= v < |ids| ensures ids[v] in DocIds(r) {
      assert ids[v] in DocIds(docs);
      var p :| 0 <= p < |docs| && DocIds(docs)[p] == ids[v];
      assert docs[p] in r;
      var a :| 0 <= a < |r| && r[a] == docs[p];
      assert DocIds(r)[a] == ids[v];
    }
  }

  /**
   * The request for the page: an aggregation that starts with the id match and
   * a limit, or a find whose filter is the id clause extended with the
   * (possibly mutated) conditions, with projection, sort and populate paths.
   */
  function PageRequest(page: seq<Id>, aggregate: Option<seq<Stage>>, conditions: Option<Conditions>,
                       populate: Option<seq<PopulateSpec>>, fields: Projection, sort: Option<SortSpec>): (q: PageQuery)
    ensures q.AggregatePage? <==> aggregate.Some?
    ensures q.AggregatePage? ==>
      |q.pipeline| >= 2 && q.pipeline[0] == MatchIds(page) && q.pipeline[1] == LimitTo(|page|)
      && q.pipeline[2..] == aggregate.value
    ensures q.FindPage? ==> "_id" in q.filter
    ensures q.FindPage? && (conditions.None? || "_id" !in conditions.value) ==> q.filter["_id"] == InIds(page)
    ensures q.FindPage? ==> forall k :: k in q.filter && k != "_id" ==> conditions.Some? && k in conditions.value
    ensures q.FindPage? && conditions.Some? ==>
      forall k :: k in conditions.value ==> k in q.filter && q.filter[k] == conditions.value[k]
    ensures q.FindPage? ==> q.projection == fields && q.sort == sort && q.populate == populate.GetOr([])
  {
    if aggregate.Some? then
      AggregatePage([MatchIds(page), LimitTo(|page|)] + aggregate.value)
    else
      FindPage(map["_id" := InIds(page)] + conditions.GetOr(map[]), fields, sort, populate.GetOr([]))
  }

  /**
   * Whether `getSearchResult` answers with ids: the lookup succeeds and either
   * hits, or misses and both the candidate find and the cache write succeed.
   */
  predicate IdsAnswered(io: SearchIo, hit: Option<CacheEntry>) {
    io.lookupError.None? && (hit.Some? || (io.candidates.Success? && io.storeError.None?))
  }

  /**
   * The second half of `search`: paginate the full id list (writing the window
   * back into `options`), request that page, and answer with the total count
   * and the fetched documents, reordered by page position when no sort is given.
   */
  method FetchResults(ids: seq<Id>, fields: Projection, options: SearchOptions, io: SearchIo)
    returns (r: Result<SearchData, DbError>, request: PageQuery)
    modifies options`skip, options`limit
    ensures var w := Paginate(ids, old(options.skip), old(options.limit));
      options.skip == w.skip && options.limit == w.limit
      && request == PageRequest(w.page, options.aggregate, options.conditions, options.populate, fields, options.sort)
      && (io.page.Failure? ==> r == Failure(io.page.error))
      && (io.page.Success? ==>
            r.Success? && r.value.totalCount == |ids|
            && r.value.results == if options.sort.Some? then io.page.value else Reorder(w.page, io.page.value))
  {
    var page := ids;
    if options.limit != 0 || options.skip != 0 {
      var w := Paginate(page, options.skip, options.limit);
      options.skip := w.skip;
      options.limit := w.limit;
      page := w.page;
    }
    request := PageRequest(page, options.aggregate, options.conditions, options.populate, fields, options.sort);
    if io.page.Failure? {
      return Failure(io.page.error), request;
    }
    var docs := io.page.value;
    var results := if options.sort.Some? then docs else Reorder(page, docs);
    r := Success(SearchData(|ids|, results));
  }

  /**
   * The static `search` after argument dispatch: `options` is the object
   * dispatch settled on, `fields` the output projection. `ids` names the full
   * ranked id list the cache answered or the miss path stored.
   */
  method Search(model: string, plugin: Config, store: SearchResultStore, query: string, fields: Projection,
                options: SearchOptions, io: SearchIo)
    returns (r: Result<SearchData, DbError>, calls: seq<DbCall>,
             ghost tokens: seq<Stem>, ghost hit: Option<CacheEntry>, ghost ids: seq<Id>)
    modifies store, options`conditions, options`skip, options`limit
    ensures tokens == Unique(plugin.tokenize(query))
    ensures hit == FirstMatch(old(store.entries), CacheKey(model, tokens, old(options.conditions)))
    ensures |calls| >= 1 && calls[0] == FindCached(CacheKey(model, tokens, old(options.conditions)))
    ensures options.conditions == if io.lookupError.None? && hit.None? && old(options.conditions).Some?
                                  then Some(CandidateFilter(old(options.conditions), plugin.keywordsPath, tokens))
                                  else old(options.conditions)
    ensures io.lookupError.None? && hit.None? ==>
      |calls| >= 2
      && calls[1] == FindCandidates(CandidateFilter(old(options.conditions), plugin.keywordsPath, tokens), old(options.sort))
    ensures io.lookupError.None? && hit.None? && io.candidates.Success? ==>
      |calls| >= 3
      && calls[2] == StoreEntry(CacheEntry(model, tokens, FingerprintOf(options.conditions),
                                           Ids(CandidateOrder(old(options.sort), plugin.distance, tokens, io.candidates.value))))
    ensures !IdsAnswered(io, hit) ==>
      r.Failure? && options.skip == old(options.skip) && options.limit == old(options.limit)
      && store.entries == old(store.entries)
      && (io.lookupError.Some? ==> r == Failure(io.lookupError.value) && |calls| == 1)
      && (io.lookupError.None? && io.candidates.Failure? ==> r == Failure(io.candidates.error) && |calls| == 2)
      && (io.lookupError.None? && io.candidates.Success? ==> r == Failure(io.storeError.value) && |calls| == 3)
    ensures IdsAnswered(io, hit) ==>
      (hit.Some? ==> ids == hit.value.results && store.entries == old(store.entries) && |calls| == 2)
      && (hit.None? ==>
            ids == Ids(CandidateOrder(old(options.sort), plugin.distance, tokens, io.candidates.value))
            && store.entries == old(store.entries) + [CacheEntry(model, tokens, FingerprintOf(options.conditions), ids)]
            && |calls| == 4)
    ensures var w := Paginate(ids, old(options.skip), old(options.limit));
      IdsAnswered(io, hit) ==>
        options.skip == w.skip && options.limit == w.limit
        && calls[|calls| - 1]
           == FetchPage(PageRequest(w.page, options.aggregate, options.conditions, options.populate, fields, options.sort))
        && (io.page.Failure? ==> r == Failure(io.page.error))
        && (io.page.Success? ==>
              r.Success? && r.value.totalCount == |ids|
              && r.value.results == if options.sort.Some? then io.page.value else Reorder(w.page, io.page.value))
    ensures r.Failure? ==>
      io.lookupError == Some(r.error) || io.candidates == Failure(r.error)
      || io.storeError == Some(r.error) || io.page == Failure(r.error)
  {
    var stems := Unique(plugin.tokenize(query));
    tokens := stems;
    var sort := options.sort;
    var found;
    found, calls := GetSearchResult(model, plugin, store, stems, sort, options, io);
    hit := FirstMatch(old(store.entries), CacheKey(model, tokens, old(options.conditions)));
    assert found.Success? <==> IdsAnswered(io, hit);
    assert options.sort == sort;
    if found.Failure? {
      return Failure(found.error), calls, tokens, hit, [];
    }
    ids := found.value;
    var request;
    r, request := FetchResults(found.value, fields, options, io);
    calls := calls + [FetchPage(request)];
  }
}
