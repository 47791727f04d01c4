/**
 * The result cache: the `SearchResult` collection, whose entries record the
 * ranked ids of an earlier search under (model name, query stems, optional
 * conditions fingerprint).
 */
module SearchCache {
  import opened Wrappers
  import opened Plugin

  /** The value of one key of a query condition object. */
  datatype Clause =
    | InIds(ids: seq<Id>)          // `{$in: ids}` on `_id`
    | InStems(stems: seq<Stem>)    // `{$in: tokens}` on the keyword attribute
    | Expr(text: string)           // any other condition, such as `{$gt: 50}`

  /** A query condition object: attribute name to condition. */
  type Conditions = map<string, Clause>

  /** The canonical serialisation of a condition object: equal exactly for equal objects. */
  datatype Fingerprint = Fingerprint(canonical: Conditions)

  /** `stringify` (json-stable-stringify). */
  function Stringify(c: Conditions): Fingerprint {
    Fingerprint(c)
  }

  /** The fingerprint a search records: present only when conditions were given. */
  function FingerprintOf(conditions: Option<Conditions>): (f: Option<Fingerprint>)
    ensures f.Some? <==> conditions.Some?
  {
    if conditions.Some? then Some(Stringify(conditions.value)) else None
  }

  /** A stored `SearchResult` document. */
  datatype CacheEntry = CacheEntry(collection: string, query: seq<Stem>, conditions: Option<Fingerprint>, results: seq<Id>)

  /** The filter of the cache lookup; `conditions` is a key of the filter only when present. */
  datatype CacheFilter = CacheFilter(collection: string, query: seq<Stem>, conditions: Option<Fingerprint>)

  /**
   * An entry matches a filter when every key the filter has is equal; a filter
   * without `conditions` says nothing about the entry's conditions.
   */
  predicate Matches(f: CacheFilter, e: CacheEntry) {
    e.collection == f.collection && e.query == f.query
    && (f.conditions.Some? ==> e.conditions == f.conditions)
  }

  /** `findOne`: the first matching entry in insertion order, if any. */
  function FirstMatch(entries: seq<CacheEntry>, f: CacheFilter): (r: Option<CacheEntry>)
    ensures r.None? <==> forall i :: 0 <= i < |entries| ==> !Matches(f, entries[i])
    ensures r.Some? ==> exists i :: 0 <= i < |entries| && entries[i] == r.value
                                   && Matches(f, r.value)
                                   && forall j :: 0 <= j < i ==> !Matches(f, entries[j])
  {
    if entries == [] then None
    else if Matches(f, entries[0]) then Some(entries[0])
    else
      var r := FirstMatch(entries[1..], f);
      assert forall i :: 1 <= i < |entries| ==> entries[i] == entries[1..][i - 1];
      r
  }

  /** Appending an entry can only change a lookup that found nothing before. */
  lemma {:induction false} FirstMatchAppend(entries: seq<CacheEntry>, e: CacheEntry, f: CacheFilter)
    ensures FirstMatch(entries + [e], f)
         == if FirstMatch(entries, f).Some? then FirstMatch(entries, f)
            else if Matches(f, e) then Some(e) else None
    decreases |entries|
  {
    if entries != [] {
      assert (entries + [e])[1..] == entries[1..] + [e];
      FirstMatchAppend(entries[1..], e, f);
    }
  }

  /**
   * After a lookup without conditions misses and a result is stored under the
   * same model and stems, the same lookup hits that entry, whatever conditions
   * fingerprint the entry carries.
   */
  lemma StoredResultIsFound(entries: seq<CacheEntry>, model: string, tokens: seq<Stem>,
                            stored: Option<Fingerprint>, ids: seq<Id>)
    requires FirstMatch(entries, CacheFilter(model, tokens, None)).None?
    ensures FirstMatch(entries + [CacheEntry(model, tokens, stored, ids)], CacheFilter(model, tokens, None))
         == Some(CacheEntry(model, tokens, stored, ids))
  {
    FirstMatchAppend(entries, CacheEntry(model, tokens, stored, ids), CacheFilter(model, tokens, None));
  }

  /**
   * An entry stored under the conditions with the keyword clause added is not
   * found by a lookup with the conditions as the caller wrote them.
   */
  lemma StoredConditionsDiffer(entries: seq<CacheEntry>, model: string, tokens: seq<Stem>,
                               conditions: Conditions, keywordsPath: string, ids: seq<Id>)
    requires keywordsPath !in conditions
    requires FirstMatch(entries, CacheFilter(model, tokens, Some(Stringify(conditions)))).None?
    ensures FirstMatch(entries + [CacheEntry(model, tokens, Some(Stringify(conditions[keywordsPath := InStems(tokens)])), ids)],
                       CacheFilter(model, tokens, Some(Stringify(conditions)))).None?
  {
    var c2 := conditions[keywordsPath := InStems(tokens)];
    assert keywordsPath in c2;
    FirstMatchAppend(entries, CacheEntry(model, tokens, Some(Stringify(c2)), ids),
                     CacheFilter(model, tokens, Some(Stringify(conditions))));
  }

  /** The `SearchResult` collection. */
  class SearchResultStore {
    var entries: seq<CacheEntry>

    constructor ()
      ensures entries == []
    {
      entries := [];
    }

    /** `SearchResult.findOne(filter)`, failing with `failure` when the store reports one. */
    method FindOne(filter: CacheFilter, failure: Option<DbError>) returns (r: Result<Option<CacheEntry>, DbError>)
      ensures failure.Some? ==> r == Failure(failure.value)
      ensures failure.None? ==> r.Success?
      ensures r.Success? && r.value.Some? ==> r.value.value in entries && Matches(filter, r.value.value)
      ensures r.Success? && r.value.None? ==> forall e :: e in entries ==> !Matches(filter, e)
      ensures r.Success? ==> r.value == FirstMatch(entries, filter)
    {
      if failure.Some? {
        return Failure(failure.value);
      }
      r := Success(FirstMatch(entries, filter));
    }

    /** `new SearchResult(entry).save()`: appends the entry unless the store reports `failure`. */
    method Save(entry: CacheEntry, failure: Option<DbError>) returns (ok: bool)
      modifies this
      ensures ok <==> failure.None?
      ensures entries == if ok then old(entries) + [entry] else old(entries)
    {
      ok := failure.None?;
      if ok {
        entries := entries + [entry];
      }
    }
  }
}
