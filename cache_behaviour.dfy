/**
 * What two searches in a row see of the result cache, for the three ways a
 * caller can pass conditions: none, a new options object each time, or the
 * same options object again.
 */
module CacheBehaviour {
  import opened Wrappers
  import opened Plugin
  import opened SearchCache
  import opened Search

  /**
   * Without conditions, a search that stored its result is answered from the
   * cache the next time: one lookup, the same ids.
   */
  method RepeatedSearchHitsCache(model: string, plugin: Config, store: SearchResultStore, tokens: seq<Stem>,
                                 sort: Option<SortSpec>, io1: SearchIo, io2: SearchIo)
    returns (first: Result<seq<Id>, DbError>, second: Result<seq<Id>, DbError>, secondCalls: seq<DbCall>)
    requires FirstMatch(store.entries, CacheKey(model, tokens, None)).None?
    requires io1.lookupError.None? && io1.candidates.Success? && io1.storeError.None?
    requires io2.lookupError.None?
    modifies store
    ensures first.Success? && second == first
    ensures secondCalls == [FindCached(CacheKey(model, tokens, None))]
  {
    var options := new SearchOptions.Empty();
    var entries := store.entries;
    var firstCalls;
    first, firstCalls := GetSearchResult(model, plugin, store, tokens, sort, options, io1);
    StoredResultIsFound(entries, model, tokens, None, first.value);
    second, secondCalls := GetSearchResult(model, plugin, store, tokens, sort, options, io2);
  }

  /**
   * With the same conditions passed in a new options object each time, the
   * second search misses the cache again and fetches the candidates anew:
   * the first search stored its result under the conditions with the keyword
   * clause added.
   */
  method ConditionedRepeatMisses(model: string, plugin: Config, store: SearchResultStore, tokens: seq<Stem>,
                                 sort: Option<SortSpec>, conditions: Conditions, io1: SearchIo, io2: SearchIo)
    returns (first: Result<seq<Id>, DbError>, secondCalls: seq<DbCall>)
    requires plugin.keywordsPath !in conditions
    requires FirstMatch(store.entries, CacheKey(model, tokens, Some(conditions))).None?
    requires io1.lookupError.None? && io1.candidates.Success? && io1.storeError.None?
    requires io2.lookupError.None?
    modifies store
    ensures first.Success?
    ensures |secondCalls| >= 2
    ensures secondCalls[1] == FindCandidates(CandidateFilter(Some(conditions), plugin.keywordsPath, tokens), sort)
  {
    var options1 := new SearchOptions.Empty();
    options1.conditions := Some(conditions);
    var entries := store.entries;
    var firstCalls;
    first, firstCalls := GetSearchResult(model, plugin, store, tokens, sort, options1, io1);
    StoredConditionsDiffer(entries, model, tokens, conditions, plugin.keywordsPath, first.value);
    var options2 := new SearchOptions.Empty();
    options2.conditions := Some(conditions);
    var second;
    second, secondCalls := GetSearchResult(model, plugin, store, tokens, sort, options2, io2);
  }

  /**
   * Passing the same options object again hits the cache: its conditions
   * now hold the keyword clause, as does the stored entry.
   */
  method ReusedOptionsHit(model: string, plugin: Config, store: SearchResultStore, tokens: seq<Stem>,
                          sort: Option<SortSpec>, conditions: Conditions, io1: SearchIo, io2: SearchIo)
    returns (first: Result<seq<Id>, DbError>, second: Result<seq<Id>, DbError>, secondCalls: seq<DbCall>)
    requires FirstMatch(store.entries, CacheKey(model, tokens, Some(conditions))).None?
    requires FirstMatch(store.entries,
                        CacheKey(model, tokens, Some(CandidateFilter(Some(conditions), plugin.keywordsPath, tokens)))).None?
    requires io1.lookupError.None? && io1.candidates.Success? && io1.storeError.None?
    requires io2.lookupError.None?
    modifies store
    ensures first.Success? && second == first
    ensures |secondCalls| == 1
  {
    var options := new SearchOptions.Empty();
    options.conditions := Some(conditions);
    var entries := store.entries;
    var firstCalls;
    first, firstCalls := GetSearchResult(model, plugin, store, tokens, sort, options, io1);
    var key := CacheKey(model, tokens, options.conditions);
    FirstMatchAppend(entries, store.entries[|entries|], key);
    assert store.entries == entries + [store.entries[|entries|]];
    second, secondCalls := GetSearchResult(model, plugin, store, tokens, sort, options, io2);
  }
}
