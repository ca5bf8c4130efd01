/** The observer that drops the cached sales-rule attribute codes when rules are saved. */
module ClearProductAttributesCacheObserver {
  import opened Wrappers
  import opened FrameworkCache
  import QuoteConfigProductAttributes

  const CACHE_KEY: string := "salesrule_active_product_attributes"

  /** The cache entries once the attribute-code entry is gone: every other entry is kept as it was. */
  function ClearedEntries(entries: map<string, CacheRecord>): (cleared: map<string, CacheRecord>)
    ensures CACHE_KEY !in cleared
    ensures forall k :: k in entries && k != CACHE_KEY ==> k in cleared && cleared[k] == entries[k]
    ensures forall k :: k in cleared ==> k in entries
  {
    entries - {CACHE_KEY}
  }

  class ClearProductAttributesCacheObserver {
    const cache: Cache

    constructor (cache: Cache)
      ensures this.cache == cache
    {
      this.cache := cache;
    }

    method Execute()
      modifies cache`entries
      ensures cache.entries == ClearedEntries(old(cache.entries))
    {
      cache.Remove(CACHE_KEY);
    }
  }

  /** Clearing twice leaves the same cache as clearing once. */
  lemma ExecuteIdempotent(entries: map<string, CacheRecord>)
    ensures ClearedEntries(ClearedEntries(entries)) == ClearedEntries(entries)
  {
  }

  /** The observer removes the very key the attribute plugin reads and writes. */
  lemma SameKeyAsPlugin()
    ensures CACHE_KEY == QuoteConfigProductAttributes.CACHE_KEY
  {
  }

  /** After clearing, a fresh plugin instance misses and recomputes the codes from the rule rows. */
  lemma FreshPluginRecomputesAfterClear(entries: map<string, CacheRecord>, rows: seq<QuoteConfigProductAttributes.Row>)
    ensures var resolved := QuoteConfigProductAttributes.Resolve(None, ClearedEntries(entries), rows);
            var codes := QuoteConfigProductAttributes.ArrayColumn(rows, QuoteConfigProductAttributes.ATTRIBUTE_CODE);
            && resolved.codes == codes
            && resolved.entries == ClearedEntries(entries)[CACHE_KEY := CacheRecord(codes, [QuoteConfigProductAttributes.CACHE_TAG])]
  {
  }
}
