/**
 * The plugin that appends the attribute codes used by active cart price rules
 * to the product attributes a quote item collection loads. The codes are read
 * once per plugin instance: from the cache when the cache has them, otherwise
 * from the rule resource, in which case they are also written to the cache.
 */
module QuoteConfigProductAttributes {
  import opened Wrappers
  import opened FrameworkCache

  const CACHE_KEY: string := "salesrule_active_product_attributes"
  const CACHE_TAG: string := "salesrule"
  const ATTRIBUTE_CODE: string := "attribute_code"

  /** A row of the rule resource's active-attribute query, column name to value. */
  type Row = map<string, string>

  /** PHP's `array_column` over a list of rows: the values of `column`, in row order, skipping rows without it. */
  function ArrayColumn(rows: seq<Row>, column: string): (values: seq<string>)
    ensures |values| <= |rows|
    ensures (forall i :: 0 <= i < |rows| ==> column in rows[i]) ==>
              |values| == |rows| && forall i :: 0 <= i < |rows| ==> values[i] == rows[i][column]
    ensures (forall i :: 0 <= i < |rows| ==> column !in rows[i]) ==> values == []
    ensures forall v :: v in values ==> exists i :: 0 <= i < |rows| && column in rows[i] && rows[i][column] == v
  {
    if rows == [] then []
    else if column in rows[0] then [rows[0][column]] + ArrayColumn(rows[1..], column)
    else ArrayColumn(rows[1..], column)
  }

  /** Taking a column of two blocks of rows is taking it of each block, in order. */
  lemma {:induction false} ArrayColumnConcat(rows: seq<Row>, more: seq<Row>, column: string)
    ensures ArrayColumn(rows + more, column) == ArrayColumn(rows, column) + ArrayColumn(more, column)
  {
    if rows == [] {
      assert rows + more == more;
    } else {
      assert (rows + more)[0] == rows[0];
      assert (rows + more)[1..] == rows[1..] + more;
      ArrayColumnConcat(rows[1..], more, column);
    }
  }

  /** The rule resource; `queries` records how often it was asked for its active attributes. */
  class RuleResource {
    var activeAttributes: seq<Row>
    ghost var queries: nat

    constructor (activeAttributes: seq<Row>)
      ensures this.activeAttributes == activeAttributes && queries == 0
    {
      this.activeAttributes := activeAttributes;
      queries := 0;
    }

    method GetActiveAttributes() returns (rows: seq<Row>)
      modifies this`queries
      ensures rows == activeAttributes
      ensures queries == old(queries) + 1
    {
      rows := activeAttributes;
      queries := queries + 1;
    }
  }

  /** The codes a lookup settles on, and the cache entries after it. */
  datatype Resolution = Resolution(codes: seq<string>, entries: map<string, CacheRecord>)

  /**
   * One lookup, from the memo, the cache entries and the rule rows: a set memo
   * is used as it is; otherwise a cached list is used; otherwise the codes are
   * taken from the rows and saved under the cache key with the sales-rule tag.
   */
  function Resolve(memo: Option<seq<string>>, entries: map<string, CacheRecord>, rows: seq<Row>): Resolution
  {
    match memo
    case Some(codes) => Resolution(codes, entries)
    case None =>
      if CACHE_KEY in entries then Resolution(entries[CACHE_KEY].payload, entries)
      else
        var codes := ArrayColumn(rows, ATTRIBUTE_CODE);
        Resolution(codes, entries[CACHE_KEY := CacheRecord(codes, [CACHE_TAG])])
  }

  class QuoteConfigProductAttributes {
    const ruleResource: RuleResource
    const cache: Cache
    var activeAttributeCodes: Option<seq<string>>

    constructor (ruleResource: RuleResource, cache: Cache)
      ensures this.ruleResource == ruleResource && this.cache == cache
      ensures activeAttributeCodes == None
    {
      this.ruleResource := ruleResource;
      this.cache := cache;
      activeAttributeCodes := None;
    }

    /** Returns `attributeKeys` followed by the active rule attribute codes. */
    method AfterGetProductAttributes(attributeKeys: seq<string>) returns (result: seq<string>)
      modifies this`activeAttributeCodes, cache`entries, cache`loads, cache`saves, ruleResource`queries
      ensures var resolved := Resolve(old(activeAttributeCodes), old(cache.entries), ruleResource.activeAttributes);
              activeAttributeCodes == Some(resolved.codes) && cache.entries == resolved.entries
      ensures result == attributeKeys + activeAttributeCodes.value
      ensures |result| == |attributeKeys| + |activeAttributeCodes.value|
      ensures result[..|attributeKeys|] == attributeKeys && result[|attributeKeys|..] == activeAttributeCodes.value
      // a set memo: neither the cache nor the resource is consulted
      ensures old(activeAttributeCodes).Some? ==>
                && activeAttributeCodes == old(activeAttributeCodes)
                && cache.loads == old(cache.loads) && cache.saves == old(cache.saves)
                && ruleResource.queries == old(ruleResource.queries)
      // a cache hit: one read, no write, no query
      ensures old(activeAttributeCodes).None? && CACHE_KEY in old(cache.entries) ==>
                && activeAttributeCodes == Some(old(cache.entries)[CACHE_KEY].payload)
                && cache.loads == old(cache.loads) + 1 && cache.saves == old(cache.saves)
                && ruleResource.queries == old(ruleResource.queries)
      // a cache miss: one read, one query, one write
      ensures old(activeAttributeCodes).None? && CACHE_KEY !in old(cache.entries) ==>
                && activeAttributeCodes == Some(ArrayColumn(ruleResource.activeAttributes, ATTRIBUTE_CODE))
                && cache.loads == old(cache.loads) + 1 && cache.saves == old(cache.saves) + 1
                && ruleResource.queries == old(ruleResource.queries) + 1
    {
      if activeAttributeCodes.None? {
        var cachedData := cache.Load(CACHE_KEY);
        if cachedData.Some? {
          activeAttributeCodes := Some(cachedData.value);
        } else {
          var rows := ruleResource.GetActiveAttributes();
          var codes := ArrayColumn(rows, ATTRIBUTE_CODE);
          activeAttributeCodes := Some(codes);
          cache.Save(codes, CACHE_KEY, [CACHE_TAG]);
        }
      }
      result := attributeKeys + activeAttributeCodes.value;
    }
  }

  /** Once the memo is set, the cache and the rule rows no longer matter. */
  lemma MemoOutlivesCacheAndRules(codes: seq<string>, entries: map<string, CacheRecord>, rows: seq<Row>)
    ensures Resolve(Some(codes), entries, rows) == Resolution(codes, entries)
  {
  }

  /** On a miss, only the cache key changes, and it receives the computed codes under the sales-rule tag. */
  lemma MissWritesOnlyCacheKey(entries: map<string, CacheRecord>, rows: seq<Row>, key: string)
    requires CACHE_KEY !in entries
    ensures var resolved := Resolve(None, entries, rows);
            && resolved.entries[CACHE_KEY] == CacheRecord(ArrayColumn(rows, ATTRIBUTE_CODE), [CACHE_TAG])
            && (key != CACHE_KEY ==> (key in resolved.entries <==> key in entries))
            && (key != CACHE_KEY && key in entries ==> resolved.entries[key] == entries[key])
  {
  }

  /**
   * After one instance misses and fills the cache, a fresh instance hits and
   * obtains the same codes, whatever the rule rows have become, without
   * writing the cache again.
   */
  lemma FreshInstanceHitsAfterMiss(entries: map<string, CacheRecord>, rows: seq<Row>, laterRows: seq<Row>)
    requires CACHE_KEY !in entries
    ensures var first := Resolve(None, entries, rows);
            Resolve(None, first.entries, laterRows) == first
  {
  }
}
