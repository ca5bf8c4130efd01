# Magento GraphQL query limiter and sales-rule attribute caching, modelled in Dafny

This project models two small parts of Magento.

**The GraphQL query limiter** (`QueryComplexityLimiter`). It runs two cheap checks on a raw
query before full validation:

- the *field count* check rejects a query with more `Field` nodes than the configured
  query complexity;
- the *alias count* check, when enabled, rejects a query with more aliases than allowed.
  It counts only along `Field` selections.

The limiter also registers three library validation rules with the shared document
validator: complexity, introspection and depth.

**The cart price rule attribute cache**, four small classes:

- the `QuoteConfigProductAttributes` plugin memoises the active rule attribute codes. On
  first use it takes them from the cache. On a miss it takes them from the rule resource
  and saves them to the cache.
- `ClearProductAttributesCacheObserver` removes that cache entry.
- `TotalsCollectionState` is a boolean flag.
- `TotalsCollectorPlugin` raises the flag around quote totals collection, lowers it
  afterwards, and drops the quote's cached item collection.

Files:

- `wrappers.dfy`: `Option`.
- `sums.dfy`: a sum over sequences, with concatenation and permutation lemmas.
- `graphql_ast.dfy`: the parsed document (definitions, selection sets, fields, fragment
  spreads, inline fragments) and the parser's result type.
- `query_complexity_limiter.dfy`: the two counts as recursive functions, the methods
  modelling `validateFieldCount`, `validateAliasCount`, `countAliasesInSelectionSet` and
  `execute`, and the lemmas relating the counts.
- `framework_cache.dfy`: the cache as a keyed store. Ghost counters record reads and writes.
- `quote_config_product_attributes.dfy`, `totals_collection_state.dfy`,
  `totals_collector_plugin.dfy`, `clear_product_attributes_cache_observer.dfy`: one module
  per class.

The parser is an outside collaborator. Every method that parses takes it as a parameter
`parse: string -> ParseResult`, a total function that returns a document or a syntax error.
The limiter's configuration never changes after construction, so it is a datatype value.
The classes that change state in place (cache, rule resource, memo, flag, quote data,
validator registry) are Dafny classes. Their methods state the complete new state.

The two pre-checks treat an empty query differently:

- `validateFieldCount` skips everything for a PHP-empty query, and that includes `"0"`.
- `validateAliasCount` has no such test. When the alias limit is enabled it parses
  `$query ?: ''`, so an empty query or `"0"` reaches the parser as the empty string
  (`ValidateAliasCount`).

## Model

| member | source | states |
|---|---|---|
| `GraphQlAst.SelectionSetOf` | lib/internal/Magento/Framework/GraphQl/Query/QueryComplexityLimiter.php:142 | operations and fragment definitions have a selection set; type-system definitions do not |
| `QueryComplexityLimiter.VisitFields` | lib/internal/Magento/Framework/GraphQl/Query/QueryComplexityLimiter.php:101-112 | a whole-tree walk that increments the counter when it leaves a Field node ends with the number of Field nodes in the document. This includes fields in inline fragments and fragment definitions; spreads are not expanded |
| `QueryComplexityLimiter.ValidateFieldCount` | lib/internal/Magento/Framework/GraphQl/Query/QueryComplexityLimiter.php:98-122 | "" and "0" pass without parsing. A syntax error is passed on. Otherwise the query fails exactly when the field count exceeds the query complexity (count == limit passes), with an error carrying (limit, count) |
| `QueryComplexityLimiter.CountAliasesInSelectionSet` | lib/internal/Magento/Framework/GraphQl/Query/QueryComplexityLimiter.php:163-183 | the loop-and-recurse count equals the sum, over Field selections only, of one per alias plus the count of the nested selection set; spreads and inline fragments add 0 |
| `QueryComplexityLimiter.ValidateAliasCount` | lib/internal/Magento/Framework/GraphQl/Query/QueryComplexityLimiter.php:135-155 | with the limit disabled every query passes. Otherwise the query (with "0" turned into "") is parsed and a syntax error is passed on. The alias total is summed over definitions that have a selection set, and the query fails exactly when that total exceeds the allowed number, with an error carrying (allowed, total) |
| `QueryComplexityLimiter.Execute` | lib/internal/Magento/Framework/GraphQl/Query/QueryComplexityLimiter.php:80-87 | registers complexity(queryComplexity), disable-introspection(0/1) and depth(queryDepth), in that order, each taking the place of any rule already registered under its class name; rule names stay unique |
| `QueryComplexityLimiter.DocumentValidator.AddRule` | lib/internal/Magento/Framework/GraphQl/Query/QueryComplexityLimiter.php:82-86 | a rule whose name is already registered replaces that entry in place; otherwise it is appended. Names stay unique |
| `QueryComplexityLimiter.RegisterLimitsContents` | lib/internal/Magento/Framework/GraphQl/Query/QueryComplexityLimiter.php:80-87 | afterwards all three limit rules are registered with the configured values, every rule of another class is kept, and nothing else is present |
| `QueryComplexityLimiter.RegisterLimitsOrder` | lib/internal/Magento/Framework/GraphQl/Query/QueryComplexityLimiter.php:80-87 | on an empty registry the rules are exactly complexity, introspection, depth, in that order |
| `QueryComplexityLimiter.ExecuteTwiceSameAsOnce` | lib/internal/Magento/Framework/GraphQl/Query/QueryComplexityLimiter.php:80-87 | a second registration with the same configuration leaves the registry as the first left it |
| `QueryComplexityLimiter.FieldCountOrderIndependent` | lib/internal/Magento/Framework/GraphQl/Query/QueryComplexityLimiter.php:103-112 | the field count of a selection set is the same under any reordering of its selections |
| `QueryComplexityLimiter.DocumentFieldCountOrderIndependent` | lib/internal/Magento/Framework/GraphQl/Query/QueryComplexityLimiter.php:101-112 | the field count of a document is the same under any reordering of its definitions |
| `QueryComplexityLimiter.AliasCountOrderIndependent` | lib/internal/Magento/Framework/GraphQl/Query/QueryComplexityLimiter.php:169-182 | the alias count of a selection set is the same under any reordering of its selections |
| `QueryComplexityLimiter.AliasCountBounds` | lib/internal/Magento/Framework/GraphQl/Query/QueryComplexityLimiter.php:138-145 | alias count <= aliased Field nodes anywhere <= Field nodes anywhere |
| `QueryComplexityLimiter.InlineFreeAliasCountExact` | lib/internal/Magento/Framework/GraphQl/Query/QueryComplexityLimiter.php:171-181 | without inline fragments, the alias count equals the number of aliased Field nodes in the document |
| `QueryComplexityLimiter.InlineFragmentAliasesNotCounted` | lib/internal/Magento/Framework/GraphQl/Query/QueryComplexityLimiter.php:171-181 | an aliased field inside an inline fragment counts as a field (1) but not as an alias (0) |
| `QueryComplexityLimiter.FragmentSpreadsNotExpanded` | lib/internal/Magento/Framework/GraphQl/Query/QueryComplexityLimiter.php:103-112 | a fragment spread twice adds nothing; its fields and aliases count once, where it is defined |
| `QueryComplexityLimiter.InlineFragmentAsymmetry` | lib/internal/Magento/Framework/GraphQl/Query/QueryComplexityLimiter.php:171-181 | for every inline fragment: its fields (and aliased fields) all count, but it contributes no alias |
| `QueryComplexityLimiter.SpreadInsertionNeutral` | lib/internal/Magento/Framework/GraphQl/Query/QueryComplexityLimiter.php:103-112 | inserting a fragment spread at any position of any selection set changes neither its field count nor its alias count |
| `QuoteConfigProductAttributes.ArrayColumn` | app/code/Magento/SalesRule/Model/Plugin/QuoteConfigProductAttributes.php:80-83 | the `attribute_code` column has at most one value per row. With the column in every row it is exactly the rows' values in order; with it in none it is empty; every value comes from some row |
| `QuoteConfigProductAttributes.ArrayColumnConcat` | app/code/Magento/SalesRule/Model/Plugin/QuoteConfigProductAttributes.php:80-83 | the column keeps row order: the column of two blocks of rows is the first block's column followed by the second's |
| `QuoteConfigProductAttributes.QuoteConfigProductAttributes.constructor` | app/code/Magento/SalesRule/Model/Plugin/QuoteConfigProductAttributes.php:51-59 | a new plugin has no memoised codes |
| `QuoteConfigProductAttributes.QuoteConfigProductAttributes.AfterGetProductAttributes` | app/code/Magento/SalesRule/Model/Plugin/QuoteConfigProductAttributes.php:72-93 | returns the keys followed by the codes: the keys are its prefix and its length is the sum of both lengths. With the memo set: the same codes, and neither cache nor resource is touched. On a hit: the cached codes, one read, no write, no query. On a miss: the resource's `attribute_code` column, one query, and one save under the cache key with tag `salesrule`; no other entry changes |
| `QuoteConfigProductAttributes.MemoOutlivesCacheAndRules` | app/code/Magento/SalesRule/Model/Plugin/QuoteConfigProductAttributes.php:74 | once memoised, the codes stay the same whatever the cache (cleared or not) and the rule rows hold |
| `QuoteConfigProductAttributes.MissWritesOnlyCacheKey` | app/code/Magento/SalesRule/Model/Plugin/QuoteConfigProductAttributes.php:84-88 | a miss stores (codes, [salesrule]) under the cache key and leaves every other entry as it was |
| `QuoteConfigProductAttributes.FreshInstanceHitsAfterMiss` | app/code/Magento/SalesRule/Model/Plugin/QuoteConfigProductAttributes.php:75-88 | after one instance misses, a fresh instance hits and gets the same codes even if the rules changed, and the cache is not written again |
| `TotalsCollectionState.TotalsCollectionState.constructor` | app/code/Magento/SalesRule/Model/Quote/TotalsCollectionState.php:20 | a new state reports not collecting |
| `TotalsCollectionState.TotalsCollectionState.SetIsCollecting` | app/code/Magento/SalesRule/Model/Quote/TotalsCollectionState.php:28-31 | afterwards the flag is the value written |
| `TotalsCollectionState.TotalsCollectionState.IsCollecting` | app/code/Magento/SalesRule/Model/Quote/TotalsCollectionState.php:38-41 | returns the flag and changes nothing |
| `TotalsCollectionState.ApplyWrites` | app/code/Magento/SalesRule/Test/Unit/Model/Quote/TotalsCollectionStateTest.php:43-55 | writing a sequence of values into a state object leaves its flag at the last value written, whatever it was before; with no writes it is unchanged |
| `TotalsCollectorPlugin.TotalsCollectorPlugin.constructor` | app/code/Magento/SalesRule/Model/Plugin/TotalsCollectorPlugin.php:27-30 | stores the shared flag object it is given |
| `TotalsCollectorPlugin.TotalsCollectorPlugin.BeforeCollect` | app/code/Magento/SalesRule/Model/Plugin/TotalsCollectorPlugin.php:43-53 | the flag is raised, the result is [quote], `items_collection` is removed if present and all other quote data is unchanged; with no such entry the data is untouched |
| `TotalsCollectorPlugin.TotalsCollectorPlugin.AfterCollect` | app/code/Magento/SalesRule/Model/Plugin/TotalsCollectorPlugin.php:63-67 | the flag is lowered and the totals are returned as given |
| `TotalsCollectorPlugin.AroundCollect` | app/code/Magento/SalesRule/Model/Plugin/TotalsCollectorPlugin.php:43-67 | before followed by after leaves the flag lowered whatever it was at the start, with the totals unchanged |
| `ClearProductAttributesCacheObserver.ClearedEntries` | app/code/Magento/SalesRule/Observer/ClearProductAttributesCacheObserver.php:45 | the attribute-code key is gone and every other entry is kept unchanged |
| `ClearProductAttributesCacheObserver.ClearProductAttributesCacheObserver.constructor` | app/code/Magento/SalesRule/Observer/ClearProductAttributesCacheObserver.php:31-34 | stores the cache it is given |
| `ClearProductAttributesCacheObserver.ClearProductAttributesCacheObserver.Execute` | app/code/Magento/SalesRule/Observer/ClearProductAttributesCacheObserver.php:43-46 | the cache afterwards is the cache before without the attribute-code entry |
| `ClearProductAttributesCacheObserver.ExecuteIdempotent` | app/code/Magento/SalesRule/Observer/ClearProductAttributesCacheObserver.php:45 | clearing twice gives the same cache as clearing once |
| `ClearProductAttributesCacheObserver.SameKeyAsPlugin` | app/code/Magento/SalesRule/Observer/ClearProductAttributesCacheObserver.php:21 | the observer's key is the key the attribute plugin reads and writes |
| `ClearProductAttributesCacheObserver.FreshPluginRecomputesAfterClear` | app/code/Magento/SalesRule/Observer/ClearProductAttributesCacheObserver.php:43-46 | after clearing, a fresh plugin misses, recomputes the codes from the rule rows and saves them |

## Left out

- GraphQL parsing: the parser is a parameter. Grammar and syntax errors are not modelled beyond "parse may fail with a message".
- The library visitor: `VisitFields` stands in for it with an explicit stack of enter/leave steps. The walk visits definitions and selections only. Arguments, directives and variable definitions hold no `Field` nodes and are not in the AST model.
- The semantics of the registered `QueryComplexity`, `DisableIntrospection` and `QueryDepth` rules: only their registration and order are modelled.
- Rule storage inside the validation library is not part of this model. `DocumentValidator` mirrors its name-keyed array as a list with unique names, and is passed explicitly instead of being a static global. The library's security defaults (complexity, depth and introspection, registered disabled) are rules of the three limit classes, so they sit in the registry as `QueryComplexity`, `QueryDepth` and `DisableIntrospection` entries, and `Registered` replaces them. `OtherRule` stands only for classes other than those three.
- Sequential use only: concurrent registration into the shared registry is not modelled.
- The service-locator fallback for the alias configuration (QueryComplexityLimiter.php:70-71): the configuration is a plain value.
- Message translation and formatting: errors are datatypes carrying (limit, actual count).
- The unreachable `null` test at QueryComplexityLimiter.php:165: the parameter is a non-null selection set in the model.
- PHP integers are 64-bit. The counts are unbounded naturals, since a parsed document cannot come near that width.
- The serializer and the cache backend (tag-based cleaning, persistence) are not modelled. A cache entry holds the code list itself, so the serialize/unserialize round trip is the identity by construction.
- `AfterGetProductAttributes`: `array_merge` is modelled as concatenation, which is what it does for list-indexed arrays. Its renumbering and overwriting for string-keyed arrays is not modelled.
- `BeforeCollect`: `hasItemsCollection()` is modelled as "the key is in the quote's data". The framework's data-object accessor is not part of this model.
- The unused `$subject` and `$observer` parameters are dropped. The actual totals collection between `BeforeCollect` and `AfterCollect` is not modelled.
- `LogoutSuccess.php` (session teardown and page rendering) is framework glue and is not part of this model.
- `QuoteAddressValidatorTest.php` tests a validator whose implementation is not part of this model.
