/**
 * The plugin around quote totals collection: it raises the shared collecting
 * flag before collection, drops the quote's cached item collection so that it
 * is reloaded with the sales-rule attributes, and lowers the flag afterwards.
 */
module TotalsCollectorPlugin {
  import opened TotalsCollectionState

  const ITEMS_COLLECTION: string := "items_collection"

  datatype QuoteDataValue = Scalar(text: string) | ItemsCollection(itemIds: seq<nat>)

  /** A quote, reduced to its data array. */
  class Quote {
    var data: map<string, QuoteDataValue>

    constructor (data: map<string, QuoteDataValue>)
      ensures this.data == data
    {
      this.data := data;
    }

    method HasItemsCollection() returns (has: bool)
      ensures has <==> ITEMS_COLLECTION in data
    {
      has := ITEMS_COLLECTION in data;
    }

    method UnsetData(key: string)
      modifies this
      ensures data == old(data) - {key}
    {
      data := data - {key};
    }
  }

  class TotalsCollectorPlugin {
    const totalsCollectionState: TotalsCollectionState

    constructor (totalsCollectionState: TotalsCollectionState)
      ensures this.totalsCollectionState == totalsCollectionState
    {
      this.totalsCollectionState := totalsCollectionState;
    }

    /** Raises the flag, drops `items_collection` if present, and passes the quote on unchanged otherwise. */
    method BeforeCollect(quote: Quote) returns (arguments: seq<Quote>)
      modifies totalsCollectionState, quote
      ensures totalsCollectionState.isCollecting
      ensures arguments == [quote]
      ensures quote.data == old(quote.data) - {ITEMS_COLLECTION}
      ensures ITEMS_COLLECTION !in old(quote.data) ==> quote.data == old(quote.data)
    {
      totalsCollectionState.SetIsCollecting(true);
      var has := quote.HasItemsCollection();
      if has {
        quote.UnsetData(ITEMS_COLLECTION);
      }
      arguments := [quote];
    }

    /** Lowers the flag and returns the collected totals as they are. */
    method AfterCollect<Total>(result: Total) returns (total: Total)
      modifies totalsCollectionState
      ensures !totalsCollectionState.isCollecting
      ensures total == result
    {
      totalsCollectionState.SetIsCollecting(false);
      total := result;
    }
  }

  /**
   * The two plugin methods as interception runs them around one totals
   * collection (the collection itself is not modelled): whatever the flag was
   * before, it is down afterwards, and the totals come back unchanged.
   */
  method AroundCollect<Total>(plugin: TotalsCollectorPlugin, quote: Quote, collected: Total) returns (total: Total)
    modifies plugin.totalsCollectionState, quote
    ensures !plugin.totalsCollectionState.isCollecting
    ensures total == collected
    ensures quote.data == old(quote.data) - {ITEMS_COLLECTION}
  {
    var arguments := plugin.BeforeCollect(quote);
    total := plugin.AfterCollect(collected);
  }
}
