/**
  * The inventory view: a search over product name and SKU, a stock-status
  * filter, and stock counts over the whole list.
  */
module Inventory {
  import opened Text
  import opened Filtering

  datatype InventoryItem = InventoryItem(
    sku: string,
    product: string,
    category: string,
    quantity: int,
    location: string,
    status: string,
    customs: string,
    barcode: string,
    lastUpdated: string)

  /** The product name or the SKU contains the search term, ignoring case. */
  predicate MatchesSearch(item: InventoryItem, searchTerm: string) {
    IncludesIgnoringCase(item.product, searchTerm) || IncludesIgnoringCase(item.sku, searchTerm)
  }

  /** The status filter is "all" or names the item's status exactly. */
  predicate MatchesStatus(item: InventoryItem, statusFilter: string) {
    statusFilter == "all" || item.status == statusFilter
  }

  /** `filteredItems`: the rows the table shows. */
  function FilteredItems(items: seq<InventoryItem>, searchTerm: string, statusFilter: string): seq<InventoryItem> {
    Filter(items, (item: InventoryItem) => MatchesSearch(item, searchTerm) && MatchesStatus(item, statusFilter))
  }

  /** The number of items whose status is "Low Stock". */
  function LowStockCount(items: seq<InventoryItem>): nat {
    |Filter(items, (item: InventoryItem) => item.status == "Low Stock")|
  }

  /** The number of items whose status is "Out of Stock". */
  function OutOfStockCount(items: seq<InventoryItem>): nat {
    |Filter(items, (item: InventoryItem) => item.status == "Out of Stock")|
  }

  /** The table keeps the items' order and only drops rows. */
  lemma FilteredItemsIsSubsequence(items: seq<InventoryItem>, searchTerm: string, statusFilter: string)
    ensures IsSubsequence(FilteredItems(items, searchTerm, statusFilter), items)
  {
    FilterIsSubsequence(items, (item: InventoryItem) => MatchesSearch(item, searchTerm) && MatchesStatus(item, statusFilter));
  }

  /** An item is shown exactly when it is in the list and passes both the search and the status filter. */
  lemma FilteredItemsMembership(items: seq<InventoryItem>, searchTerm: string, statusFilter: string, x: InventoryItem)
    ensures x in FilteredItems(items, searchTerm, statusFilter) <==>
            x in items && MatchesSearch(x, searchTerm) && MatchesStatus(x, statusFilter)
  {
    FilterMembership(items, (item: InventoryItem) => MatchesSearch(item, searchTerm) && MatchesStatus(item, statusFilter), x);
  }

  /** With nothing typed and "all" selected, every item is shown. */
  lemma EmptySearchShowsAll(items: seq<InventoryItem>)
    ensures FilteredItems(items, "", "all") == items
  {
    forall i | 0 <= i < |items|
      ensures MatchesSearch(items[i], "") && MatchesStatus(items[i], "all")
    {
      IncludesEmpty(Lower(items[i].product));
    }
    FilterKeepsAll(items, (item: InventoryItem) => MatchesSearch(item, "") && MatchesStatus(item, "all"));
  }

  /** For a fixed search, choosing a status narrows what "all" shows. */
  lemma StatusNarrowsAll(items: seq<InventoryItem>, searchTerm: string, statusFilter: string)
    ensures IsSubsequence(FilteredItems(items, searchTerm, statusFilter), FilteredItems(items, searchTerm, "all"))
  {
    FilterWeakening(items,
      (item: InventoryItem) => MatchesSearch(item, searchTerm) && MatchesStatus(item, statusFilter),
      (item: InventoryItem) => MatchesSearch(item, searchTerm) && MatchesStatus(item, "all"));
  }

  /** No item is both low and out of stock, so the two counts together never exceed the total. */
  lemma StockCountsBounded(items: seq<InventoryItem>)
    ensures LowStockCount(items) + OutOfStockCount(items) <= |items|
  {
    FilterDisjoint(items,
      (item: InventoryItem) => item.status == "Low Stock",
      (item: InventoryItem) => item.status == "Out of Stock");
  }

  /** The counts cover the whole list: the rows the table shows never hold more low-stock items. */
  lemma CountsIgnoreFilters(items: seq<InventoryItem>, searchTerm: string, statusFilter: string)
    ensures LowStockCount(FilteredItems(items, searchTerm, statusFilter)) <= LowStockCount(items)
    ensures OutOfStockCount(FilteredItems(items, searchTerm, statusFilter)) <= OutOfStockCount(items)
  {
    var shown := (item: InventoryItem) => MatchesSearch(item, searchTerm) && MatchesStatus(item, statusFilter);
    var low := (item: InventoryItem) => item.status == "Low Stock";
    var out := (item: InventoryItem) => item.status == "Out of Stock";
    var lowShown := (item: InventoryItem) => shown(item) && low(item);
    var outShown := (item: InventoryItem) => shown(item) && out(item);
    FilterCompose(items, shown, low, lowShown);
    FilterCompose(items, shown, out, outShown);
    FilterWeakening(items, lowShown, low);
    FilterWeakening(items, outShown, out);
    SubsequenceShorter(Filter(items, lowShown), Filter(items, low));
    SubsequenceShorter(Filter(items, outShown), Filter(items, out));
  }
}
