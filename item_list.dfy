/** The item catalogue table: the search box and the low-stock highlight. */
module ItemList {
  import opened Seqs
  import opened Text
  import Catalogue

  /** The search: the item's name contains the search term, ignoring case. */
  predicate NameMatches(item: Catalogue.Item, searchTerm: string)
  {
    Contains(ToLower(item.name), ToLower(searchTerm))
  }

  /** `filteredItems`. */
  function FilteredItems(items: seq<Catalogue.Item>, searchTerm: string): seq<Catalogue.Item>
  {
    Filter(items, (item: Catalogue.Item) => NameMatches(item, searchTerm))
  }

  /** The table lists, in catalogue order, exactly the items whose name contains
      the search term; an empty term lists the whole catalogue. */
  lemma FilteredItemsSpec(items: seq<Catalogue.Item>, searchTerm: string)
    ensures IsSubsequence(FilteredItems(items, searchTerm), items)
    ensures forall x :: x in FilteredItems(items, searchTerm) <==> x in items && NameMatches(x, searchTerm)
    ensures searchTerm == "" ==> FilteredItems(items, searchTerm) == items
  {
    var p := (item: Catalogue.Item) => NameMatches(item, searchTerm);
    var r := FilteredItems(items, searchTerm);
    FilterIsSubsequence(items, p);
    forall x
      ensures x in r <==> x in items && NameMatches(x, searchTerm)
    {
      if x in items && p(x) {
        var i :| 0 <= i < |items| && items[i] == x;
        assert x in r;
      }
      if x in r {
        var i :| 0 <= i < |r| && r[i] == x;
        assert x in items && p(x);
      }
    }
    if searchTerm == "" {
      forall i | 0 <= i < |items|
        ensures p(items[i])
      {
        assert OccursAt(ToLower(items[i].name), ToLower(searchTerm), 0);
        ContainsIff(ToLower(items[i].name), ToLower(searchTerm));
      }
      FilterKeepsAll(items, p);
    }
  }

  /** The search ignores the case of both the name and the term. */
  lemma SearchIgnoresCase(item: Catalogue.Item, searchTerm: string)
    ensures NameMatches(item, searchTerm) <==> NameMatches(item, ToLower(searchTerm))
  {
    assert ToLower(ToLower(searchTerm)) == ToLower(searchTerm);
  }

  const LowStockLimit: int := 10

  /** The stock cell is shown bold in the error colour when stock is below 10. */
  predicate LowStock(stock: int)
  {
    stock < LowStockLimit
  }
}
