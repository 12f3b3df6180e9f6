/**
 * The inventory item as the browser side handles it, and the pure list computations of
 * the inventory page: statistics, the low-stock rule, the sale rule, replacing and
 * removing items by id, and the search filter.
 */
module Inventory {
  import opened Js
  import opened JsText
  import opened Seqs

  /**
   * An item. Money is exact (`real`); `lowStockThreshold` is `None` when it is missing or NaN;
   * an absent id, category, sku or image URL is the empty string; an absent profit is 0.
   */
  datatype Item = Item(
    id: string,
    name: string,
    category: string,
    sku: string,
    price: real,
    costPrice: real,
    quantity: int,
    lowStockThreshold: Option<int>,
    imageUrl: string,
    profit: real)

  const DefaultThreshold: int := 5

  /** `item.lowStockThreshold || 5`: a missing, NaN or zero threshold means 5. */
  function EffectiveThreshold(t: Option<int>): (r: int)
    ensures t.None? ==> r == DefaultThreshold
    ensures t.Some? && t.value == 0 ==> r == DefaultThreshold
    ensures t.Some? && t.value != 0 ==> r == t.value
  {
    match t
    case None => DefaultThreshold
    case Some(v) => if v == 0 then DefaultThreshold else v
  }

  /** `item.quantity <= item.lowStockThreshold`, without a default: a missing threshold compares false. */
  predicate AtOrBelowThreshold(item: Item)
  {
    item.lowStockThreshold.Some? && item.quantity <= item.lowStockThreshold.value
  }

  /** `items.filter(item => item.quantity <= item.lowStockThreshold)`. */
  function LowStockList(items: seq<Item>): seq<Item>
  {
    Filter(items, AtOrBelowThreshold)
  }

  /** The stock value of one item, `item.price * item.quantity`. */
  function StockValue(item: Item): real
  {
    item.price * item.quantity as real
  }

  /** `items.reduce((sum, item) => sum + item.price * item.quantity, 0)`. */
  function TotalValue(items: seq<Item>): real
  {
    if items == [] then 0.0 else TotalValue(items[..|items| - 1]) + StockValue(items[|items| - 1])
  }

  /** `items.reduce((sum, item) => sum + (item.profit || 0), 0)`. */
  function TotalProfit(items: seq<Item>): real
  {
    if items == [] then 0.0
    else TotalProfit(items[..|items| - 1]) + items[|items| - 1].profit
  }

  datatype Stats = Stats(totalItems: nat, totalValue: real, totalProfit: real, lowStockItems: nat)

  /** `calculateStats`: the four figures shown above the inventory list. */
  function CalculateStats(items: seq<Item>): (s: Stats)
    ensures s.totalItems == |items|
    ensures s.lowStockItems <= s.totalItems
    ensures s.lowStockItems == |LowStockList(items)|
  {
    Stats(|items|, TotalValue(items), TotalProfit(items), |LowStockList(items)|)
  }

  /** `items.map(item => item.id === updated.id ? updated : item)`. */
  function ReplaceById(items: seq<Item>, updated: Item): (r: seq<Item>)
    ensures |r| == |items|
  {
    seq(|items|, i requires 0 <= i < |items| => if items[i].id == updated.id then updated else items[i])
  }

  predicate HasOtherId(id: string, item: Item)
  {
    item.id != id
  }

  /** `items.filter(item => item.id !== id)`. */
  function RemoveById(items: seq<Item>, id: string): seq<Item>
  {
    Filter(items, item => HasOtherId(id, item))
  }

  /**
   * The item after selling `q` units: `{...item, quantity: item.quantity - q,
   * profit: (item.profit || 0) + q * (item.price - item.costPrice)}`.
   */
  function Sold(item: Item, q: int): (r: Item)
    ensures r.quantity + q == item.quantity
    ensures r.profit - item.profit == q as real * (item.price - item.costPrice)
    ensures r.(quantity := item.quantity, profit := item.profit) == item
    ensures q <= item.quantity ==> r.quantity >= 0
  {
    item.(quantity := item.quantity - q, profit := item.profit + q as real * (item.price - item.costPrice))
  }

  /** The item handed to `saveItem` by `handleAddItem` (the `createdAt` stamp is not modelled). */
  function AddRequest(newItem: Item): (r: Item)
    ensures r.lowStockThreshold == Some(EffectiveThreshold(newItem.lowStockThreshold))
    ensures r.profit == 0.0
    ensures r.(lowStockThreshold := newItem.lowStockThreshold, profit := newItem.profit) == newItem
  {
    newItem.(lowStockThreshold := Some(EffectiveThreshold(newItem.lowStockThreshold)), profit := 0.0)
  }

  /** The search predicate: the lowercased term occurs in the lowercased name, category or sku. */
  predicate MatchesSearch(term: string, item: Item)
  {
    var t := ToLower(term);
    Includes(ToLower(item.name), t) || Includes(ToLower(item.category), t) || Includes(ToLower(item.sku), t)
  }

  /** `filteredItems`. */
  function FilteredItems(items: seq<Item>, term: string): seq<Item>
  {
    Filter(items, item => MatchesSearch(term, item))
  }

  // ---------------------------------------------------------------------------
  // Properties.

  /** The low-stock list holds exactly the items at or below their own threshold, in order. */
  lemma LowStockListSpec(items: seq<Item>)
    ensures forall x :: x in LowStockList(items) <==> x in items && AtOrBelowThreshold(x)
    ensures IsSubsequence(LowStockList(items), items)
  {
    FilterIsSubsequence(items, AtOrBelowThreshold);
  }

  lemma {:induction false} TotalValueAppend(a: seq<Item>, b: seq<Item>)
    ensures TotalValue(a + b) == TotalValue(a) + TotalValue(b)
    decreases |b|
  {
    if b == [] {
      assert a + b == a;
    } else {
      TotalValueAppend(a, b[..|b| - 1]);
      assert (a + b)[..|a + b| - 1] == a + b[..|b| - 1];
    }
  }

  lemma {:induction false} TotalProfitAppend(a: seq<Item>, b: seq<Item>)
    ensures TotalProfit(a + b) == TotalProfit(a) + TotalProfit(b)
    decreases |b|
  {
    if b == [] {
      assert a + b == a;
    } else {
      TotalProfitAppend(a, b[..|b| - 1]);
      assert (a + b)[..|a + b| - 1] == a + b[..|b| - 1];
    }
  }

  /** When the id occurs once, at `i`, replacing by id changes position `i` only. */
  lemma ReplaceUniqueId(items: seq<Item>, i: nat, updated: Item)
    requires i < |items| && items[i].id == updated.id
    requires forall j :: 0 <= j < |items| && j != i ==> items[j].id != updated.id
    ensures ReplaceById(items, updated) == items[..i] + [updated] + items[i + 1..]
  {
  }

  /** Replacing an id that no item carries changes nothing. */
  lemma ReplaceAbsentId(items: seq<Item>, updated: Item)
    requires forall j :: 0 <= j < |items| ==> items[j].id != updated.id
    ensures ReplaceById(items, updated) == items
  {
  }

  /** The totals of a list split around one element. */
  lemma TotalsAround(pre: seq<Item>, x: Item, post: seq<Item>)
    ensures TotalValue(pre + [x] + post) == TotalValue(pre) + StockValue(x) + TotalValue(post)
    ensures TotalProfit(pre + [x] + post) == TotalProfit(pre) + x.profit + TotalProfit(post)
  {
    TotalValueAppend(pre + [x], post);
    TotalValueAppend(pre, [x]);
    TotalProfitAppend(pre + [x], post);
    TotalProfitAppend(pre, [x]);
    assert [x][..0] == [];
  }

  /** Multiplying out the stock value of a sold item. */
  lemma SoldValue(item: Item, q: int)
    ensures StockValue(Sold(item, q)) == StockValue(item) - q as real * item.price
  {
    var p, n := item.price, item.quantity as real;
    assert (item.quantity - q) as real == n - q as real;
    assert p * (n - q as real) == p * n - q as real * p;
  }

  /** Replacing the item at `i`, whose id occurs once, swaps its share of the stock value. */
  lemma ReplaceValue(items: seq<Item>, i: nat, u: Item)
    requires i < |items| && items[i].id == u.id
    requires forall j :: 0 <= j < |items| && j != i ==> items[j].id != u.id
    ensures TotalValue(ReplaceById(items, u)) == TotalValue(items) - StockValue(items[i]) + StockValue(u)
  {
    ReplaceUniqueId(items, i, u);
    var pre, post := items[..i], items[i + 1..];
    assert items == pre + [items[i]] + post;
    TotalsAround(pre, items[i], post);
    TotalsAround(pre, u, post);
  }

  /** Replacing the item at `i`, whose id occurs once, swaps its share of the total profit. */
  lemma ReplaceProfit(items: seq<Item>, i: nat, u: Item)
    requires i < |items| && items[i].id == u.id
    requires forall j :: 0 <= j < |items| && j != i ==> items[j].id != u.id
    ensures TotalProfit(ReplaceById(items, u)) == TotalProfit(items) - items[i].profit + u.profit
  {
    ReplaceUniqueId(items, i, u);
    var pre, post := items[..i], items[i + 1..];
    assert items == pre + [items[i]] + post;
    TotalsAround(pre, items[i], post);
    TotalsAround(pre, u, post);
  }

  /** Selling `q` units of `item`, listed at `i` with an id no other entry has, lowers the stock value by `q * price`. */
  lemma SaleValue(items: seq<Item>, i: nat, item: Item, q: int)
    requires i < |items| && items[i] == item
    requires forall j :: 0 <= j < |items| && j != i ==> items[j].id != item.id
    ensures TotalValue(ReplaceById(items, Sold(item, q))) == TotalValue(items) - q as real * item.price
  {
    ReplaceValue(items, i, Sold(item, q));
    SoldValue(item, q);
  }

  /** Selling `q` units of `item`, listed at `i` with an id no other entry has, adds `q * (price - costPrice)` to the profit. */
  lemma SaleProfit(items: seq<Item>, i: nat, item: Item, q: int)
    requires i < |items| && items[i] == item
    requires forall j :: 0 <= j < |items| && j != i ==> items[j].id != item.id
    ensures TotalProfit(ReplaceById(items, Sold(item, q))) == TotalProfit(items) + q as real * (item.price - item.costPrice)
  {
    ReplaceProfit(items, i, Sold(item, q));
  }

  /**
   * Selling `q` units of `item`, listed at `i` with an id no other entry has, keeps the item count,
   * lowers the stock value by `q * price` and raises the total profit by `q * (price - costPrice)`.
   */
  lemma SaleMovesStatistics(items: seq<Item>, i: nat, item: Item, q: int)
    requires i < |items| && items[i] == item
    requires forall j :: 0 <= j < |items| && j != i ==> items[j].id != item.id
    ensures var after := CalculateStats(ReplaceById(items, Sold(item, q)));
      var before := CalculateStats(items);
      && after.totalItems == before.totalItems
      && after.totalValue == before.totalValue - q as real * item.price
      && after.totalProfit == before.totalProfit + q as real * (item.price - item.costPrice)
  {
    SaleValue(items, i, item, q);
    SaleProfit(items, i, item, q);
  }

  /** Two sales in a row amount to one sale of the combined quantity. */
  lemma SalesCompose(item: Item, a: int, b: int)
    ensures Sold(Sold(item, a), b) == Sold(item, a + b)
  {
    assert (a + b) as real * (item.price - item.costPrice)
        == a as real * (item.price - item.costPrice) + b as real * (item.price - item.costPrice);
  }

  /** After removal no item carries the id, every other item stays and the order is kept. */
  lemma RemoveByIdSpec(items: seq<Item>, id: string)
    ensures forall x :: x in RemoveById(items, id) <==> x in items && x.id != id
    ensures IsSubsequence(RemoveById(items, id), items)
  {
    FilterIsSubsequence(items, item => HasOtherId(id, item));
  }

  /** The search keeps, in order, exactly the items whose name, category or sku contains the term. */
  lemma FilteredItemsSpec(items: seq<Item>, term: string)
    ensures forall x :: x in FilteredItems(items, term) <==> x in items && MatchesSearch(term, x)
    ensures IsSubsequence(FilteredItems(items, term), items)
  {
    FilterIsSubsequence(items, item => MatchesSearch(term, item));
  }

  /** An empty search term keeps every item, in order. */
  lemma EmptySearchKeepsAll(items: seq<Item>)
    ensures FilteredItems(items, "") == items
  {
    forall i | 0 <= i < |items| ensures MatchesSearch("", items[i]) {
      assert ToLower("") == "";
      assert "" <= ToLower(items[i].name);
    }
    FilterKeepsAll(items, item => MatchesSearch("", item));
  }
}
