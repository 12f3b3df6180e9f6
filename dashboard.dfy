/**
 * The aggregations of the sales dashboard: the top five items by quantity sold,
 * grouped by item id, and the number of items per category. Both folds fill a
 * dictionary keyed in insertion order; the low-stock list and the stock value it shows
 * are `Inventory.LowStockList` and `Inventory.TotalValue`.
 */
module Dashboard {
  import opened Seqs
  import opened Inventory

  /** A sale as the sales endpoint returns it, with the fields the dashboard reads. */
  datatype Sale = Sale(itemId: string, itemName: string, quantity: int, total: real)

  /** One entry of `salesByItem`. */
  datatype Seller = Seller(name: string, quantity: int, total: real)

  /** The `salesByItem` dictionary: its keys in insertion order and its entries. */
  datatype Groups = Groups(order: seq<string>, byId: map<string, Seller>)

  ghost predicate Occurs(sales: seq<Sale>, id: string)
  {
    exists i :: 0 <= i < |sales| && sales[i].itemId == id
  }

  /** The position of the first sale of item `id`. */
  function FirstIndex(sales: seq<Sale>, id: string): (k: nat)
    requires Occurs(sales, id)
    ensures k < |sales| && sales[k].itemId == id
    ensures forall j :: 0 <= j < k ==> sales[j].itemId != id
  {
    if sales[0].itemId == id then 0
    else
      assert Occurs(sales[1..], id) by {
        var i :| 0 <= i < |sales| && sales[i].itemId == id;
        assert sales[1..][i - 1] == sales[i];
      }
      1 + FirstIndex(sales[1..], id)
  }

  /** The quantities of the sales of item `id`, added up. */
  function QuantitySold(sales: seq<Sale>, id: string): int
  {
    if sales == [] then 0
    else QuantitySold(sales[..|sales| - 1], id) + (if sales[|sales| - 1].itemId == id then sales[|sales| - 1].quantity else 0)
  }

  /** The totals of the sales of item `id`, added up. */
  function TotalSold(sales: seq<Sale>, id: string): real
  {
    if sales == [] then 0.0
    else TotalSold(sales[..|sales| - 1], id) + (if sales[|sales| - 1].itemId == id then sales[|sales| - 1].total else 0.0)
  }

  /** One step of the `salesByItem` reduce: a new id gets an entry named after this sale. */
  function AddSale(g: Groups, s: Sale): Groups
  {
    if s.itemId in g.byId then
      var e := g.byId[s.itemId];
      Groups(g.order, g.byId[s.itemId := e.(quantity := e.quantity + s.quantity, total := e.total + s.total)])
    else
      Groups(g.order + [s.itemId], g.byId[s.itemId := Seller(s.itemName, s.quantity, s.total)])
  }

  /** `salesData.reduce(…, {})` for the top sellers. */
  function GroupOf(sales: seq<Sale>): Groups
  {
    if sales == [] then Groups([], map[]) else AddSale(GroupOf(sales[..|sales| - 1]), sales[|sales| - 1])
  }

  /** The keys in insertion order are the dictionary's keys, each once. */
  ghost predicate WellFormed(g: Groups)
  {
    Distinct(g.order) && forall id :: id in g.byId <==> id in g.order
  }

  /** The reduce as a loop over the sales. */
  method GroupSales(sales: seq<Sale>) returns (g: Groups)
    ensures g == GroupOf(sales)
  {
    g := Groups([], map[]);
    var i := 0;
    while i < |sales|
      invariant 0 <= i <= |sales|
      invariant g == GroupOf(sales[..i])
    {
      assert sales[..i + 1][..i] == sales[..i];
      g := AddSale(g, sales[i]);
      i := i + 1;
    }
    assert sales[..|sales|] == sales;
  }

  /** Without a sale of `id`, nothing is added up for it. */
  lemma {:induction false} NoSalesNoSums(sales: seq<Sale>, id: string)
    requires forall i :: 0 <= i < |sales| ==> sales[i].itemId != id
    ensures QuantitySold(sales, id) == 0 && TotalSold(sales, id) == 0.0
  {
    if sales != [] {
      var p := sales[..|sales| - 1];
      assert forall i :: 0 <= i < |p| ==> p[i] == sales[i];
      NoSalesNoSums(p, id);
    }
  }

  /** A later sale does not move the first sale of an item already sold. */
  lemma FirstIndexOfPrefix(sales: seq<Sale>, id: string)
    requires sales != [] && Occurs(sales[..|sales| - 1], id)
    ensures Occurs(sales, id)
    ensures FirstIndex(sales, id) == FirstIndex(sales[..|sales| - 1], id)
  {
    var p := sales[..|sales| - 1];
    var b := FirstIndex(p, id);
    assert sales[b] == p[b];
    assert forall j :: 0 <= j < b ==> sales[j] == p[j];
  }

  /** `Occurs` on a sequence with one more sale. */
  lemma OccursAppend(sales: seq<Sale>, id: string)
    requires sales != []
    ensures Occurs(sales, id) <==> Occurs(sales[..|sales| - 1], id) || sales[|sales| - 1].itemId == id
  {
    var p := sales[..|sales| - 1];
    if Occurs(sales, id) && sales[|sales| - 1].itemId != id {
      var i :| 0 <= i < |sales| && sales[i].itemId == id;
      assert p[i] == sales[i];
    }
    if Occurs(p, id) {
      var i :| 0 <= i < |p| && p[i].itemId == id;
      assert sales[i] == p[i];
    }
  }

  /** The dictionary has one key per item sold, each listed once in the key order. */
  lemma {:induction false} GroupKeys(sales: seq<Sale>)
    ensures WellFormed(GroupOf(sales))
    ensures forall id :: id in GroupOf(sales).byId <==> Occurs(sales, id)
  {
    if sales != [] {
      var p := sales[..|sales| - 1];
      GroupKeys(p);
      forall id ensures Occurs(sales, id) <==> Occurs(p, id) || sales[|sales| - 1].itemId == id {
        OccursAppend(sales, id);
      }
    }
  }

  /** The keys are listed in the order of each item's first sale. */
  lemma {:induction false} GroupOrder(sales: seq<Sale>)
    ensures forall i :: 0 <= i < |GroupOf(sales).order| ==> Occurs(sales, GroupOf(sales).order[i])
    ensures forall i, j :: 0 <= i < j < |GroupOf(sales).order| ==>
      FirstIndex(sales, GroupOf(sales).order[i]) < FirstIndex(sales, GroupOf(sales).order[j])
  {
    if sales != [] {
      var p := sales[..|sales| - 1];
      var s := sales[|sales| - 1];
      GroupKeys(p);
      GroupOrder(p);
      var o := GroupOf(p).order;
      forall i | 0 <= i < |o|
        ensures Occurs(sales, o[i]) && FirstIndex(sales, o[i]) == FirstIndex(p, o[i])
      {
        FirstIndexOfPrefix(sales, o[i]);
      }
      if s.itemId !in GroupOf(p).byId {
        assert !Occurs(p, s.itemId);
        assert Occurs(sales, s.itemId) by { assert sales[|sales| - 1].itemId == s.itemId; }
        assert FirstIndex(sales, s.itemId) == |sales| - 1;
        assert GroupOf(sales).order == o + [s.itemId];
      }
    }
  }

  /** The entry of `id` after one more sale, from its entry before. */
  lemma EntryStep(sales: seq<Sale>, id: string)
    requires sales != []
    requires id in GroupOf(sales[..|sales| - 1]).byId <==> Occurs(sales[..|sales| - 1], id)
    requires Occurs(sales[..|sales| - 1], id) ==> var p := sales[..|sales| - 1];
      GroupOf(p).byId[id] == Seller(p[FirstIndex(p, id)].itemName, QuantitySold(p, id), TotalSold(p, id))
    requires id in GroupOf(sales).byId
    ensures Occurs(sales, id)
    ensures GroupOf(sales).byId[id] == Seller(sales[FirstIndex(sales, id)].itemName, QuantitySold(sales, id), TotalSold(sales, id))
  {
    var p := sales[..|sales| - 1];
    OccursAppend(sales, id);
    if Occurs(p, id) {
      FirstIndexOfPrefix(sales, id);
    } else {
      assert forall i :: 0 <= i < |p| ==> p[i].itemId != id;
      NoSalesNoSums(p, id);
    }
  }

  /**
   * Each entry is named after the item's first sale and holds the quantities and totals
   * of all of the item's sales added up.
   */
  lemma {:induction false} GroupEntries(sales: seq<Sale>)
    ensures forall id :: id in GroupOf(sales).byId ==>
      Occurs(sales, id) && GroupOf(sales).byId[id] == Seller(sales[FirstIndex(sales, id)].itemName, QuantitySold(sales, id), TotalSold(sales, id))
  {
    if sales != [] {
      var p := sales[..|sales| - 1];
      GroupKeys(p);
      GroupEntries(p);
      forall id | id in GroupOf(sales).byId
        ensures Occurs(sales, id)
        ensures GroupOf(sales).byId[id] == Seller(sales[FirstIndex(sales, id)].itemName, QuantitySold(sales, id), TotalSold(sales, id))
      {
        EntryStep(sales, id);
      }
    }
  }

  /** `Object.values(salesByItem)`: the entries in key insertion order. */
  function Values(g: Groups): (r: seq<Seller>)
    requires WellFormed(g)
    ensures |r| == |g.order| && forall i :: 0 <= i < |r| ==> r[i] == g.byId[g.order[i]]
  {
    seq(|g.order|, i requires 0 <= i < |g.order| => g.byId[g.order[i]])
  }

  /** The entries of `salesByItem` for the given sales. */
  function Entries(sales: seq<Sale>): (r: seq<Seller>)
    ensures |r| == |GroupOf(sales).order|
    ensures forall i :: 0 <= i < |r| ==> var id := GroupOf(sales).order[i];
      Occurs(sales, id) && r[i] == Seller(sales[FirstIndex(sales, id)].itemName, QuantitySold(sales, id), TotalSold(sales, id))
  {
    GroupKeys(sales);
    GroupEntries(sales);
    Values(GroupOf(sales))
  }

  predicate SortedByQuantity(xs: seq<Seller>)
  {
    forall i, j :: 0 <= i < j < |xs| ==> xs[i].quantity >= xs[j].quantity
  }

  /** No entry of `xs` sold more than `bound`. */
  predicate AtMost(xs: seq<Seller>, bound: int)
  {
    forall i :: 0 <= i < |xs| ==> xs[i].quantity <= bound
  }

  lemma AtMostPermuted(xs: seq<Seller>, ys: seq<Seller>, bound: int)
    requires multiset(xs) == multiset(ys) && AtMost(ys, bound)
    ensures AtMost(xs, bound)
  {
    forall i | 0 <= i < |xs| ensures xs[i].quantity <= bound {
      assert xs[i] in multiset(xs);
      assert xs[i] in ys;
    }
  }

  lemma SortedCons(h: Seller, xs: seq<Seller>)
    requires SortedByQuantity(xs) && AtMost(xs, h.quantity)
    ensures SortedByQuantity([h] + xs)
  {
    assert forall i :: 0 < i <= |xs| ==> ([h] + xs)[i] == xs[i - 1];
  }

  /** Inserts `x` before the first entry that sold no more than it, as a stable sort places it. */
  function Insert(x: Seller, ys: seq<Seller>): (r: seq<Seller>)
    requires SortedByQuantity(ys)
    ensures SortedByQuantity(r)
    ensures multiset(r) == multiset(ys) + multiset{x}
  {
    if ys == [] || ys[0].quantity <= x.quantity then
      assert AtMost(ys, x.quantity);
      SortedCons(x, ys);
      [x] + ys
    else
      var t := ys[1..];
      assert ys == [ys[0]] + t;
      var rest := Insert(x, t);
      InsertBehindHead(ys[0], t, x, rest);
      [ys[0]] + rest
  }

  /** An entry that outsells `x` and every entry of `t` stays in front of `x` inserted into `t`. */
  lemma InsertBehindHead(h: Seller, t: seq<Seller>, x: Seller, rest: seq<Seller>)
    requires SortedByQuantity([h] + t) && x.quantity < h.quantity
    requires SortedByQuantity(rest) && multiset(rest) == multiset(t) + multiset{x}
    ensures SortedByQuantity([h] + rest)
  {
    forall i | 0 <= i < |t| ensures t[i].quantity <= h.quantity {
      assert ([h] + t)[0] == h && ([h] + t)[i + 1] == t[i];
    }
    assert AtMost(t + [x], h.quantity) by {
      forall i | 0 <= i < |t + [x]| ensures (t + [x])[i].quantity <= h.quantity {
        if i < |t| {
          assert (t + [x])[i] == t[i];
        } else {
          assert (t + [x])[i] == x;
        }
      }
    }
    assert multiset(t + [x]) == multiset(t) + multiset{x};
    AtMostPermuted(rest, t + [x], h.quantity);
    SortedCons(h, rest);
  }

  /** `.sort((a, b) => b.quantity - a.quantity)`: the entries by quantity, largest first. */
  function SortByQuantity(xs: seq<Seller>): (r: seq<Seller>)
    ensures SortedByQuantity(r)
    ensures multiset(r) == multiset(xs) && |r| == |xs|
  {
    if xs == [] then []
    else
      assert xs == [xs[0]] + xs[1..];
      Insert(xs[0], SortByQuantity(xs[1..]))
  }

  /** The first five of the entries sorted by quantity. */
  function TopFive(xs: seq<Seller>): (r: seq<Seller>)
    ensures |r| <= 5
  {
    var s := SortByQuantity(xs);
    if |s| <= 5 then s else s[..5]
  }

  /** Cut anywhere, a sorted list keeps its front sorted and no entry behind the cut outsells one before it. */
  lemma SplitSorted(s: seq<Seller>, n: nat)
    requires SortedByQuantity(s) && n <= |s|
    ensures SortedByQuantity(s[..n])
    ensures forall x, y :: x in multiset(s[n..]) && y in s[..n] ==> y.quantity >= x.quantity
  {
    forall x, y | x in multiset(s[n..]) && y in s[..n] ensures y.quantity >= x.quantity {
      var j :| 0 <= j < |s[n..]| && s[n..][j] == x;
      var i :| 0 <= i < n && s[..n][i] == y;
      assert s[i] == y && s[n + j] == x;
    }
  }

  /** `TopFive` is a sorted sub-multiset of the entries, five long unless there are fewer. */
  lemma TopFiveSpec(xs: seq<Seller>)
    ensures var r := TopFive(xs);
      && |r| == (if |xs| < 5 then |xs| else 5)
      && SortedByQuantity(r)
      && multiset(r) <= multiset(xs)
  {
    var s := SortByQuantity(xs);
    var r := TopFive(xs);
    SplitSorted(s, |r|);
    assert s == r + s[|r|..];
  }

  /** No entry that `TopFive` leaves out sold more than an entry it keeps. */
  lemma TopFiveOutsells(xs: seq<Seller>)
    ensures forall x, y :: x in multiset(xs) - multiset(TopFive(xs)) && y in TopFive(xs) ==> y.quantity >= x.quantity
  {
    var s := SortByQuantity(xs);
    var r := TopFive(xs);
    var rest := s[|r|..];
    SplitSorted(s, |r|);
    assert r == s[..|r|];
    assert s == r + rest;
    LeftOut(multiset(xs), multiset(r), multiset(rest));
    forall x, y | x in multiset(xs) - multiset(r) && y in r ensures y.quantity >= x.quantity {
      assert x in multiset(rest);
    }
  }

  /** What is left of `a + b` without `a` is `b`. */
  lemma LeftOut(m: multiset<Seller>, a: multiset<Seller>, b: multiset<Seller>)
    requires m == a + b
    ensures m - a == b
  {
  }

  /** `getTopSellingItems`: the five items that sold most, from the grouped entries. */
  function TopSellingItems(sales: seq<Sale>): (r: seq<Seller>)
    ensures |r| <= 5
    ensures forall x :: x in r ==> x in Entries(sales)
  {
    TopFiveSpec(Entries(sales));
    var r := TopFive(Entries(sales));
    assert forall x :: x in r ==> x in multiset(r);
    r
  }

  // ---------------------------------------------------------------------------
  // Items per category.

  /** `item.category || 'Uncategorized'`. */
  function CategoryKey(item: Item): string
  {
    if item.category == "" then "Uncategorized" else item.category
  }

  /** The category-count dictionary: its keys in insertion order and the counts. */
  datatype Counts = Counts(order: seq<string>, byCategory: map<string, nat>)

  /** One step of the category reduce. */
  function CountItem(c: Counts, item: Item): Counts
  {
    var k := CategoryKey(item);
    if k in c.byCategory then Counts(c.order, c.byCategory[k := c.byCategory[k] + 1])
    else Counts(c.order + [k], c.byCategory[k := 1])
  }

  /** `items.reduce(…, {})` for the category counts. */
  function CountsOf(items: seq<Item>): Counts
  {
    if items == [] then Counts([], map[]) else CountItem(CountsOf(items[..|items| - 1]), items[|items| - 1])
  }

  /** The reduce as a loop over the items. */
  method CountByCategory(items: seq<Item>) returns (c: Counts)
    ensures c == CountsOf(items)
  {
    c := Counts([], map[]);
    var i := 0;
    while i < |items|
      invariant 0 <= i <= |items|
      invariant c == CountsOf(items[..i])
    {
      assert items[..i + 1][..i] == items[..i];
      c := CountItem(c, items[i]);
      i := i + 1;
    }
    assert items[..|items|] == items;
  }

  /** The number of items filed under `k`. */
  function CountIn(items: seq<Item>, k: string): nat
  {
    if items == [] then 0
    else CountIn(items[..|items| - 1], k) + (if CategoryKey(items[|items| - 1]) == k then 1 else 0)
  }

  /** The counts of the keys in `order`, added up. */
  function SumCounts(order: seq<string>, m: map<string, nat>): nat
  {
    if order == [] then 0
    else SumCounts(order[..|order| - 1], m) + (if order[|order| - 1] in m then m[order[|order| - 1]] else 0)
  }

  lemma {:induction false} SumCountsOther(order: seq<string>, m: map<string, nat>, k: string, v: nat)
    requires k !in order
    ensures SumCounts(order, m[k := v]) == SumCounts(order, m)
  {
    if order != [] {
      SumCountsOther(order[..|order| - 1], m, k, v);
    }
  }

  lemma {:induction false} SumCountsBump(order: seq<string>, m: map<string, nat>, k: string)
    requires Distinct(order) && k in order && k in m
    ensures SumCounts(order, m[k := m[k] + 1]) == SumCounts(order, m) + 1
  {
    var p := order[..|order| - 1];
    var last := order[|order| - 1];
    assert Distinct(p);
    if last == k {
      assert k !in p;
      SumCountsOther(p, m, k, m[k] + 1);
    } else {
      assert k in p by {
        var i :| 0 <= i < |order| && order[i] == k;
        assert p[i] == order[i];
      }
      SumCountsBump(p, m, k);
    }
  }

  /** Some item is filed under `k`. */
  ghost predicate Filed(items: seq<Item>, k: string)
  {
    exists i :: 0 <= i < |items| && CategoryKey(items[i]) == k
  }

  /** The position of the first item filed under `k`. */
  function FirstFiled(items: seq<Item>, k: string): (i: nat)
    requires Filed(items, k)
    ensures i < |items| && CategoryKey(items[i]) == k
    ensures forall j :: 0 <= j < i ==> CategoryKey(items[j]) != k
  {
    if CategoryKey(items[0]) == k then 0
    else
      assert Filed(items[1..], k) by {
        var i :| 0 <= i < |items| && CategoryKey(items[i]) == k;
        assert items[1..][i - 1] == items[i];
      }
      1 + FirstFiled(items[1..], k)
  }

  /** Filing one more item does not move the first position of a category already filed. */
  lemma FirstFiledOfPrefix(items: seq<Item>, k: string)
    requires items != [] && Filed(items[..|items| - 1], k)
    ensures Filed(items, k)
    ensures FirstFiled(items, k) == FirstFiled(items[..|items| - 1], k)
  {
    var p := items[..|items| - 1];
    var b := FirstFiled(p, k);
    assert items[b] == p[b];
    assert Filed(items, k);
    var a := FirstFiled(items, k);
    assert a <= b;
    assert p[a] == items[a];
  }

  /** `Filed` on a sequence with one more item. */
  lemma FiledAppend(items: seq<Item>, k: string)
    requires items != []
    ensures Filed(items, k) <==> Filed(items[..|items| - 1], k) || CategoryKey(items[|items| - 1]) == k
  {
    var p := items[..|items| - 1];
    if Filed(items, k) && CategoryKey(items[|items| - 1]) != k {
      var i :| 0 <= i < |items| && CategoryKey(items[i]) == k;
      assert p[i] == items[i];
    }
    if Filed(p, k) {
      var i :| 0 <= i < |p| && CategoryKey(p[i]) == k;
      assert items[i] == p[i];
    }
  }

  /** The category keys are those items are filed under, each listed once. */
  lemma {:induction false} CountsKeys(items: seq<Item>)
    ensures Distinct(CountsOf(items).order)
    ensures forall k :: k in CountsOf(items).byCategory <==> k in CountsOf(items).order
    ensures forall k :: k in CountsOf(items).byCategory <==> Filed(items, k)
  {
    if items != [] {
      var p := items[..|items| - 1];
      CountsKeys(p);
      forall k ensures Filed(items, k) <==> Filed(p, k) || CategoryKey(items[|items| - 1]) == k {
        FiledAppend(items, k);
      }
    }
  }

  /** The category keys are listed in the order of each category's first item. */
  lemma {:induction false} CountsOrder(items: seq<Item>)
    ensures forall i :: 0 <= i < |CountsOf(items).order| ==> Filed(items, CountsOf(items).order[i])
    ensures forall i, j :: 0 <= i < j < |CountsOf(items).order| ==>
      FirstFiled(items, CountsOf(items).order[i]) < FirstFiled(items, CountsOf(items).order[j])
  {
    if items != [] {
      var p := items[..|items| - 1];
      var k := CategoryKey(items[|items| - 1]);
      CountsKeys(p);
      CountsOrder(p);
      var o := CountsOf(p).order;
      forall i | 0 <= i < |o|
        ensures Filed(items, o[i]) && FirstFiled(items, o[i]) == FirstFiled(p, o[i])
      {
        FirstFiledOfPrefix(items, o[i]);
      }
      if k in CountsOf(p).byCategory {
        assert CountsOf(items).order == o;
      } else {
        NewCategoryFiledLast(items);
        var o' := CountsOf(items).order;
        assert o' == o + [k];
        forall i, j | 0 <= i < j < |o'| ensures FirstFiled(items, o'[i]) < FirstFiled(items, o'[j]) {
          if j == |o| {
            assert o'[i] == o[i];
          }
        }
      }
    }
  }

  /** A category first filed by the last item has its first position there. */
  lemma NewCategoryFiledLast(items: seq<Item>)
    requires items != [] && CategoryKey(items[|items| - 1]) !in CountsOf(items[..|items| - 1]).byCategory
    ensures Filed(items, CategoryKey(items[|items| - 1]))
    ensures FirstFiled(items, CategoryKey(items[|items| - 1])) == |items| - 1
  {
    var p := items[..|items| - 1];
    var k := CategoryKey(items[|items| - 1]);
    CountsKeys(p);
    assert !Filed(p, k);
    assert Filed(items, k) by { assert CategoryKey(items[|items| - 1]) == k; }
    forall j | 0 <= j < |items| - 1 ensures CategoryKey(items[j]) != k {
      assert items[j] == p[j];
    }
  }

  lemma {:induction false} NoneInCategory(items: seq<Item>, k: string)
    requires forall i :: 0 <= i < |items| ==> CategoryKey(items[i]) != k
    ensures CountIn(items, k) == 0
  {
    if items != [] {
      var p := items[..|items| - 1];
      assert forall i :: 0 <= i < |p| ==> p[i] == items[i];
      NoneInCategory(p, k);
    }
  }

  /** Each category's count is the number of items filed under it, a blank category under 'Uncategorized'. */
  lemma {:induction false} CountsValues(items: seq<Item>)
    ensures forall k :: k in CountsOf(items).byCategory ==> CountsOf(items).byCategory[k] == CountIn(items, k)
  {
    if items != [] {
      var p := items[..|items| - 1];
      CountsKeys(p);
      CountsValues(p);
      var k := CategoryKey(items[|items| - 1]);
      if k !in CountsOf(p).byCategory {
        assert forall i :: 0 <= i < |p| ==> CategoryKey(p[i]) != k;
        NoneInCategory(p, k);
      }
    }
  }

  /** The counts add up to the number of items. */
  lemma {:induction false} CountsTotal(items: seq<Item>)
    ensures SumCounts(CountsOf(items).order, CountsOf(items).byCategory) == |items|
  {
    if items != [] {
      var p := items[..|items| - 1];
      CountsKeys(p);
      CountsTotal(p);
      CountItemTotal(CountsOf(p), items[|items| - 1]);
    }
  }

  /** One step of the reduce adds one to the total. */
  lemma CountItemTotal(c: Counts, item: Item)
    requires Distinct(c.order) && forall k :: k in c.byCategory <==> k in c.order
    ensures SumCounts(CountItem(c, item).order, CountItem(c, item).byCategory) == SumCounts(c.order, c.byCategory) + 1
  {
    var k := CategoryKey(item);
    if k in c.byCategory {
      SumCountsBump(c.order, c.byCategory, k);
    } else {
      SumCountsOther(c.order, c.byCategory, k, 1);
      var o := c.order + [k];
      assert o[..|o| - 1] == c.order;
    }
  }
}
