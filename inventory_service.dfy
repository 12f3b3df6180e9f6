/**
 * The client inventory service: item-id generation ("TU" followed by a zero-padded
 * number one above the highest existing one), the id-defaulting step of saving an item,
 * and the low-stock query. The fetch calls around them are not modelled; the items they
 * return are parameters.
 */
module InventoryService {
  import opened Js
  import opened JsText
  import opened Seqs
  import opened Inventory

  const BusinessPrefix: string := "TU"

  /** The number `parseInt(item.id.substring(2), 10)` reads from an id, when the id carries the prefix. */
  function SuffixNumber(id: string): Option<int>
  {
    if id != "" && StartsWith(id, BusinessPrefix) then ParseIntText(id[|BusinessPrefix|..]) else None
  }

  /** The values present in a sequence of optional numbers, in order. */
  function Present(xs: seq<Option<int>>): (r: seq<int>)
    ensures |r| <= |xs|
  {
    if xs == [] then []
    else match xs[0]
      case Some(n) => [n] + Present(xs[1..])
      case None => Present(xs[1..])
  }

  lemma {:induction false} PresentSpec(xs: seq<Option<int>>)
    ensures forall n :: n in Present(xs) <==> Some(n) in xs
  {
    if xs != [] {
      PresentSpec(xs[1..]);
      assert xs == [xs[0]] + xs[1..];
    }
  }

  lemma {:induction false} PresentNone(xs: seq<Option<int>>)
    requires forall i :: 0 <= i < |xs| ==> xs[i].None?
    ensures Present(xs) == []
  {
    if xs != [] {
      assert forall i :: 0 <= i < |xs[1..]| ==> xs[1..][i] == xs[i + 1];
      PresentNone(xs[1..]);
    }
  }

  /** The suffix numbers of all ids, one per item (`None` for an id that does not count). */
  function Suffixes(items: seq<Item>): (r: seq<Option<int>>)
    ensures |r| == |items| && forall i :: 0 <= i < |items| ==> r[i] == SuffixNumber(items[i].id)
  {
    seq(|items|, i requires 0 <= i < |items| => SuffixNumber(items[i].id))
  }

  /** The numbers of the prefixed ids whose suffix parses, in list order. */
  function TuNumbers(items: seq<Item>): (r: seq<int>)
    ensures |r| <= |items|
  {
    Present(Suffixes(items))
  }

  /** A number is collected exactly when some item's id carries the prefix and reads as it. */
  lemma TuNumbersSpec(items: seq<Item>)
    ensures forall n :: n in TuNumbers(items) <==> exists i :: 0 <= i < |items| && SuffixNumber(items[i].id) == Some(n)
  {
    var xs := Suffixes(items);
    PresentSpec(xs);
    forall n ensures Some(n) in xs <==> exists i :: 0 <= i < |items| && SuffixNumber(items[i].id) == Some(n) {
      if Some(n) in xs {
        var i :| 0 <= i < |xs| && xs[i] == Some(n);
        assert SuffixNumber(items[i].id) == Some(n);
      }
    }
  }

  /** Without a prefixed id that reads as a number, nothing is collected. */
  lemma TuNumbersNone(items: seq<Item>)
    requires forall i :: 0 <= i < |items| ==> SuffixNumber(items[i].id).None?
    ensures TuNumbers(items) == []
  {
    PresentNone(Suffixes(items));
  }

  /** `nums.length > 0 ? Math.max(...nums) : 0`. */
  function HighestNum(nums: seq<int>): (h: int)
    ensures forall n :: n in nums ==> n <= h
    ensures nums != [] ==> h in nums
    ensures nums == [] ==> h == 0
  {
    if |nums| <= 1 then (if nums == [] then 0 else nums[0])
    else
      var m := HighestNum(nums[1..]);
      assert forall n :: n in nums ==> n == nums[0] || n in nums[1..];
      if nums[0] >= m then nums[0] else m
  }

  /** `generateItemId(existingItems)`. */
  function GenerateItemId(items: seq<Item>): (r: string)
    ensures StartsWith(r, BusinessPrefix)
    ensures |r| >= |BusinessPrefix| + 3
  {
    BusinessPrefix + PadStart(IntToString(HighestNum(TuNumbers(items)) + 1), 3, '0')
  }

  /** The id `saveItem` posts: the item's own id when it has one, a generated one otherwise. */
  function WithDefaultId(item: Item, existing: seq<Item>): (r: Item)
    ensures item.id != "" ==> r == item
    ensures item.id == "" ==> r == item.(id := GenerateItemId(existing))
  {
    if item.id != "" then item else item.(id := GenerateItemId(existing))
  }

  /** `lowStockThreshold || 5` applied, then compared. */
  predicate NeedsRestock(item: Item)
  {
    item.quantity <= EffectiveThreshold(item.lowStockThreshold)
  }

  /** `getLowStockItems`, on the fetched item list. */
  function LowStockItems(items: seq<Item>): seq<Item>
  {
    Filter(items, NeedsRestock)
  }

  // ---------------------------------------------------------------------------
  // Properties of the id generator.

  /** Every number read from an existing id is at most the highest one. */
  lemma ExistingAtMostHighest(items: seq<Item>)
    ensures forall i :: 0 <= i < |items| && SuffixNumber(items[i].id).Some? ==>
      SuffixNumber(items[i].id).value <= HighestNum(TuNumbers(items))
  {
    TuNumbersSpec(items);
    forall i | 0 <= i < |items| && SuffixNumber(items[i].id).Some?
      ensures SuffixNumber(items[i].id).value <= HighestNum(TuNumbers(items))
    {
      assert SuffixNumber(items[i].id).value in TuNumbers(items);
    }
  }

  /** The id built from a number `k` that is not negative reads back as `k`. */
  lemma PrefixedNumber(k: int)
    requires k >= 0
    ensures SuffixNumber(BusinessPrefix + PadStart(IntToString(k), 3, '0')) == Some(k)
  {
    SuffixOfPrefixed(PadStart(IntToString(k), 3, '0'));
    ParseIntOfPaddedInt(k, 3);
  }

  /**
   * The generated number is one above the highest number read from the prefixed ids (0 when
   * none), so above every one of them.
   */
  lemma GeneratedNumber(items: seq<Item>)
    requires HighestNum(TuNumbers(items)) + 1 >= 0
    ensures SuffixNumber(GenerateItemId(items)) == Some(HighestNum(TuNumbers(items)) + 1)
    ensures forall i :: 0 <= i < |items| && SuffixNumber(items[i].id).Some? ==>
      SuffixNumber(items[i].id).value < HighestNum(TuNumbers(items)) + 1
  {
    PrefixedNumber(HighestNum(TuNumbers(items)) + 1);
    ExistingAtMostHighest(items);
  }

  /** Without a prefixed id whose suffix parses, the first id is "TU001". */
  lemma FirstGeneratedId(items: seq<Item>)
    requires forall i :: 0 <= i < |items| ==> SuffixNumber(items[i].id).None?
    ensures GenerateItemId(items) == "TU001"
  {
    TuNumbersNone(items);
    assert NatToString(1) == "1";
  }

  lemma SuffixOfNineNineNine()
    ensures SuffixNumber("TU999") == Some(999)
  {
    assert "TU999"[2..] == "999";
    assert NatToString(9) == "9";
    assert NatToString(99) == "99";
    assert NatToString(999) == "999";
    assert PadStart("999", 0, '0') == "999";
    ParseIntOfPaddedNat(999, 0);
  }

  lemma StringOfThousand()
    ensures NatToString(1000) == "1000"
  {
    assert NatToString(1) == "1";
    assert NatToString(10) == "10";
    assert NatToString(100) == "100";
  }

  lemma NumbersOfNineNineNine(items: seq<Item>)
    requires |items| == 1 && items[0].id == "TU999"
    ensures TuNumbers(items) == [999]
  {
    SuffixOfNineNineNine();
    assert items[1..] == [];
  }

  /**
   * The padding only widens: the decimal text of the next number ends the new id whole, and
   * the id is exactly as long as the prefix and the wider of that text and three characters.
   */
  lemma NeverTruncates(items: seq<Item>)
    ensures var d := IntToString(HighestNum(TuNumbers(items)) + 1);
      var r := GenerateItemId(items);
      |r| == |BusinessPrefix| + (if |d| >= 3 then |d| else 3) && r[|r| - |d|..] == d
  {
    var d := IntToString(HighestNum(TuNumbers(items)) + 1);
    var q := PadStart(d, 3, '0');
    var r := GenerateItemId(items);
    assert r == BusinessPrefix + q;
    assert r[|r| - |d|..] == q[|q| - |d|..];
  }

  /** An instance: after "TU999" comes "TU1000". */
  lemma NoTruncation()
    ensures GenerateItemId([Item("TU999", "Drill", "", "", 0.0, 0.0, 0, None, "", 0.0)]) == "TU1000"
  {
    var items := [Item("TU999", "Drill", "", "", 0.0, 0.0, 0, None, "", 0.0)];
    NumbersOfNineNineNine(items);
    assert HighestNum([999]) == 999;
    ThousandId();
  }

  lemma ThousandId()
    ensures BusinessPrefix + PadStart(IntToString(999 + 1), 3, '0') == "TU1000"
  {
    StringOfThousand();
    assert IntToString(1000) == "1000";
    assert PadStart("1000", 3, '0') == "1000";
    assert BusinessPrefix + "1000" == "TU1000";
  }

  /** The number read from a prefixed id is `parseInt` of what follows the prefix. */
  lemma SuffixOfPrefixed(p: string)
    ensures SuffixNumber(BusinessPrefix + p) == ParseIntText(p)
  {
    assert (BusinessPrefix + p)[|BusinessPrefix|..] == p;
  }

  /** The id built from a number `k` reads back a number no smaller than `k`. */
  lemma PrefixedNumberAtLeast(k: int)
    ensures SuffixNumber(BusinessPrefix + PadStart(IntToString(k), 3, '0')).Some?
    ensures SuffixNumber(BusinessPrefix + PadStart(IntToString(k), 3, '0')).value >= k
  {
    SuffixOfPrefixed(PadStart(IntToString(k), 3, '0'));
    ParseIntOfPaddedIntAtLeast(k, 3);
  }

  /** The generated suffix reads back as a number above every number read from the existing ids. */
  lemma GeneratedSuffixAbove(items: seq<Item>)
    ensures SuffixNumber(GenerateItemId(items)).Some?
    ensures SuffixNumber(GenerateItemId(items)).value > HighestNum(TuNumbers(items))
  {
    PrefixedNumberAtLeast(HighestNum(TuNumbers(items)) + 1);
  }

  /** The generated id is new: no existing item carries it, whatever the existing ids are. */
  lemma GeneratedIdIsFresh(items: seq<Item>)
    ensures forall i :: 0 <= i < |items| ==> items[i].id != GenerateItemId(items)
  {
    GeneratedSuffixAbove(items);
    ExistingAtMostHighest(items);
  }

  /** Saving keeps every field but the id, and the id it posts is the own one or a fresh one. */
  lemma SavedIdIsOwnOrFresh(item: Item, existing: seq<Item>)
    ensures WithDefaultId(item, existing).(id := item.id) == item
    ensures item.id == "" ==> forall i :: 0 <= i < |existing| ==> existing[i].id != WithDefaultId(item, existing).id
  {
    GeneratedIdIsFresh(existing);
  }

  // ---------------------------------------------------------------------------
  // Properties of the low-stock query.

  /** The effective threshold is 5 when the stored one is missing or 0. */
  lemma ThresholdDefault(item: Item)
    requires item.lowStockThreshold.None? || item.lowStockThreshold == Some(0)
    ensures NeedsRestock(item) <==> item.quantity <= 5
  {
  }

  /** The low-stock items are exactly those at or below their effective threshold, in fetch order. */
  lemma LowStockItemsSpec(items: seq<Item>)
    ensures forall x :: x in LowStockItems(items) <==> x in items && NeedsRestock(x)
    ensures IsSubsequence(LowStockItems(items), items)
  {
    FilterIsSubsequence(items, NeedsRestock);
  }
}
