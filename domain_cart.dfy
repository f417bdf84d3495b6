/**
 * Cart line items, the merging of lines when items are added to a cart, and
 * the price calculation that fills in each line's sales tax and the cart's
 * totals (jetcart/domain/cart.py).
 *
 * Prices and taxes are floats in the source. Here `unitPrice` is an integer,
 * and the amounts a price calculation computes are exact `real`s.
 */
module DomainCart {
  import opened Wrappers
  import opened SeqFacts

  const CART_STATE_CREATED: int := 0
  const CART_STATE_CHECKED_OUT: int := 2

  /** One cart line. `salesTaxType` is None and `unitSalesTax` is 0 until a price calculation fills them in. */
  datatype CartItem = CartItem(sku: string, quantity: int, unitPrice: int,
                               salesTaxType: Option<string>, unitSalesTax: real)

  /** An item built from sku, quantity and unit price alone: the tax fields take their defaults. */
  function NewItem(sku: string, quantity: int, unitPrice: int): CartItem {
    CartItem(sku, quantity, unitPrice, None, 0.0)
  }

  /** Two lines are merged when both their sku and their unit price agree. */
  predicate SameLine(a: CartItem, b: CartItem) {
    a.sku == b.sku && a.unitPrice == b.unitPrice
  }

  /** `CartItem.merge`: the combined line, or None when the two lines differ. */
  function Merge(item: CartItem, other: CartItem): (r: Option<CartItem>)
    ensures r.Some? <==> SameLine(item, other)
    ensures r.Some? ==> SameLine(r.value, item) && r.value.quantity == item.quantity + other.quantity
    ensures r.Some? ==> r.value.salesTaxType == None && r.value.unitSalesTax == 0.0
  {
    if other.sku == item.sku && other.unitPrice == item.unitPrice then
      Some(NewItem(item.sku, item.quantity + other.quantity, item.unitPrice))
    else
      None
  }

  /** Merging does not depend on which of the two lines it is called on. */
  lemma MergeSymmetric(a: CartItem, b: CartItem)
    ensures Merge(a, b) == Merge(b, a)
  {
  }

  // ---------------------------------------------------------------------------
  // Ordering of skus: Python's `<=` on str

  /** Lexicographic order by code point; a proper prefix sorts first. */
  predicate SkuLe(a: string, b: string)
    decreases |a|
  {
    |a| == 0 || (|b| > 0 && (a[0] < b[0] || (a[0] == b[0] && SkuLe(a[1..], b[1..]))))
  }

  lemma {:induction false} SkuLeReflexive(a: string)
    ensures SkuLe(a, a)
    decreases |a|
  {
    if |a| > 0 {
      SkuLeReflexive(a[1..]);
    }
  }

  lemma {:induction false} SkuLeTotal(a: string, b: string)
    ensures SkuLe(a, b) || SkuLe(b, a)
    decreases |a|
  {
    if |a| > 0 && |b| > 0 && a[0] == b[0] {
      SkuLeTotal(a[1..], b[1..]);
    }
  }

  lemma {:induction false} SkuLeTransitive(a: string, b: string, c: string)
    requires SkuLe(a, b) && SkuLe(b, c)
    ensures SkuLe(a, c)
    decreases |a|
  {
    if |a| > 0 && a[0] == b[0] && b[0] == c[0] {
      SkuLeTransitive(a[1..], b[1..], c[1..]);
    }
  }

  // ---------------------------------------------------------------------------
  // `sorted(..., key=lambda item: item.sku)`: a stable sort by sku

  predicate SortedBySku(s: seq<CartItem>) {
    forall i, j :: 0 <= i < j < |s| ==> SkuLe(s[i].sku, s[j].sku)
  }

  /** Places `x` before the first line whose sku is not smaller, so that it stays ahead of equal skus. */
  function InsertBySku(x: CartItem, s: seq<CartItem>): (r: seq<CartItem>)
    ensures multiset(r) == multiset(s) + multiset{x}
    ensures |r| == |s| + 1
  {
    if s == [] then [x]
    else if SkuLe(x.sku, s[0].sku) then [x] + s
    else
      assert s == [s[0]] + s[1..];
      [s[0]] + InsertBySku(x, s[1..])
  }

  /** The stable sort by sku that Python's `sorted` performs. */
  function SortBySku(s: seq<CartItem>): (r: seq<CartItem>)
    ensures multiset(r) == multiset(s)
    ensures |r| == |s|
  {
    if s == [] then []
    else
      assert s == [s[0]] + s[1..];
      InsertBySku(s[0], SortBySku(s[1..]))
  }

  /** Inserting a line that is not below `lo` into lines that are not below `lo` gives lines not below `lo`. */
  lemma {:induction false} InsertBySkuLowerBound(x: CartItem, s: seq<CartItem>, lo: string)
    requires SkuLe(lo, x.sku)
    requires forall i :: 0 <= i < |s| ==> SkuLe(lo, s[i].sku)
    ensures forall i :: 0 <= i < |InsertBySku(x, s)| ==> SkuLe(lo, InsertBySku(x, s)[i].sku)
  {
    if s != [] && !SkuLe(x.sku, s[0].sku) {
      InsertBySkuLowerBound(x, s[1..], lo);
      var t := InsertBySku(x, s[1..]);
      assert InsertBySku(x, s) == [s[0]] + t;
    }
  }

  lemma {:induction false} InsertBySkuSorted(x: CartItem, s: seq<CartItem>)
    requires SortedBySku(s)
    ensures SortedBySku(InsertBySku(x, s))
  {
    if s == [] {
    } else if SkuLe(x.sku, s[0].sku) {
      forall j | 0 < j < |s|
        ensures SkuLe(x.sku, s[j].sku)
      {
        SkuLeTransitive(x.sku, s[0].sku, s[j].sku);
      }
    } else {
      SkuLeTotal(x.sku, s[0].sku);
      var rest := s[1..];
      InsertBySkuSorted(x, rest);
      InsertBySkuLowerBound(x, rest, s[0].sku);
      var t := InsertBySku(x, rest);
      var r := [s[0]] + t;
      assert InsertBySku(x, s) == r;
      forall i, j | 0 <= i < j < |r|
        ensures SkuLe(r[i].sku, r[j].sku)
      {
        if i > 0 {
          assert r[i] == t[i - 1] && r[j] == t[j - 1];
        }
      }
    }
  }

  lemma {:induction false} SortBySkuSorted(s: seq<CartItem>)
    ensures SortedBySku(SortBySku(s))
  {
    if s != [] {
      SortBySkuSorted(s[1..]);
      InsertBySkuSorted(s[0], SortBySku(s[1..]));
    }
  }

  /** The lines of `s` that carry sku `k`, in their order in `s`. */
  function WithSku(s: seq<CartItem>, k: string): seq<CartItem> {
    if s == [] then [] else (if s[0].sku == k then [s[0]] else []) + WithSku(s[1..], k)
  }

  /** Filtering a sequence that starts with `y`. */
  lemma WithSkuCons(y: CartItem, t: seq<CartItem>, k: string)
    ensures WithSku([y] + t, k) == (if y.sku == k then [y] else []) + WithSku(t, k)
  {
    assert ([y] + t)[1..] == t;
  }

  lemma {:induction false} InsertBySkuWithSku(x: CartItem, s: seq<CartItem>, k: string)
    ensures WithSku(InsertBySku(x, s), k) == WithSku([x], k) + WithSku(s, k)
  {
    var hx := if x.sku == k then [x] else [];
    WithSkuCons(x, [], k);
    assert [x] + [] == [x];
    if s == [] {
    } else if SkuLe(x.sku, s[0].sku) {
      WithSkuCons(x, s, k);
    } else {
      var h0 := if s[0].sku == k then [s[0]] else [];
      var rest := InsertBySku(x, s[1..]);
      assert InsertBySku(x, s) == [s[0]] + rest;
      InsertBySkuWithSku(x, s[1..], k);
      WithSkuCons(s[0], rest, k);
      assert WithSku(InsertBySku(x, s), k) == h0 + (hx + WithSku(s[1..], k));
      WithSkuCons(s[0], s[1..], k);
      assert [s[0]] + s[1..] == s;
      assert WithSku(s, k) == h0 + WithSku(s[1..], k);
      // `x` went past `s[0]`, so the two cannot both carry `k`: one of them filters to nothing.
      SkuLeReflexive(x.sku);
      assert h0 == [] || hx == [];
      ConcatSwap(h0, hx, WithSku(s[1..], k));
    }
  }

  /** Stability: lines with the same sku keep their relative order. */
  lemma {:induction false} SortBySkuStable(s: seq<CartItem>, k: string)
    ensures WithSku(SortBySku(s), k) == WithSku(s, k)
  {
    if s != [] {
      var t := SortBySku(s[1..]);
      SortBySkuStable(s[1..], k);
      InsertBySkuWithSku(s[0], t, k);
      WithSkuCons(s[0], [], k);
      WithSkuCons(s[0], s[1..], k);
      assert [s[0]] + [] == [s[0]];
      assert [s[0]] + s[1..] == s;
    }
  }

  // ---------------------------------------------------------------------------
  // Quantities per line

  /** The total quantity that the lines of `s` with this sku and unit price carry. */
  function QuantityOf(s: seq<CartItem>, sku: string, unitPrice: int): int {
    if s == [] then 0
    else
      var x := s[|s| - 1];
      QuantityOf(s[..|s| - 1], sku, unitPrice) + (if x.sku == sku && x.unitPrice == unitPrice then x.quantity else 0)
  }

  lemma {:induction false} QuantityOfConcat(a: seq<CartItem>, b: seq<CartItem>, sku: string, unitPrice: int)
    ensures QuantityOf(a + b, sku, unitPrice) == QuantityOf(a, sku, unitPrice) + QuantityOf(b, sku, unitPrice)
    decreases |b|
  {
    if b == [] {
      assert a + b == a;
    } else {
      assert (a + b)[..|a + b| - 1] == a + b[..|b| - 1];
      QuantityOfConcat(a, b[..|b| - 1], sku, unitPrice);
    }
  }

  /** Quantities per line do not depend on the order of the lines. */
  lemma {:induction false} QuantityOfPermutation(a: seq<CartItem>, b: seq<CartItem>, sku: string, unitPrice: int)
    requires multiset(a) == multiset(b)
    ensures QuantityOf(a, sku, unitPrice) == QuantityOf(b, sku, unitPrice)
    decreases |a|
  {
    if a != [] {
      var x := a[|a| - 1];
      var j := RemoveLast(a, b);
      var pre, post := b[..j], b[j + 1..];
      QuantityOfPermutation(a[..|a| - 1], pre + post, sku, unitPrice);
      QuantityOfConcat(pre + [x], post, sku, unitPrice);
      QuantityOfConcat(pre, [x], sku, unitPrice);
      QuantityOfConcat(pre, post, sku, unitPrice);
      assert QuantityOf([x], sku, unitPrice) == QuantityOf([], sku, unitPrice)
        + (if x.sku == sku && x.unitPrice == unitPrice then x.quantity else 0);
    }
  }

  // ---------------------------------------------------------------------------
  // The merging loop of `Cart.add_items`

  /**
   * Folds each line of `s` into the line before it when the two can be merged,
   * from left to right, as the loop of `add_items` does with its `last_item`.
   */
  function Coalesce(s: seq<CartItem>): (r: seq<CartItem>)
    requires |s| > 0
    ensures 0 < |r| <= |s|
    ensures SameLine(r[|r| - 1], s[|s| - 1])
  {
    if |s| == 1 then s
    else
      var prev := Coalesce(s[..|s| - 1]);
      var merged := Merge(prev[|prev| - 1], s[|s| - 1]);
      if merged.Some? then prev[..|prev| - 1] + [merged.value] else prev + [s[|s| - 1]]
  }

  /** Coalescing one more line only touches the last line of the result. */
  lemma CoalesceSnoc(s: seq<CartItem>, x: CartItem)
    requires |s| > 0
    ensures Coalesce(s + [x]) == (var prev := Coalesce(s); var m := Merge(prev[|prev| - 1], x);
                                  if m.Some? then prev[..|prev| - 1] + [m.value] else prev + [x])
  {
    var t := s + [x];
    assert t[..|t| - 1] == s;
  }

  /** One round of the `add_items` loop: the accumulator `merged + [last]` for a prefix becomes the one for the
      next longer prefix, by merging into `last` or by moving `last` into `merged`. */
  lemma CoalesceStep(s: seq<CartItem>, i: nat, merged: seq<CartItem>, last: CartItem)
    requires 1 <= i < |s| && merged + [last] == Coalesce(s[..i])
    ensures Merge(last, s[i]).Some? ==> merged + [Merge(last, s[i]).value] == Coalesce(s[..i + 1])
    ensures Merge(last, s[i]).None? ==> (merged + [last]) + [s[i]] == Coalesce(s[..i + 1])
  {
    assert s[..i + 1] == s[..i] + [s[i]];
    CoalesceSnoc(s[..i], s[i]);
    var prev := merged + [last];
    assert prev[..|prev| - 1] == merged && prev[|prev| - 1] == last;
  }

  /** Coalescing a sku-sorted sequence keeps it sorted. */
  lemma {:induction false} CoalesceSorted(s: seq<CartItem>)
    requires |s| > 0 && SortedBySku(s)
    ensures SortedBySku(Coalesce(s))
  {
    if |s| > 1 {
      var init := s[..|s| - 1];
      var x := s[|s| - 1];
      CoalesceSorted(init);
      var prev := Coalesce(init);
      var last := prev[|prev| - 1];
      assert SkuLe(last.sku, x.sku) by {
        assert last.sku == s[|s| - 2].sku;
      }
      var r := Coalesce(s);
      forall i, j | 0 <= i < j < |r|
        ensures SkuLe(r[i].sku, r[j].sku)
      {
        if j < |r| - 1 {
          assert r[i] == prev[i] && r[j] == prev[j];
        } else if Merge(last, x).Some? {
          assert r[j].sku == last.sku;
          assert r[i] == prev[i];
        } else {
          assert r[j] == x;
          if i < |prev| - 1 {
            assert r[i] == prev[i];
            SkuLeTransitive(prev[i].sku, last.sku, x.sku);
          }
        }
      }
    }
  }

  /** Coalescing keeps the total quantity of every (sku, unit price) line. */
  lemma {:induction false} CoalesceQuantity(s: seq<CartItem>, sku: string, unitPrice: int)
    requires |s| > 0
    ensures QuantityOf(Coalesce(s), sku, unitPrice) == QuantityOf(s, sku, unitPrice)
  {
    if |s| > 1 {
      var init := s[..|s| - 1];
      var x := s[|s| - 1];
      CoalesceQuantity(init, sku, unitPrice);
      var prev := Coalesce(init);
      var last := prev[|prev| - 1];
      match Merge(last, x)
      case Some(m) =>
        var r := prev[..|prev| - 1] + [m];
        assert r[..|r| - 1] == prev[..|prev| - 1];
      case None =>
        var r := prev + [x];
        assert r[..|r| - 1] == prev;
    }
  }

  /** No two neighbouring lines of the result could have been merged. */
  lemma {:induction false} CoalesceNoAdjacentDuplicates(s: seq<CartItem>)
    requires |s| > 0
    ensures forall i :: 0 <= i < |Coalesce(s)| - 1 ==> !SameLine(Coalesce(s)[i], Coalesce(s)[i + 1])
  {
    if |s| > 1 {
      var init := s[..|s| - 1];
      var x := s[|s| - 1];
      CoalesceNoAdjacentDuplicates(init);
      var prev := Coalesce(init);
      var last := prev[|prev| - 1];
      var r := Coalesce(s);
      forall i | 0 <= i < |r| - 1
        ensures !SameLine(r[i], r[i + 1])
      {
        if Merge(last, x).Some? {
          assert r[i] == prev[i];
          if i + 1 < |prev| - 1 {
            assert r[i + 1] == prev[i + 1];
          } else {
            assert SameLine(r[i + 1], last);
          }
        } else if i < |prev| - 1 {
          assert r[i] == prev[i] && r[i + 1] == prev[i + 1];
        } else {
          assert r[i] == last && r[i + 1] == x;
        }
      }
    }
  }

  /** Sorting lines that all carry one sku leaves them where they are. */
  lemma {:induction false} SortBySkuSameSku(s: seq<CartItem>, k: string)
    requires forall i :: 0 <= i < |s| ==> s[i].sku == k
    ensures SortBySku(s) == s
  {
    if s != [] {
      SortBySkuSameSku(s[1..], k);
      SkuLeReflexive(k);
      if |s| > 1 {
        assert InsertBySku(s[0], s[1..]) == [s[0]] + s[1..];
      }
      assert [s[0]] + s[1..] == s;
    }
  }

  /** Two lines that cannot be merged, then the first again, fold to themselves. */
  lemma CoalesceAlternating(a1: CartItem, a2: CartItem)
    requires !SameLine(a1, a2)
    ensures Coalesce([a1, a2, a1]) == [a1, a2, a1]
  {
    var p := [a1, a2];
    assert p[..1] == [a1];
    assert Coalesce(p) == p;
    assert [a1, a2, a1][..2] == p;
  }

  /** Only neighbours are merged: two equal lines separated by a line of another price stay apart. */
  lemma CoalesceKeepsSeparatedLines(a1: CartItem, a2: CartItem)
    requires a1.sku == a2.sku && a1.unitPrice != a2.unitPrice
    ensures Coalesce(SortBySku([a1, a2, a1])) == [a1, a2, a1]
  {
    SortBySkuSameSku([a1, a2, a1], a1.sku);
    CoalesceAlternating(a1, a2);
  }

  // ---------------------------------------------------------------------------
  // `Cart.add_items`

  /** The lines of a cart holding `items` after `other` has been added to it. */
  function AddedItems(items: seq<CartItem>, other: seq<CartItem>): seq<CartItem> {
    if other == [] then items else Coalesce(SortBySku(items + other))
  }

  /** Adding no items changes nothing. */
  lemma AddItemsEmpty(items: seq<CartItem>)
    ensures AddedItems(items, []) == items
  {
  }

  /** After adding items the lines are in non-decreasing sku order. */
  lemma AddItemsSorted(items: seq<CartItem>, other: seq<CartItem>)
    requires other != []
    ensures SortedBySku(AddedItems(items, other))
  {
    SortBySkuSorted(items + other);
    CoalesceSorted(SortBySku(items + other));
  }

  /** Adding items is never longer than the old and new lines together, and never empty. */
  lemma AddItemsLength(items: seq<CartItem>, other: seq<CartItem>)
    ensures other != [] ==> 0 < |AddedItems(items, other)| <= |items| + |other|
  {
  }

  /** Adding items keeps the total quantity of every (sku, unit price) line. */
  lemma AddItemsQuantity(items: seq<CartItem>, other: seq<CartItem>, sku: string, unitPrice: int)
    ensures QuantityOf(AddedItems(items, other), sku, unitPrice)
         == QuantityOf(items, sku, unitPrice) + QuantityOf(other, sku, unitPrice)
  {
    QuantityOfConcat(items, other, sku, unitPrice);
    if other != [] {
      var sorted := SortBySku(items + other);
      QuantityOfPermutation(sorted, items + other, sku, unitPrice);
      CoalesceQuantity(sorted, sku, unitPrice);
    } else {
      assert QuantityOf(other, sku, unitPrice) == 0;
    }
  }

  /** After adding items no two neighbouring lines share both sku and unit price. */
  lemma AddItemsNoAdjacentDuplicates(items: seq<CartItem>, other: seq<CartItem>)
    requires other != []
    ensures var r := AddedItems(items, other);
            forall i :: 0 <= i < |r| - 1 ==> !SameLine(r[i], r[i + 1])
  {
    CoalesceNoAdjacentDuplicates(SortBySku(items + other));
  }

  /**
   * The loop of `add_items` over the sorted lines: `last` accumulates merges, and
   * a line that cannot be merged moves `last` into `merged`.
   */
  method MergeLines(all: seq<CartItem>) returns (r: seq<CartItem>)
    requires |all| > 0
    ensures r == Coalesce(all)
  {
    var merged: seq<CartItem> := [];
    var last := all[0];
    assert all[..1] == [last];
    for i := 1 to |all|
      invariant merged + [last] == Coalesce(all[..i])
    {
      CoalesceStep(all, i, merged, last);
      var m := Merge(last, all[i]);
      if m.Some? {
        last := m.value;
      } else {
        merged := merged + [last];
        last := all[i];
      }
    }
    assert all[..|all|] == all;
    r := merged + [last];
  }

  // ---------------------------------------------------------------------------
  // The price calculation: `SimpleCartValueCalculator`

  /** One tax of a category, as `Tax.as_dict` gives it: its type and its rate in percent. */
  datatype Tax = Tax(kind: string, value: real)

  /** `CartCalculation`: the totals a price calculation stores on the cart. */
  datatype CartCalculation = CartCalculation(totalValue: real, totalDiscount: real, totalSalesTax: real,
                                             totalPayableAmount: real)

  /** The exceptions that abort a price calculation. */
  datatype PriceError =
    | LookupFailed   // a lookup raised: no inventory, no product or warehouse on it, no tax mapping, or a mapped tax missing
    | ZeroQuantity   // `sales_tax / item.quantity` divides by zero

  /**
   * What the catalog and tax services answer for each sku in `_build_sku_tax_map`:
   * the taxes of its product's category, or `[]` where the product's category is
   * empty or the category's mapping lists no tax. A sku that is not a key is one
   * whose lookup raises: no inventory, an inventory without product or warehouse
   * (`Inventory.as_dict` dereferences both), a category without a tax mapping, or a
   * mapped tax that does not exist.
   */
  type TaxLookup = map<string, seq<Tax>>

  /** The taxes of `sku`, as `sku_tax_map.get(sku) or []` gives them once the lookups have succeeded. */
  function TaxesOf(lookup: TaxLookup, sku: string): seq<Tax> {
    if sku in lookup then lookup[sku] else []
  }

  /** The sum of the rates of `taxes`, in percent. */
  function Rate(taxes: seq<Tax>): real {
    if taxes == [] then 0.0 else Rate(taxes[..|taxes| - 1]) + taxes[|taxes| - 1].value
  }

  /** `sum(tax['value'] * amount / 100.0 for tax in taxes)`. */
  function SalesTax(taxes: seq<Tax>, amount: real): real {
    if taxes == [] then 0.0 else SalesTax(taxes[..|taxes| - 1], amount) + taxes[|taxes| - 1].value * amount / 100.0
  }

  /** `','.join(tax['type'] for tax in taxes)`. */
  function JoinTypes(taxes: seq<Tax>): string {
    if taxes == [] then "" else if |taxes| == 1 then taxes[0].kind else taxes[0].kind + "," + JoinTypes(taxes[1..])
  }

  /** The taxes of a line add up to the sum of their rates applied to the amount. */
  lemma {:induction false} SalesTaxRate(taxes: seq<Tax>, amount: real)
    ensures SalesTax(taxes, amount) == Rate(taxes) * amount / 100.0
    decreases |taxes|
  {
    if taxes != [] {
      var init, v := taxes[..|taxes| - 1], taxes[|taxes| - 1].value;
      SalesTaxRate(init, amount);
      assert (Rate(init) + v) * amount == Rate(init) * amount + v * amount;
    }
  }

  /** `unit_price * quantity`. */
  function Amount(item: CartItem): real {
    item.unitPrice as real * item.quantity as real
  }

  /**
   * A priced line: both tax fields set from `taxes`, the unit tax being the
   * summed rate applied to the unit price. Sku, quantity and price are kept.
   */
  function PriceLine(item: CartItem, taxes: seq<Tax>): CartItem {
    item.(unitSalesTax := Rate(taxes) * item.unitPrice as real / 100.0, salesTaxType := Some(JoinTypes(taxes)))
  }

  /**
   * What one round of the pricing loop writes into `unit_sales_tax`, the taxes
   * on the line's amount divided by its quantity, is the unit tax of
   * `PriceLine`, whatever the quantity.
   */
  lemma UnitSalesTax(item: CartItem, taxes: seq<Tax>)
    requires item.quantity != 0
    ensures SalesTax(taxes, Amount(item)) / item.quantity as real == PriceLine(item, taxes).unitSalesTax
  {
    var q, u := item.quantity as real, Rate(taxes) * item.unitPrice as real / 100.0;
    SalesTaxRate(taxes, Amount(item));
    assert SalesTax(taxes, Amount(item)) == u * q;
  }

  /** Every sku of `lines` has an answer in `lookup`. */
  predicate LookedUp(lines: seq<CartItem>, lookup: TaxLookup) {
    forall i :: 0 <= i < |lines| ==> lines[i].sku in lookup
  }

  /** The position of the first line with quantity 0, or the number of lines when there is none. */
  function FirstZero(lines: seq<CartItem>): (k: nat)
    ensures k <= |lines|
    ensures forall i :: 0 <= i < k ==> lines[i].quantity != 0
    ensures k < |lines| ==> lines[k].quantity == 0
  {
    if lines == [] then 0 else if lines[0].quantity == 0 then 0 else 1 + FirstZero(lines[1..])
  }

  /** Each line priced with the taxes of its sku. */
  function PricedLines(lines: seq<CartItem>, lookup: TaxLookup): (r: seq<CartItem>) {
    seq(|lines|, i requires 0 <= i < |lines| => PriceLine(lines[i], TaxesOf(lookup, lines[i].sku)))
  }

  /** The lines as a calculation leaves them: priced up to the first zero quantity, untouched when a lookup raises. */
  function LinesAfterPricing(lines: seq<CartItem>, lookup: TaxLookup): (r: seq<CartItem>)
    ensures |r| == |lines|
  {
    if LookedUp(lines, lookup) then PricedLines(lines[..FirstZero(lines)], lookup) + lines[FirstZero(lines)..]
    else lines
  }

  /** The sum of the amounts of `lines`. */
  function TotalValue(lines: seq<CartItem>): real {
    if lines == [] then 0.0 else TotalValue(lines[..|lines| - 1]) + Amount(lines[|lines| - 1])
  }

  /** The sum of the sales taxes of `lines`. */
  function TotalSalesTax(lines: seq<CartItem>, lookup: TaxLookup): real {
    if lines == [] then 0.0
    else
      var last := lines[|lines| - 1];
      TotalSalesTax(lines[..|lines| - 1], lookup) + SalesTax(TaxesOf(lookup, last.sku), Amount(last))
  }

  /** The totals of a complete calculation, with no discount and the payable amount floored at 0 as `max(0, ...)` does. */
  function Totals(value: real, tax: real): CartCalculation {
    CartCalculation(value, 0.0, tax, if value + tax - 0.0 > 0.0 then value + tax - 0.0 else 0.0)
  }

  /** What a calculation returns: an exception, or the totals with no discount and a payable amount floored at 0. */
  function Calculated(lines: seq<CartItem>, lookup: TaxLookup): (r: Result<CartCalculation, PriceError>)
    ensures r.Ok? ==> r.value.totalDiscount == 0.0 && r.value.totalPayableAmount >= 0.0
    ensures r.Ok? ==> r.value.totalPayableAmount >= r.value.totalValue + r.value.totalSalesTax
  {
    if !LookedUp(lines, lookup) then Err(LookupFailed)
    else if FirstZero(lines) < |lines| then Err(ZeroQuantity)
    else
      var value, tax := TotalValue(lines), TotalSalesTax(lines, lookup);
      Ok(Totals(value, tax))
  }

  /**
   * A calculation fails with a lookup error exactly when some sku has no answer,
   * with a division by zero exactly when all skus have one and some line has
   * quantity 0, and succeeds otherwise.
   */
  lemma CalculatedOutcome(lines: seq<CartItem>, lookup: TaxLookup)
    ensures Calculated(lines, lookup) == Err(LookupFailed) <==> exists i :: 0 <= i < |lines| && lines[i].sku !in lookup
    ensures var zero := exists i :: 0 <= i < |lines| && lines[i].quantity == 0;
            Calculated(lines, lookup) == Err(ZeroQuantity) <==> LookedUp(lines, lookup) && zero
    ensures var complete := forall i :: 0 <= i < |lines| ==> lines[i].sku in lookup && lines[i].quantity != 0;
            Calculated(lines, lookup).Ok? <==> complete
  {
    if FirstZero(lines) < |lines| {
      assert lines[FirstZero(lines)].quantity == 0;
    }
  }

  /**
   * The loop of `_build_sku_tax_map`: fetches each sku once and keeps the
   * non-empty tax lists. None where a lookup raises.
   */
  method BuildSkuTaxMap(lines: seq<CartItem>, lookup: TaxLookup) returns (r: Option<TaxLookup>)
    ensures r.None? <==> !LookedUp(lines, lookup)
    ensures r.Some? ==> forall i :: 0 <= i < |lines| ==>
                          (if lines[i].sku in r.value then r.value[lines[i].sku] else []) == TaxesOf(lookup, lines[i].sku)
  {
    var skuTax: map<string, seq<Tax>> := map[];
    for i := 0 to |lines|
      invariant LookedUp(lines[..i], lookup)
      invariant forall s :: s in skuTax ==> s in lookup && skuTax[s] == lookup[s]
      invariant forall j :: 0 <= j < i && lookup[lines[j].sku] != [] ==> lines[j].sku in skuTax
    {
      var sku := lines[i].sku;
      if sku !in skuTax {
        if sku !in lookup {
          return None;
        }
        if lookup[sku] != [] {
          skuTax := skuTax[sku := lookup[sku]];
        }
      }
    }
    assert lines[..|lines|] == lines;
    r := Some(skuTax);
  }

  /**
   * The loop of `SimpleCartValueCalculator.calculate` over a cart's lines, with
   * `skuTax` the map `_build_sku_tax_map` built: it rewrites each line's tax
   * fields and sums the totals. The lines before a zero quantity are already
   * rewritten when its division raises.
   */
  method PriceLines(lines: seq<CartItem>, skuTax: TaxLookup) returns (priced: seq<CartItem>, r: Result<CartCalculation, PriceError>)
    ensures FirstZero(lines) < |lines| ==>
              r == Err(ZeroQuantity) && priced == PricedLines(lines[..FirstZero(lines)], skuTax) + lines[FirstZero(lines)..]
    ensures FirstZero(lines) == |lines| ==>
              r == Ok(Totals(TotalValue(lines), TotalSalesTax(lines, skuTax))) && priced == PricedLines(lines, skuTax)
  {
    priced := lines;
    var totalAmount, totalSalesTax := 0.0, 0.0;
    for i := 0 to |lines|
      invariant i <= FirstZero(lines) && |priced| == |lines|
      invariant forall k :: 0 <= k < i ==> priced[k] == PriceLine(lines[k], TaxesOf(skuTax, lines[k].sku))
      invariant forall k :: i <= k < |lines| ==> priced[k] == lines[k]
      invariant totalAmount == TotalValue(lines[..i]) && totalSalesTax == TotalSalesTax(lines[..i], skuTax)
    {
      var item := priced[i];
      var taxes := TaxesOf(skuTax, item.sku);
      if item.quantity == 0 {
        PricingStopped(lines, i, skuTax, priced);
        return priced, Err(ZeroQuantity);
      }
      var amount := item.unitPrice as real * item.quantity as real;
      var salesTax := SalesTax(taxes, amount);
      PricingRound(lines, i, skuTax, totalAmount, totalSalesTax, item, salesTax);
      priced := priced[i := item.(unitSalesTax := salesTax / item.quantity as real, salesTaxType := Some(JoinTypes(taxes)))];
      totalAmount := totalAmount + amount;
      totalSalesTax := totalSalesTax + salesTax;
    }
    PricingDone(lines, skuTax, priced);
    r := Ok(Totals(totalAmount, totalSalesTax));
  }

  /** The pricing loop stops at a zero quantity at `i`: the lines before it are priced, the rest untouched. */
  lemma PricingStopped(lines: seq<CartItem>, i: nat, lookup: TaxLookup, priced: seq<CartItem>)
    requires i <= FirstZero(lines) && i < |lines| && lines[i].quantity == 0 && |priced| == |lines|
    requires forall k :: 0 <= k < i ==> priced[k] == PriceLine(lines[k], TaxesOf(lookup, lines[k].sku))
    requires forall k :: i <= k < |lines| ==> priced[k] == lines[k]
    ensures FirstZero(lines) == i
    ensures priced == PricedLines(lines[..i], lookup) + lines[i..]
  {
    assert priced == PricedLines(lines[..i], lookup) + lines[i..];
  }

  /** The pricing loop ran through all lines: every line is priced. */
  lemma PricingDone(lines: seq<CartItem>, lookup: TaxLookup, priced: seq<CartItem>)
    requires |priced| == |lines|
    requires forall k :: 0 <= k < |lines| ==> priced[k] == PriceLine(lines[k], TaxesOf(lookup, lines[k].sku))
    ensures lines[..|lines|] == lines
    ensures priced == PricedLines(lines, lookup)
  {
    assert lines[..|lines|] == lines;
  }

  /** Pricing reads a tax map only through the skus of the lines: two maps that agree on them price alike. */
  lemma {:induction false} SameTaxes(lines: seq<CartItem>, m1: TaxLookup, m2: TaxLookup)
    requires forall i :: 0 <= i < |lines| ==> TaxesOf(m1, lines[i].sku) == TaxesOf(m2, lines[i].sku)
    ensures TotalSalesTax(lines, m1) == TotalSalesTax(lines, m2)
    ensures PricedLines(lines, m1) == PricedLines(lines, m2)
    decreases |lines|
  {
    if lines != [] {
      SameTaxes(lines[..|lines| - 1], m1, m2);
    }
  }

  /** `SimpleCartValueCalculator.calculate` on a cart's lines: the tax map, then the pricing loop. */
  method CalculateLines(lines: seq<CartItem>, lookup: TaxLookup)
    returns (priced: seq<CartItem>, r: Result<CartCalculation, PriceError>)
    ensures r == Calculated(lines, lookup)
    ensures priced == LinesAfterPricing(lines, lookup)
  {
    var skuTax := BuildSkuTaxMap(lines, lookup);
    if skuTax.None? {
      return lines, Err(LookupFailed);
    }
    priced, r := PriceLines(lines, skuTax.value);
    SameTaxes(lines, skuTax.value, lookup);
    SameTaxes(lines[..FirstZero(lines)], skuTax.value, lookup);
    assert lines[..|lines|] == lines && lines[|lines|..] == [];
  }

  /** One round of the pricing loop, at line `i` with a non-zero quantity, prices that line and adds it to the totals. */
  lemma PricingRound(lines: seq<CartItem>, i: nat, lookup: TaxLookup, totalAmount: real, totalSalesTax: real,
                     item: CartItem, salesTax: real)
    requires i < |lines| && item == lines[i] && item.quantity != 0
    requires salesTax == SalesTax(TaxesOf(lookup, item.sku), item.unitPrice as real * item.quantity as real)
    requires totalAmount == TotalValue(lines[..i]) && totalSalesTax == TotalSalesTax(lines[..i], lookup)
    ensures item.(unitSalesTax := salesTax / item.quantity as real, salesTaxType := Some(JoinTypes(TaxesOf(lookup, item.sku))))
            == PriceLine(item, TaxesOf(lookup, item.sku))
    ensures totalAmount + item.unitPrice as real * item.quantity as real == TotalValue(lines[..i + 1])
    ensures totalSalesTax + salesTax == TotalSalesTax(lines[..i + 1], lookup)
  {
    UnitSalesTax(item, TaxesOf(lookup, item.sku));
    assert Amount(item) == item.unitPrice as real * item.quantity as real;
    assert lines[..i + 1][..i] == lines[..i];
  }

  /** Two lists of lines that agree, line by line, on sku, quantity and unit price. */
  predicate SameKeys(a: seq<CartItem>, b: seq<CartItem>) {
    |a| == |b| && forall i :: 0 <= i < |a| ==>
                    a[i].sku == b[i].sku && a[i].quantity == b[i].quantity && a[i].unitPrice == b[i].unitPrice
  }

  /** The totals read only the sku, quantity and unit price of each line. */
  lemma {:induction false} TotalsReadLineKeys(a: seq<CartItem>, b: seq<CartItem>, lookup: TaxLookup)
    requires SameKeys(a, b)
    ensures TotalValue(a) == TotalValue(b) && TotalSalesTax(a, lookup) == TotalSalesTax(b, lookup)
    decreases |a|
  {
    if a != [] {
      TotalsReadLineKeys(a[..|a| - 1], b[..|b| - 1], lookup);
    }
  }

  /** The first zero quantity is found at the same place in lines with the same quantities. */
  lemma {:induction false} FirstZeroReadsQuantities(a: seq<CartItem>, b: seq<CartItem>)
    requires SameKeys(a, b)
    ensures FirstZero(a) == FirstZero(b)
    decreases |a|
  {
    if a != [] {
      FirstZeroReadsQuantities(a[1..], b[1..]);
    }
  }

  /** Pricing rewrites only the tax fields, so lines that agree on sku, quantity and price are priced alike. */
  lemma PricedLinesReadLineKeys(a: seq<CartItem>, b: seq<CartItem>, lookup: TaxLookup)
    requires SameKeys(a, b)
    ensures PricedLines(a, lookup) == PricedLines(b, lookup)
  {
    forall i | 0 <= i < |a|
      ensures PricedLines(a, lookup)[i] == PricedLines(b, lookup)[i]
    {
      assert a[i].sku == b[i].sku;
    }
  }

  /**
   * A calculation reads only the sku, quantity and unit price of each line:
   * lines that agree on those price alike, fail alike and have the same totals.
   */
  lemma PricingReadsLineKeys(a: seq<CartItem>, b: seq<CartItem>, lookup: TaxLookup)
    requires SameKeys(a, b)
    ensures PricedLines(a, lookup) == PricedLines(b, lookup)
    ensures Calculated(a, lookup) == Calculated(b, lookup)
  {
    PricedLinesReadLineKeys(a, b, lookup);
    TotalsReadLineKeys(a, b, lookup);
    FirstZeroReadsQuantities(a, b);
    assert LookedUp(a, lookup) <==> LookedUp(b, lookup);
  }

  /** Calculating again changes nothing: the priced lines are priced the same and give the same totals. */
  lemma RecalculateIdempotent(lines: seq<CartItem>, lookup: TaxLookup)
    requires Calculated(lines, lookup).Ok?
    ensures LinesAfterPricing(LinesAfterPricing(lines, lookup), lookup) == LinesAfterPricing(lines, lookup)
    ensures Calculated(LinesAfterPricing(lines, lookup), lookup) == Calculated(lines, lookup)
  {
    var p := LinesAfterPricing(lines, lookup);
    assert LookedUp(lines, lookup) && FirstZero(lines) == |lines|;
    assert lines[..|lines|] == lines && lines[|lines|..] == [];
    assert p == PricedLines(lines, lookup);
    assert SameKeys(p, lines);
    PricingReadsLineKeys(p, lines, lookup);
    assert p[..|p|] == p && p[|p|..] == [];
  }

  /** A cart document: its lines, its state, and the totals of its last price calculation. */
  class Cart {
    var items: seq<CartItem>
    var state: int
    var value: Option<CartCalculation>

    /** A new cart holds the given lines, unmerged, in state CREATED, with no totals yet. */
    constructor (items: seq<CartItem>)
      ensures this.items == items && state == CART_STATE_CREATED && value == None
    {
      this.items := items;
      state := CART_STATE_CREATED;
      value := None;
    }

    /** `get_cart_by_id`: a fresh document read back from the stored fields. */
    constructor Load(items: seq<CartItem>, state: int, value: Option<CartCalculation>)
      ensures this.items == items && this.state == state && this.value == value
    {
      this.items := items;
      this.state := state;
      this.value := value;
    }

    /**
     * `Cart.calculate` with `SimpleCartValueCalculator`: the lines are priced
     * and, when no exception is raised, `value` holds the totals.
     */
    method Calculate(lookup: TaxLookup) returns (r: Result<CartCalculation, PriceError>)
      modifies this
      ensures r == Calculated(old(items), lookup)
      ensures items == LinesAfterPricing(old(items), lookup)
      ensures r.Ok? ==> value == Some(r.value)
      ensures r.Err? ==> value == old(value)
      ensures state == old(state)
    {
      var priced, res := CalculateLines(items, lookup);
      items := priced;
      if res.Ok? {
        value := Some(res.value);
      }
      r := res;
    }

    /** `Cart.add_items`: sorts old and new lines by sku and merges neighbouring equal lines. */
    method AddItems(other: seq<CartItem>)
      modifies this
      ensures items == AddedItems(old(items), other)
      ensures state == old(state) && value == old(value)
    {
      if other == [] {
        return;
      }
      var all := SortBySku(items + other);
      // `all` holds at least the new items, so the source's check for an empty list never fires
      items := MergeLines(all);
    }
  }
}
