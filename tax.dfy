/** The totals calculator: subtotal, taxable base, revenue-weighted GST
    rate, total GST with its CGST/SGST or IGST split, and the grand total.
    Every sum is the app's left-to-right `reduce`, written as a recursion
    that peels off the last item. Amounts are exact reals. */
module Tax {
  import opened InvoiceData

  /** The line amount `qty × price`, missing values read as 0. */
  function Line(it: Item): (r: real)
    ensures it.qty.Num? && it.price.Num? ==> r == it.qty.value * it.price.value
    ensures !it.qty.Num? || !it.price.Num? ==> r == 0.0
  {
    Norm(it.qty) * Norm(it.price)
  }

  /** The item's GST rate in percent, a missing value read as 0. */
  function Rate(it: Item): (r: real)
    ensures it.gst.Num? ==> r == it.gst.value
    ensures !it.gst.Num? ==> r == 0.0
  {
    Norm(it.gst)
  }

  /** Sum of the line amounts. */
  function Subtotal(items: seq<Item>): (r: real)
    ensures |items| == 0 ==> r == 0.0
    decreases |items|
  {
    if |items| == 0 then 0.0
    else Subtotal(items[..|items| - 1]) + Line(items[|items| - 1])
  }

  /** The tax one line carries, `line × rate/100`. */
  function LineTax(it: Item): real
  {
    Line(it) * (Rate(it) / 100.0)
  }

  /** Sum of the per-line taxes `line × rate/100`: the tax the items carry
      before any discount. */
  function LineGst(items: seq<Item>): (r: real)
    ensures |items| == 0 ==> r == 0.0
    decreases |items|
  {
    if |items| == 0 then 0.0
    else LineGst(items[..|items| - 1]) + LineTax(items[|items| - 1])
  }

  /** The second fold of the weighted rate, Σ (line/sub)·(rate/100): it is
      the carried tax divided by `sub`, for every non-zero `sub`. */
  function WeightedSum(items: seq<Item>, sub: real): (r: real)
    requires sub != 0.0
    ensures r == LineGst(items) / sub
    decreases |items|
  {
    if |items| == 0 then 0.0
    else
      LineGstSnoc(items);
      LineTaxDef(items[|items| - 1]);
      DivideSumStep(LineGst(items[..|items| - 1]), LineTax(items[|items| - 1]), Line(items[|items| - 1]),
                    Rate(items[|items| - 1]) / 100.0, sub, LineGst(items));
      WeightedSum(items[..|items| - 1], sub)
      + (Line(items[|items| - 1]) / sub) * (Rate(items[|items| - 1]) / 100.0)
  }

  /** The revenue-weighted blended rate, as a fraction: 0 when the subtotal
      is not positive, else the tax the items carry divided by the subtotal. */
  function WeightedGst(items: seq<Item>): (r: real)
    ensures Subtotal(items) <= 0.0 ==> r == 0.0
    ensures Subtotal(items) > 0.0 ==> r == LineGst(items) / Subtotal(items)
    ensures Subtotal(items) > 0.0 ==> r * Subtotal(items) == LineGst(items)
  {
    var sub := Subtotal(items);
    if sub <= 0.0 then 0.0 else WeightedSum(items, sub)
  }

  /** `Math.max(sub - discount, 0)`. */
  function Taxable(sub: real, discount: real): (r: real)
    ensures r >= 0.0 && r >= sub - discount
    ensures r == 0.0 || r == sub - discount
    ensures r == 0.0 <==> discount >= sub
  {
    if sub - discount > 0.0 then sub - discount else 0.0
  }

  datatype Totals = Totals(
    sub: real, discount: real, shipping: real,
    cgst: real, sgst: real, igst: real, totalGst: real, grand: real)

  /** The totals of an invoice, recomputed from its items, discount,
      shipping and jurisdiction flag. */
  function ComputeTotals(inv: Invoice): (t: Totals)
    ensures t.sub == Subtotal(inv.items)
    ensures t.discount == Norm(inv.discount) && t.shipping == Norm(inv.shipping)
    ensures t.totalGst == Taxable(t.sub, t.discount) * WeightedGst(inv.items)
    // the split always adds up to the total tax, one branch being zero
    ensures t.cgst + t.sgst + t.igst == t.totalGst
    ensures !inv.interState ==> t.cgst == t.sgst && t.igst == 0.0
    ensures inv.interState ==> t.cgst == 0.0 && t.sgst == 0.0
    // discount comes off before tax, shipping goes on untaxed
    ensures t.grand == Taxable(t.sub, t.discount) + t.shipping + t.totalGst
    ensures t.discount >= t.sub ==> t.totalGst == 0.0 && t.grand == t.shipping
  {
    var sub := Subtotal(inv.items);
    var discount := Norm(inv.discount);
    var shipping := Norm(inv.shipping);
    var taxable := Taxable(sub, discount);
    var totalGst := taxable * WeightedGst(inv.items);
    var cgst := if !inv.interState then totalGst / 2.0 else 0.0;
    var sgst := if !inv.interState then totalGst / 2.0 else 0.0;
    var igst := if inv.interState then totalGst else 0.0;
    var grand := taxable + shipping + totalGst;
    Totals(sub, discount, shipping, cgst, sgst, igst, totalGst, grand)
  }

  /** The subtotal of a list, taken from the front. */
  lemma {:induction false} SubtotalCons(x: Item, rest: seq<Item>)
    ensures Subtotal([x] + rest) == Line(x) + Subtotal(rest)
    decreases |rest|
  {
    if |rest| > 0 {
      var pre, last := rest[..|rest| - 1], rest[|rest| - 1];
      assert ([x] + rest)[..|rest|] == [x] + pre;
      SubtotalCons(x, pre);
    } else {
      assert [x] + rest == [x];
      assert [x][..0] == [];
    }
  }

  /** A line at a 0 % rate carries no tax; a non-negative line at a
      non-negative rate carries non-negative tax; an absent or NaN quantity,
      price or rate makes the line carry none. */
  lemma {:induction false} LineTaxSign(it: Item)
    ensures Rate(it) == 0.0 ==> LineTax(it) == 0.0
    ensures Line(it) >= 0.0 && Rate(it) >= 0.0 ==> LineTax(it) >= 0.0
    ensures !it.qty.Num? || !it.price.Num? || !it.gst.Num? ==> LineTax(it) == 0.0
  {
  }

  /** The carried tax of a list, taken from the front. */
  lemma {:induction false} LineGstCons(x: Item, rest: seq<Item>)
    ensures LineGst([x] + rest) == LineTax(x) + LineGst(rest)
    decreases |rest|
  {
    if |rest| > 0 {
      var pre, last := rest[..|rest| - 1], rest[|rest| - 1];
      assert ([x] + rest)[..|rest|] == [x] + pre;
      LineGstCons(x, pre);
    } else {
      assert [x] + rest == [x];
      assert [x][..0] == [];
    }
  }

  /** When every item has rate `rate`, the carried tax is `sub × rate/100`. */
  lemma {:induction false} UniformLineGst(items: seq<Item>, rate: real)
    requires forall i :: 0 <= i < |items| ==> Rate(items[i]) == rate
    ensures LineGst(items) == Subtotal(items) * (rate / 100.0)
    decreases |items|
  {
    if |items| > 0 {
      var pre, last := items[..|items| - 1], items[|items| - 1];
      assert forall i :: 0 <= i < |pre| ==> pre[i] == items[i];
      UniformLineGst(pre, rate);
      assert Rate(last) == rate;
      UniformStep(items, rate);
    }
  }

  /** The inductive step of `UniformLineGst`. */
  lemma {:induction false} UniformStep(items: seq<Item>, rate: real)
    requires |items| > 0 && Rate(items[|items| - 1]) == rate
    requires LineGst(items[..|items| - 1]) == Subtotal(items[..|items| - 1]) * (rate / 100.0)
    ensures LineGst(items) == Subtotal(items) * (rate / 100.0)
  {
    SubtotalSnoc(items);
    LineGstSnoc(items);
    LineTaxDef(items[|items| - 1]);
    UniformStepReal(LineGst(items[..|items| - 1]), Subtotal(items[..|items| - 1]), LineGst(items), Subtotal(items),
                    LineTax(items[|items| - 1]), Line(items[|items| - 1]), Rate(items[|items| - 1]), rate);
  }

  /** A uniform rate R with a positive subtotal blends to exactly R/100, so
      the total tax is the taxable base times R/100. */
  lemma {:induction false} UniformRate(inv: Invoice, rate: real)
    requires forall i :: 0 <= i < |inv.items| ==> Rate(inv.items[i]) == rate
    requires Subtotal(inv.items) > 0.0
    ensures WeightedGst(inv.items) == rate / 100.0
    ensures ComputeTotals(inv).totalGst
            == Taxable(Subtotal(inv.items), Norm(inv.discount)) * (rate / 100.0)
  {
    UniformLineGst(inv.items, rate);
    CancelRatio(LineGst(inv.items), Subtotal(inv.items), rate / 100.0, WeightedGst(inv.items));
  }

  /** With non-negative lines and rates between `lo` and `hi`, the carried
      tax lies between `sub × lo/100` and `sub × hi/100`. */
  lemma {:induction false} LineGstBounds(items: seq<Item>, lo: real, hi: real)
    requires forall i :: 0 <= i < |items| ==> Line(items[i]) >= 0.0
    requires forall i :: 0 <= i < |items| ==> lo <= Rate(items[i]) <= hi
    ensures Subtotal(items) * (lo / 100.0) <= LineGst(items) <= Subtotal(items) * (hi / 100.0)
    decreases |items|
  {
    if |items| > 0 {
      var pre, last := items[..|items| - 1], items[|items| - 1];
      assert forall i :: 0 <= i < |pre| ==> pre[i] == items[i];
      LineGstBounds(pre, lo, hi);
      assert Line(last) >= 0.0 && lo <= Rate(last) <= hi;
      LineGstBoundsStep(items, lo, hi);
    } else {
      assert Subtotal(items) == 0.0 && LineGst(items) == 0.0;
    }
  }

  /** The inductive step of `LineGstBounds`: one more line keeps the bounds. */
  lemma {:induction false} LineGstBoundsStep(items: seq<Item>, lo: real, hi: real)
    requires |items| > 0
    requires Line(items[|items| - 1]) >= 0.0 && lo <= Rate(items[|items| - 1]) <= hi
    requires var pre := items[..|items| - 1];
             Subtotal(pre) * (lo / 100.0) <= LineGst(pre) <= Subtotal(pre) * (hi / 100.0)
    ensures Subtotal(items) * (lo / 100.0) <= LineGst(items) <= Subtotal(items) * (hi / 100.0)
  {
    SubtotalSnoc(items);
    LineGstSnoc(items);
    LineTaxDef(items[|items| - 1]);
    BoundsStep(Subtotal(items[..|items| - 1]), LineGst(items[..|items| - 1]), LineTax(items[|items| - 1]),
               Line(items[|items| - 1]), lo, Rate(items[|items| - 1]), hi, Subtotal(items), LineGst(items));
  }

  /** The blended rate is a weighted average: it lies between the lowest
      and the highest item rate (as fractions). */
  lemma {:induction false} WeightedGstIsAverage(items: seq<Item>, lo: real, hi: real)
    requires forall i :: 0 <= i < |items| ==> Line(items[i]) >= 0.0
    requires forall i :: 0 <= i < |items| ==> lo <= Rate(items[i]) <= hi
    requires Subtotal(items) > 0.0
    ensures lo / 100.0 <= WeightedGst(items) <= hi / 100.0
  {
    LineGstBounds(items, lo, hi);
    DivideBounds(lo, hi, LineGst(items), Subtotal(items), WeightedGst(items));
  }

  /** Dividing `sub × lo/100 <= x <= sub × hi/100` by a positive `sub`. */
  lemma {:induction false} DivideBounds(lo: real, hi: real, x: real, sub: real, q: real)
    requires sub > 0.0 && sub * (lo / 100.0) <= x <= sub * (hi / 100.0)
    requires q == x / sub
    ensures lo / 100.0 <= q <= hi / 100.0
  {
    assert sub * q == x;
  }

  // Steps of real arithmetic the lemmas above share, stated on plain reals.

  /** The subtotal of a non-empty list, taken from the back. */
  lemma {:induction false} SubtotalSnoc(items: seq<Item>)
    requires |items| > 0
    ensures Subtotal(items) == Subtotal(items[..|items| - 1]) + Line(items[|items| - 1])
  {
  }

  /** The carried tax of a non-empty list, taken from the back. */
  lemma {:induction false} LineGstSnoc(items: seq<Item>)
    requires |items| > 0
    ensures LineGst(items) == LineGst(items[..|items| - 1]) + LineTax(items[|items| - 1])
  {
  }

  /** The tax of one line, written out. */
  lemma {:induction false} LineTaxDef(it: Item)
    ensures LineTax(it) == Line(it) * (Rate(it) / 100.0)
  {
  }

  lemma {:induction false} DivideSumStep(x: real, t: real, l: real, g: real, sub: real, total: real)
    requires sub != 0.0 && t == l * g && total == x + t
    ensures x / sub + (l / sub) * g == total / sub
  {
    assert (l / sub) * g == (l * g) / sub;
  }

  /** One more line `l` at rate `r = rate` keeps `tax = sub × rate/100`. */
  lemma {:induction false} UniformStepReal(tp: real, sp: real, tax: real, sub: real, t: real, l: real, r: real, rate: real)
    requires tp == sp * (rate / 100.0) && r == rate && t == l * (r / 100.0)
    requires tax == tp + t && sub == sp + l
    ensures tax == sub * (rate / 100.0)
  {
    Distribute(sp, l, rate / 100.0);
  }

  lemma {:induction false} Distribute(sp: real, l: real, k: real)
    ensures (sp + l) * k == sp * k + l * k
  {
  }

  /** A ratio `q` with `q × sub = sub × k` is `k`. */
  lemma {:induction false} CancelRatio(t: real, sub: real, k: real, q: real)
    requires sub != 0.0 && t == sub * k && q * sub == t
    ensures q == k
  {
    assert (q - k) * sub == 0.0;
  }

  /** One more non-negative line `l` at a rate `g` in [lo, hi] (percent)
      keeps the carried tax between the bounds. */
  lemma {:induction false} BoundsStep(sp: real, tp: real, t: real, l: real, lo: real, g: real, hi: real, sub: real, tax: real)
    requires l >= 0.0 && lo <= g <= hi
    requires sp * (lo / 100.0) <= tp <= sp * (hi / 100.0)
    requires t == l * (g / 100.0) && sub == sp + l && tax == tp + t
    ensures sub * (lo / 100.0) <= tax <= sub * (hi / 100.0)
  {
    var a, c, b := lo / 100.0, g / 100.0, hi / 100.0;
    assert l * a <= l * c <= l * b;
    Distribute(sp, l, a);
    Distribute(sp, l, b);
  }

  /** Without a discount and with non-negative lines, the blended tax is
      exactly the sum of the per-line taxes. */
  lemma {:induction false} NoDiscountTaxIsPerLineTax(inv: Invoice)
    requires Norm(inv.discount) == 0.0
    requires forall i :: 0 <= i < |inv.items| ==> Line(inv.items[i]) >= 0.0
    ensures ComputeTotals(inv).totalGst == LineGst(inv.items)
  {
    var items := inv.items;
    if Subtotal(items) <= 0.0 {
      ZeroSubtotalNoTax(items);
    }
  }

  /** Non-negative lines that add up to zero carry no tax. */
  lemma {:induction false} ZeroSubtotalNoTax(items: seq<Item>)
    requires forall i :: 0 <= i < |items| ==> Line(items[i]) >= 0.0
    requires Subtotal(items) <= 0.0
    ensures LineGst(items) == 0.0
    decreases |items|
  {
    if |items| > 0 {
      var pre, last := items[..|items| - 1], items[|items| - 1];
      SubtotalNonNegative(pre);
      assert Line(last) == 0.0;
      ZeroSubtotalNoTax(pre);
    }
  }

  /** Non-negative lines give a non-negative subtotal. */
  lemma {:induction false} SubtotalNonNegative(items: seq<Item>)
    requires forall i :: 0 <= i < |items| ==> Line(items[i]) >= 0.0
    ensures Subtotal(items) >= 0.0
    decreases |items|
  {
    if |items| > 0 {
      SubtotalNonNegative(items[..|items| - 1]);
    }
  }

  /** The jurisdiction flag only moves tax between the CGST/SGST and IGST
      columns: the total tax and the grand total do not depend on it. */
  lemma {:induction false} JurisdictionKeepsGrandTotal(inv: Invoice, inter: bool)
    ensures ComputeTotals(inv.(interState := inter)).totalGst == ComputeTotals(inv).totalGst
    ensures ComputeTotals(inv.(interState := inter)).grand == ComputeTotals(inv).grand
  {
  }

  /** Two item lists whose line amounts and rates agree position by position
      give the same subtotal and the same carried tax. */
  lemma {:induction false} SameAmountsSameSums(a: seq<Item>, b: seq<Item>)
    requires |a| == |b|
    requires forall i :: 0 <= i < |a| ==> Line(a[i]) == Line(b[i]) && Rate(a[i]) == Rate(b[i])
    ensures Subtotal(a) == Subtotal(b) && LineGst(a) == LineGst(b)
    decreases |a|
  {
    if |a| > 0 {
      var pa, pb := a[..|a| - 1], b[..|b| - 1];
      assert forall i :: 0 <= i < |pa| ==> pa[i] == a[i] && pb[i] == b[i];
      SameAmountsSameSums(pa, pb);
      assert Line(a[|a| - 1]) == Line(b[|b| - 1]) && Rate(a[|a| - 1]) == Rate(b[|b| - 1]);
      SameSumsStep(a, b);
    }
  }

  /** The inductive step of `SameAmountsSameSums`. */
  lemma {:induction false} SameSumsStep(a: seq<Item>, b: seq<Item>)
    requires |a| == |b| > 0
    requires Subtotal(a[..|a| - 1]) == Subtotal(b[..|b| - 1]) && LineGst(a[..|a| - 1]) == LineGst(b[..|b| - 1])
    requires Line(a[|a| - 1]) == Line(b[|b| - 1]) && Rate(a[|a| - 1]) == Rate(b[|b| - 1])
    ensures Subtotal(a) == Subtotal(b) && LineGst(a) == LineGst(b)
  {
    SameSubtotalStep(a, b);
    SameLineGstStep(a, b);
  }

  lemma {:induction false} SameSubtotalStep(a: seq<Item>, b: seq<Item>)
    requires |a| == |b| > 0
    requires Subtotal(a[..|a| - 1]) == Subtotal(b[..|b| - 1])
    requires Line(a[|a| - 1]) == Line(b[|b| - 1])
    ensures Subtotal(a) == Subtotal(b)
  {
    SubtotalSnoc(a);
    SubtotalSnoc(b);
  }

  lemma {:induction false} SameLineGstStep(a: seq<Item>, b: seq<Item>)
    requires |a| == |b| > 0
    requires LineGst(a[..|a| - 1]) == LineGst(b[..|b| - 1])
    requires Line(a[|a| - 1]) == Line(b[|b| - 1]) && Rate(a[|a| - 1]) == Rate(b[|b| - 1])
    ensures LineGst(a) == LineGst(b)
  {
    LineGstSnoc(a);
    LineGstSnoc(b);
    SameLineTax(a[|a| - 1], b[|b| - 1]);
  }

  /** Two items with the same line amount and rate carry the same tax. */
  lemma {:induction false} SameLineTax(x: Item, y: Item)
    requires Line(x) == Line(y) && Rate(x) == Rate(y)
    ensures LineTax(x) == LineTax(y)
  {
    LineTaxDef(x);
    LineTaxDef(y);
  }

  /** Hence such lists give the same totals. */
  lemma {:induction false} SameAmountsSameTotals(inv: Invoice, items: seq<Item>)
    requires |items| == |inv.items|
    requires forall i :: 0 <= i < |items| ==> Line(items[i]) == Line(inv.items[i]) && Rate(items[i]) == Rate(inv.items[i])
    ensures ComputeTotals(inv.(items := items)) == ComputeTotals(inv)
  {
    SameAmountsSameSums(items, inv.items);
    SameSumsSameRate(items, inv.items);
  }

  /** Equal sums give the same blended rate. */
  lemma {:induction false} SameSumsSameRate(a: seq<Item>, b: seq<Item>)
    requires Subtotal(a) == Subtotal(b) && LineGst(a) == LineGst(b)
    ensures WeightedGst(a) == WeightedGst(b)
  {
  }

  function Single(qty: real, price: real, gst: real): Item
  {
    Item("", "", "", Num(qty), Num(price), Num(gst))
  }

  /** The demo item is one unit at 2500 with GST at 18 %. */
  lemma {:induction false} DemoItemAmounts(id: string)
    ensures Line(DemoItem(id)) == 2500.0 && Rate(DemoItem(id)) == 18.0
  {
  }

  /** The invoice the app starts from, within one state: subtotal 2500,
      GST 450 split evenly into CGST and SGST, grand total 2950. */
  lemma {:induction false} DemoIntraState(today: string, id: string)
    ensures var t := ComputeTotals(DefaultData(today, id).invoice);
            t.sub == 2500.0 && t.totalGst == 450.0 && t.cgst == 225.0 && t.sgst == 225.0
            && t.igst == 0.0 && t.grand == 2950.0
  {
    var items := DefaultData(today, id).invoice.items;
    assert items[..0] == [];
  }

  /** The same invoice across states: all tax is IGST, the grand total is
      unchanged. */
  lemma {:induction false} DemoInterState(today: string, id: string)
    ensures var t := ComputeTotals(DefaultData(today, id).invoice.(interState := true));
            t.igst == 450.0 && t.cgst == 0.0 && t.sgst == 0.0 && t.grand == 2950.0
  {
    var items := DefaultData(today, id).invoice.items;
    assert items[..0] == [];
  }

  /** Two items of 1000 at 0 % and at 18 % blend to 9 %. */
  lemma {:induction false} DemoMixedRates()
    ensures var t := ComputeTotals(Invoice("", "", "", "", false, "", "",
                       [Single(1.0, 1000.0, 0.0), Single(1.0, 1000.0, 18.0)], Num(0.0), Num(0.0)));
            t.sub == 2000.0 && t.totalGst == 180.0 && t.grand == 2180.0
    ensures WeightedGst([Single(1.0, 1000.0, 0.0), Single(1.0, 1000.0, 18.0)]) == 0.09
  {
    var items := [Single(1.0, 1000.0, 0.0), Single(1.0, 1000.0, 18.0)];
    assert items[..1] == [items[0]];
    assert items[..1][..0] == [];
    assert Subtotal(items) == 2000.0;
    assert LineGst(items) == 180.0;
  }
}
