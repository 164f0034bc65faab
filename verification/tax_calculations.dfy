/**
 * The totals of the line-item calculator hook
 * (src/components/TaxSmartCalculator/hooks/useTaxCalculations.ts): every
 * component is rounded to the cent on its own, from the percentage table.
 */
module TaxCalculations {
  import opened Wrappers
  import opened TaxData
  import opened PercentRates
  import opened Rounding

  /** The hook's `Totals`. */
  datatype HookTotals = HookTotals(
    subtotal: real, gst: real, pst: real, qst: real, hst: real, totalTax: real, grandTotal: real)

  /** One component: `round2(subtotal * (pct / 100))`. */
  function ComponentTax(subtotal: real, pct: real): (r: real)
    ensures Near(subtotal * (pct / 100.0), r, 0.005)
    ensures r == RoundToCents(subtotal * (pct / 100.0))
  {
    RoundToCents(subtotal * (pct / 100.0))
  }

  /**
   * `calcTotalsFromSubtotal`: only the components of the province's kind can
   * be nonzero; each is rounded on its own, then the total tax and the grand
   * total are rounded again.
   */
  function CalcTotalsFromSubtotal(p: Province, subtotal: real): (t: HookTotals)
    ensures Rate(p).Hst? ==> t.gst == 0.0 && t.pst == 0.0 && t.qst == 0.0
    ensures Rate(p).Gst? ==> t.pst == 0.0 && t.qst == 0.0 && t.hst == 0.0
    ensures Rate(p).GstPst? ==> t.qst == 0.0 && t.hst == 0.0
    ensures Rate(p).GstQst? ==> t.pst == 0.0 && t.hst == 0.0
    ensures !Rate(p).Hst? ==> t.gst == ComponentTax(subtotal, Rate(p).gst)
    ensures Rate(p).GstPst? ==> t.pst == ComponentTax(subtotal, Rate(p).pst)
    ensures Rate(p).GstQst? ==> t.qst == ComponentTax(subtotal, Rate(p).qst)
    ensures Rate(p).Hst? ==> t.hst == ComponentTax(subtotal, Rate(p).hst)
    ensures t.totalTax == RoundToCents(t.gst + t.pst + t.qst + t.hst)
    ensures t.subtotal == RoundToCents(subtotal) && t.grandTotal == RoundToCents(subtotal + t.totalTax)
  {
    TotalsForRate(Rate(p), subtotal)
  }

  /** The body of `calcTotalsFromSubtotal` once `RATES[province]` is looked up. */
  function TotalsForRate(rate: RateShape, subtotal: real): HookTotals
  {
    var gst := if rate.Gst? || rate.GstPst? || rate.GstQst? then ComponentTax(subtotal, rate.gst) else 0.0;
    var pst := if rate.GstPst? then ComponentTax(subtotal, rate.pst) else 0.0;
    var qst := if rate.GstQst? then ComponentTax(subtotal, rate.qst) else 0.0;
    var hst := if rate.Hst? then ComponentTax(subtotal, rate.hst) else 0.0;
    var totalTax := RoundToCents(gst + pst + qst + hst);
    HookTotals(RoundToCents(subtotal), gst, pst, qst, hst, totalTax, RoundToCents(subtotal + totalTax))
  }

  /**
   * For any entry: the total tax is within 1.5 cents of the subtotal times
   * the entry's combined percentage, as a fraction, (at most two components and their sum are
   * each rounded), and the grand total within 2 cents of the subtotal plus
   * that tax.
   */
  lemma TotalsForRateNear(rate: RateShape, subtotal: real, fraction: real)
    requires fraction == Percent(rate) / 100.0
    ensures Near(subtotal * fraction, TotalsForRate(rate, subtotal).totalTax, 0.015)
    ensures Near(subtotal + subtotal * fraction, TotalsForRate(rate, subtotal).grandTotal, 0.02)
  {
    match rate
    case Hst(hst) =>
    case Gst(gst) =>
    case GstPst(gst, pst) =>
      assert subtotal * (gst / 100.0) + subtotal * (pst / 100.0) == subtotal * ((gst + pst) / 100.0);
    case GstQst(gst, qst) =>
      assert subtotal * (gst / 100.0) + subtotal * (qst / 100.0) == subtotal * ((gst + qst) / 100.0);
  }

  /**
   * Against the engine: the hook's total tax is within 1.5 cents of the
   * subtotal times the province's combined rate, and its grand total within 2
   * cents of the subtotal plus that tax.
   */
  lemma SubtotalTotalsMatchEngine(p: Province, subtotal: real)
    ensures Near(subtotal * CombinedRate(p), CalcTotalsFromSubtotal(p, subtotal).totalTax, 0.015)
    ensures Near(subtotal + subtotal * CombinedRate(p), CalcTotalsFromSubtotal(p, subtotal).grandTotal, 0.02)
  {
    PercentIsCombinedRate(p);
    TotalsForRateNear(Rate(p), subtotal, CombinedRate(p));
  }

  /** A subtotal of 100: BC pays 5 GST and 7 PST (112), ON 13 HST (113), QC 5 GST and 9.98 QST (114.98). */
  lemma SubtotalExamples()
    ensures var t := CalcTotalsFromSubtotal(BC, 100.0); t.gst == 5.0 && t.pst == 7.0 && t.grandTotal == 112.0
    ensures var t := CalcTotalsFromSubtotal(ON, 100.0); t.hst == 13.0 && t.grandTotal == 113.0
    ensures var t := CalcTotalsFromSubtotal(QC, 100.0); t.gst == 5.0 && t.qst == 9.98 && t.grandTotal == 114.98
  {
  }

  /** A zero subtotal has no tax and a zero grand total. */
  lemma ZeroSubtotal(p: Province)
    ensures CalcTotalsFromSubtotal(p, 0.0) == HookTotals(0.0, 0.0, 0.0, 0.0, 0.0, 0.0, 0.0)
  {
  }

  // ---------------------------------------------------------------------------
  // Items

  /** The hook's `LineItem`, reduced to what the totals read (`id` and `label` are not used). */
  datatype HookItem = HookItem(amount: real, taxable: Option<bool>)

  /** `taxable === false`: only an explicit false excludes an item from tax. */
  predicate Excluded(it: HookItem)
  {
    it.taxable == Some(false)
  }

  /** The left fold summing every amount. */
  function SumAmounts(items: seq<HookItem>): real
  {
    if items == [] then 0.0 else SumAmounts(items[..|items| - 1]) + items[|items| - 1].amount
  }

  /** The left fold summing the amounts that are not excluded from tax. */
  function TaxableAmounts(items: seq<HookItem>): real
  {
    if items == [] then 0.0
    else TaxableAmounts(items[..|items| - 1]) + (if Excluded(items[|items| - 1]) then 0.0 else items[|items| - 1].amount)
  }

  /** The items that are not excluded from tax, in order. */
  function TaxableItems(items: seq<HookItem>): (r: seq<HookItem>)
    ensures forall i :: 0 <= i < |r| ==> !Excluded(r[i])
    ensures |r| <= |items|
    ensures forall x :: x in r <==> x in items && !Excluded(x)
  {
    if items == [] then []
    else
      var init := items[..|items| - 1];
      assert items == init + [items[|items| - 1]];
      TaxableItems(init) + (if Excluded(items[|items| - 1]) then [] else [items[|items| - 1]])
  }

  /** Filtering a concatenation filters each part and keeps them in order. */
  lemma {:induction false} TaxableItemsConcat(a: seq<HookItem>, b: seq<HookItem>)
    ensures TaxableItems(a + b) == TaxableItems(a) + TaxableItems(b)
    decreases |b|
  {
    if b != [] {
      var b' := b[..|b| - 1];
      assert (a + b)[..|a + b| - 1] == a + b';
      assert (a + b)[|a + b| - 1] == b[|b| - 1];
      TaxableItemsConcat(a, b');
    } else {
      assert a + b == a;
    }
  }

  /** The taxable base is the plain sum over the taxable items. */
  lemma {:induction false} TaxableAmountsIsSumOfTaxable(items: seq<HookItem>)
    ensures TaxableAmounts(items) == SumAmounts(TaxableItems(items))
  {
    if items != [] {
      var init, last := items[..|items| - 1], items[|items| - 1];
      TaxableAmountsIsSumOfTaxable(init);
      SumAmountsConcat(TaxableItems(init), if Excluded(last) then [] else [last]);
    }
  }

  /** Summing a concatenation sums the sums of the parts. */
  lemma {:induction false} SumAmountsConcat(a: seq<HookItem>, b: seq<HookItem>)
    ensures SumAmounts(a + b) == SumAmounts(a) + SumAmounts(b)
  {
    if b != [] {
      assert (a + b)[..|a + b| - 1] == a + b[..|b| - 1];
      SumAmountsConcat(a, b[..|b| - 1]);
    } else {
      assert a + b == a;
    }
  }

  /**
   * `calcTotalsFromItems` as written: the subtotal counts every item, the
   * taxes are those of the taxable base, and the grand total is the one
   * computed from the taxable base.
   */
  function CalcTotalsFromItemsAsWritten(p: Province, items: seq<HookItem>): (t: HookTotals)
    ensures t.subtotal == RoundToCents(SumAmounts(items))
    ensures t.grandTotal == CalcTotalsFromSubtotal(p, RoundToCents(TaxableAmounts(items))).grandTotal
  {
    var subtotal := RoundToCents(SumAmounts(items));
    var taxableBase := RoundToCents(TaxableAmounts(items));
    CalcTotalsFromSubtotal(p, taxableBase).(subtotal := subtotal)
  }

  /** A single item of 100 marked not taxable: a subtotal of 100, no tax, and a grand total of 0. */
  lemma NonTaxableItemDropsFromGrandTotal()
    ensures var t := CalcTotalsFromItemsAsWritten(AB, [HookItem(100.0, Some(false))]);
            t.subtotal == 100.0 && t.totalTax == 0.0 && t.grandTotal == 0.0
  {
    assert [HookItem(100.0, Some(false))][..0] == [];
  }

  /**
   * `calcTotalsFromItems` with the grand total the item model promises
   * (non-taxable items still count): the taxes of the taxable base, and the
   * grand total of the full subtotal plus that tax.
   */
  function CalcTotalsFromItems(p: Province, items: seq<HookItem>): (t: HookTotals)
    ensures t.subtotal == RoundToCents(SumAmounts(items))
    ensures t.grandTotal == RoundToCents(t.subtotal + t.totalTax)
  {
    var t := CalcTotalsFromItemsAsWritten(p, items);
    t.(grandTotal := RoundToCents(t.subtotal + t.totalTax))
  }

  /** The taxes depend only on the taxable items: excluded items add nothing to any tax. */
  lemma ItemTaxesUseTaxableItems(p: Province, items: seq<HookItem>)
    ensures var t := CalcTotalsFromItems(p, items);
            var base := CalcTotalsFromSubtotal(p, RoundToCents(SumAmounts(TaxableItems(items))));
            t.gst == base.gst && t.pst == base.pst && t.qst == base.qst && t.hst == base.hst && t.totalTax == base.totalTax
  {
    TaxableAmountsIsSumOfTaxable(items);
  }

  /** When every item is excluded, every tax is zero and the grand total is the subtotal. */
  lemma {:induction false} NothingTaxableNoTax(p: Province, items: seq<HookItem>)
    requires forall i :: 0 <= i < |items| ==> Excluded(items[i])
    ensures var t := CalcTotalsFromItems(p, items);
            t.gst == 0.0 && t.pst == 0.0 && t.qst == 0.0 && t.hst == 0.0 && t.totalTax == 0.0 && t.grandTotal == t.subtotal
  {
    NoTaxableAmount(items);
    ZeroSubtotal(p);
    var t := CalcTotalsFromItems(p, items);
    RoundWholeCents(Cents(SumAmounts(items)));
  }

  lemma {:induction false} NoTaxableAmount(items: seq<HookItem>)
    requires forall i :: 0 <= i < |items| ==> Excluded(items[i])
    ensures TaxableAmounts(items) == 0.0
  {
    if items != [] {
      NoTaxableAmount(items[..|items| - 1]);
    }
  }

  /** When no item is excluded, the corrected and the written grand totals agree. */
  lemma CorrectedAgreesWhenAllTaxable(p: Province, items: seq<HookItem>)
    requires forall i :: 0 <= i < |items| ==> !Excluded(items[i])
    ensures CalcTotalsFromItems(p, items) == CalcTotalsFromItemsAsWritten(p, items)
  {
    AllTaxable(items);
  }

  lemma {:induction false} AllTaxable(items: seq<HookItem>)
    requires forall i :: 0 <= i < |items| ==> !Excluded(items[i])
    ensures TaxableAmounts(items) == SumAmounts(items)
  {
    if items != [] {
      AllTaxable(items[..|items| - 1]);
    }
  }

  // ---------------------------------------------------------------------------
  // Reverse tax

  /** `reverseTax`: the pre-tax amount of a grand total, rounded to the cent. */
  function ReverseTax(p: Province, grandTotal: real): (r: real)
    ensures Near(grandTotal / (1.0 + Percent(Rate(p)) / 100.0), r, 0.005)
  {
    RoundToCents(grandTotal / (1.0 + Percent(Rate(p)) / 100.0))
  }

  /** Backing the tax out of an amount grossed up by the province's percentage gives the amount back, to the cent. */
  lemma ReverseTaxInverts(p: Province, x: real)
    ensures ReverseTax(p, x * (1.0 + Percent(Rate(p)) / 100.0)) == RoundToCents(x)
  {
    var k := 1.0 + Percent(Rate(p)) / 100.0;
    assert k > 0.0;
    assert (x * k) / k == x;
  }

  /** Grossing up uses the engine's combined rate. */
  lemma ReverseTaxUsesCombinedRate(p: Province, x: real)
    ensures ReverseTax(p, x * (1.0 + CombinedRate(p))) == RoundToCents(x)
  {
    PercentIsCombinedRate(p);
    ReverseTaxInverts(p, x);
  }
}
