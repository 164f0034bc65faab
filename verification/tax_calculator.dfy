/**
 * The canonical tax engine (src/lib/taxCalculator.ts): base taxability per
 * category, province-specific overrides, the per-line evaluator, the
 * aggregator and the category validator.
 */
module TaxCalculator {
  import opened Wrappers
  import opened TaxData

  /** Whether the federal and the provincial component apply to a line. */
  datatype Flags = Flags(federal: bool, provincial: bool)

  /** The categories that are taxed by neither government. */
  predicate Untaxed(c: Category)
  {
    c == Exempt || c == ZeroRatedGroceries || c == FeminineHygiene || c == PublicTransit || c == PrescriptionDrugs
  }

  /**
   * `getBaseFlags`: the untaxed categories get neither component, 'GST only'
   * only the federal one, 'Provincial only' only the provincial one, and every
   * other category (books and newspapers included) both.
   */
  function BaseFlags(c: Category): (f: Flags)
    ensures f.federal <==> !Untaxed(c) && c != ProvincialOnly
    ensures f.provincial <==> !Untaxed(c) && c != GstOnly
  {
    match c
    case Exempt | ZeroRatedGroceries | FeminineHygiene | PublicTransit | PrescriptionDrugs =>
      Flags(false, false)
    case PrintedBooks | Newspapers => Flags(true, true)
    case GstOnly => Flags(true, false)
    case ProvincialOnly => Flags(false, true)
    case _ => Flags(true, true)
  }

  // ---------------------------------------------------------------------------
  // Province overrides

  /** What a row of the override table does to the provincial flag. */
  datatype Effect =
    | SetProvincial(value: bool)   // provincial := value
    | TaxedAbove(limit: real)      // provincial := amount > limit
    | ExemptUpTo(limit: real)      // if amount <= limit then provincial := false

  function ApplyEffect(e: Effect, amount: real, provincial: bool): bool
  {
    match e
    case SetProvincial(v) => v
    case TaxedAbove(limit) => amount > limit
    case ExemptUpTo(limit) => if amount <= limit then false else provincial
  }

  /**
   * The override rules as a table keyed by category and province: the one
   * effect that applies to the pair, or None for a pair no rule names.
   */
  function OverrideRule(category: Category, province: Province): Option<Effect>
  {
    match category
    case ChildrensClothing =>
      if province == ON || province == NS || province == PE || province == BC then Some(SetProvincial(false))
      else if province == MB then Some(TaxedAbove(150.0))
      else None
    case ChildrensDiapers =>
      if province == ON || province == NS || province == BC || province == MB || province == SK || province == QC then Some(SetProvincial(false)) else None
    case ChildrensCarSeats =>
      if province == ON || province == BC || province == MB then Some(SetProvincial(false)) else None
    case PreparedFood =>
      if province == ON then Some(ExemptUpTo(4.0))
      else if province == BC then Some(SetProvincial(false))
      else if province == MB || province == SK then Some(SetProvincial(true))
      else None
    case SweetenedBeverages =>
      if province == BC || province == MB || province == SK then Some(SetProvincial(true)) else None
    case SnackFoods =>
      if province == BC then Some(SetProvincial(false))
      else if province == MB || province == SK then Some(SetProvincial(true))
      else None
    case PrintedBooks =>
      if province == ON || province == NS || province == NB || province == NL || province == PE || province == BC || province == MB || province == SK || province == QC then Some(SetProvincial(false)) else None
    case Newspapers =>
      if province == ON || province == BC then Some(SetProvincial(false)) else None
    case _ => None
  }

  /**
   * `applyProvinceOverrides`: the switch on the category, each case
   * reassigning the provincial flag rule by rule, in source order. The
   * federal flag is never touched.
   */
  function ApplyProvinceOverrides(amount: real, province: Province, category: Category, flags: Flags): (r: Flags)
    ensures r.federal == flags.federal
  {
    var provincial := flags.provincial;
    var provincial :=
      match category
      case ChildrensClothing =>
        var p1 := if province == ON || province == NS || province == PE then false else provincial;
        var p2 := if province == BC then false else p1;
        if province == MB then (if amount <= 150.0 then false else true) else p2
      case ChildrensDiapers =>
        var p1 := if province == ON || province == NS then false else provincial;
        if province == BC || province == MB || province == SK || province == QC then false else p1
      case ChildrensCarSeats =>
        if province == ON || province == BC || province == MB then false else provincial
      case PreparedFood =>
        var p1 := if province == ON && amount <= 4.0 then false else provincial;
        var p2 := if province == BC then false else p1;
        if province == MB || province == SK then true else p2
      case SweetenedBeverages =>
        if province == BC || province == MB || province == SK then true else provincial
      case SnackFoods =>
        var p1 := if province == BC then false else provincial;
        if province == MB || province == SK then true else p1
      case PrintedBooks =>
        var p1 := if province == ON || province == NS || province == NB || province == NL || province == PE then false else provincial;
        if province == BC || province == MB || province == SK || province == QC then false else p1
      case Newspapers =>
        if province == ON || province == BC then false else provincial
      case _ => provincial;
    Flags(flags.federal, provincial)
  }

  /**
   * The switch agrees with the table: the provincial flag ends up as the one
   * rule for the pair says, and is left unchanged for every pair the table
   * does not name.
   */
  lemma OverridesFollowTable(amount: real, province: Province, category: Category, flags: Flags)
    ensures OverrideRule(category, province).None? ==>
              ApplyProvinceOverrides(amount, province, category, flags) == flags
    ensures OverrideRule(category, province).Some? ==>
              ApplyProvinceOverrides(amount, province, category, flags).provincial ==
              ApplyEffect(OverrideRule(category, province).value, amount, flags.provincial)
  {
  }

  /**
   * The two amount-dependent rules: Manitoba children's clothing is taxed
   * provincially exactly above $150, and Ontario prepared food loses its
   * provincial part at $4 or less (inclusive) and is left alone above that.
   */
  lemma ThresholdOverrides(amount: real, flags: Flags)
    ensures ApplyProvinceOverrides(amount, MB, ChildrensClothing, flags).provincial == (amount > 150.0)
    ensures amount <= 4.0 ==> !ApplyProvinceOverrides(amount, ON, PreparedFood, flags).provincial
    ensures amount > 4.0 ==> ApplyProvinceOverrides(amount, ON, PreparedFood, flags) == flags
  {
  }

  // ---------------------------------------------------------------------------
  // Line evaluator

  datatype LineItemInput = LineItemInput(amount: real, category: Category)

  datatype LineBreakdown = LineBreakdown(
    amount: real, federalTax: real, provincialTax: real, hstTax: real, totalTax: real, grandTotal: real)

  const ZeroBreakdown := LineBreakdown(0.0, 0.0, 0.0, 0.0, 0.0, 0.0)

  /** The decomposition invariant of a breakdown, with every component non-negative. */
  predicate Consistent(b: LineBreakdown)
  {
    && b.totalTax == b.federalTax + b.provincialTax + b.hstTax
    && b.grandTotal == b.amount + b.totalTax
    && b.amount >= 0.0 && b.federalTax >= 0.0 && b.provincialTax >= 0.0 && b.hstTax >= 0.0
  }

  /** `Number.isFinite(x) ? Math.max(x, 0) : 0`, on reals (every real is finite). */
  function ClampAmount(x: real): (r: real)
    ensures r >= 0.0
    ensures x >= 0.0 ==> r == x
    ensures x < 0.0 ==> r == 0.0
  {
    if x > 0.0 then x else 0.0
  }

  /** The flags that govern a line: its category's base flags, then the province overrides. */
  function LineFlags(item: LineItemInput, province: Province): (f: Flags)
    ensures f.federal == BaseFlags(item.category).federal
  {
    ApplyProvinceOverrides(ClampAmount(item.amount), province, item.category, BaseFlags(item.category))
  }

  /**
   * The share of the amount that is tax, for a province and a pair of flags:
   * in an HST province the harmonized rate, GST alone, or the provincial part
   * of HST; elsewhere GST and the provincial rate, each if its flag is set.
   */
  function EffectiveRate(province: Province, flags: Flags): real
  {
    var rates := TaxRates(province);
    if rates.kind == HST then
      if flags.federal && flags.provincial then OrZero(rates.hst)
      else if flags.federal then rates.gst
      else if flags.provincial then OrZero(rates.hst) - rates.gst
      else 0.0
    else
      (if flags.federal then rates.gst else 0.0) + (if flags.provincial then ProvincialRate(province) else 0.0)
  }

  /** At most one of three numbers is nonzero. */
  predicate AtMostOneNonzero(a: real, b: real, c: real)
  {
    (a != 0.0 ==> b == 0.0 && c == 0.0) && (b != 0.0 ==> c == 0.0)
  }

  /** The three tax components of a line: federal (GST), provincial (PST/QST) and harmonized. */
  datatype Components = Components(federalTax: real, provincialTax: real, hstTax: real)

  /**
   * The dispatch on the province's rate kind at the heart of `calculateLine`:
   * an HST province charges the harmonized rate, GST alone, or the
   * provincial part of HST, so at most one component is nonzero; the other
   * kinds charge GST and their provincial rate independently and never HST,
   * and a GST-only province never a provincial component.
   */
  function TaxComponents(amount: real, province: Province, flags: Flags): (c: Components)
    requires amount >= 0.0
    ensures c.federalTax >= 0.0 && c.provincialTax >= 0.0 && c.hstTax >= 0.0
    ensures TaxRates(province).kind == HST ==> AtMostOneNonzero(c.federalTax, c.provincialTax, c.hstTax)
    ensures TaxRates(province).kind != HST ==> c.hstTax == 0.0
    ensures TaxRates(province).kind == GST_ONLY ==> c.provincialTax == 0.0
    ensures TaxRates(province).kind == HST ==>
              c == (if flags.federal && flags.provincial then Components(0.0, 0.0, amount * ProvincialRate(province))
                    else if flags.federal then Components(amount * TaxRates(province).gst, 0.0, 0.0)
                    else if flags.provincial then Components(0.0, amount * (ProvincialRate(province) - TaxRates(province).gst), 0.0)
                    else Components(0.0, 0.0, 0.0))
    ensures TaxRates(province).kind != HST ==>
              c.federalTax == (if flags.federal then amount * TaxRates(province).gst else 0.0) &&
              c.provincialTax == (if flags.provincial then amount * ProvincialRate(province) else 0.0)
  {
    var rates := TaxRates(province);
    TaxRatesWellFormed(province);
    if rates.kind == HST then
      if flags.federal && flags.provincial then Components(0.0, 0.0, amount * OrZero(rates.hst))
      else if flags.federal && !flags.provincial then Components(amount * rates.gst, 0.0, 0.0)
      else if !flags.federal && flags.provincial then Components(0.0, amount * (OrZero(rates.hst) - rates.gst), 0.0)
      else Components(0.0, 0.0, 0.0)
    else if rates.kind == GST_PST then
      Components(if flags.federal then amount * rates.gst else 0.0, if flags.provincial then amount * OrZero(rates.pst) else 0.0, 0.0)
    else if rates.kind == GST_QST then
      Components(if flags.federal then amount * rates.gst else 0.0, if flags.provincial then amount * OrZero(rates.qst) else 0.0, 0.0)
    else
      Components(if flags.federal then amount * rates.gst else 0.0, 0.0, 0.0)
  }

  /**
   * `calculateLine`: clamps the amount, works out the flags from the base
   * flags and the overrides, and takes the components of the dispatch. The
   * breakdown decomposes exactly, with no negative part.
   */
  function CalculateLine(item: LineItemInput, province: Province): (r: LineBreakdown)
    ensures r.totalTax == r.federalTax + r.provincialTax + r.hstTax && r.grandTotal == r.amount + r.totalTax
    ensures r.federalTax >= 0.0 && r.provincialTax >= 0.0 && r.hstTax >= 0.0
    ensures r.amount == ClampAmount(item.amount)
    ensures var c := TaxComponents(r.amount, province, LineFlags(item, province));
            r.federalTax == c.federalTax && r.provincialTax == c.provincialTax && r.hstTax == c.hstTax
  {
    var amount := ClampAmount(item.amount);
    var flags := LineFlags(item, province);
    var c := TaxComponents(amount, province, flags);
    var totalTax := c.federalTax + c.provincialTax + c.hstTax;
    LineBreakdown(amount, c.federalTax, c.provincialTax, c.hstTax, totalTax, amount + totalTax)
  }

  /** The components of the dispatch sum to the amount times the effective rate of the flags. */
  lemma ComponentsSumToEffectiveRate(amount: real, province: Province, flags: Flags)
    requires amount >= 0.0
    ensures var c := TaxComponents(amount, province, flags);
            c.federalTax + c.provincialTax + c.hstTax == amount * EffectiveRate(province, flags)
  {
    var rates := TaxRates(province);
    if rates.kind != HST {
      var g := if flags.federal then rates.gst else 0.0;
      var q := if flags.provincial then ProvincialRate(province) else 0.0;
      assert amount * (g + q) == amount * g + amount * q;
    }
  }

  /** The tax of a line is its clamped amount times the effective rate of the line's flags. */
  lemma LineTaxIsEffectiveRate(item: LineItemInput, province: Province)
    ensures CalculateLine(item, province).totalTax == ClampAmount(item.amount) * EffectiveRate(province, LineFlags(item, province))
  {
    LineTaxIsComponentSum(item, province);
    ComponentsSumToEffectiveRate(ClampAmount(item.amount), province, LineFlags(item, province));
  }

  /** The breakdown's tax is the sum of the dispatch's components for the line's amount and flags. */
  lemma LineTaxIsComponentSum(item: LineItemInput, province: Province)
    ensures var c := TaxComponents(ClampAmount(item.amount), province, LineFlags(item, province));
            CalculateLine(item, province).totalTax == c.federalTax + c.provincialTax + c.hstTax
  {
  }

  /** A negative amount is treated as zero and yields the all-zero breakdown. */
  lemma NegativeAmountIsZero(item: LineItemInput, province: Province)
    requires item.amount <= 0.0
    ensures CalculateLine(item, province) == ZeroBreakdown
  {
    var r := CalculateLine(item, province);
    assert r.amount == 0.0;
  }

  /**
   * The effective rate of the full flags is the province's combined rate,
   * no flags give no tax, and setting more flags never lowers the rate (the
   * provincial part of HST and GST are each below the harmonized rate).
   */
  lemma EffectiveRateBounds(province: Province, f: Flags, g: Flags)
    requires (f.federal ==> g.federal) && (f.provincial ==> g.provincial)
    ensures EffectiveRate(province, Flags(true, true)) == CombinedRate(province)
    ensures EffectiveRate(province, Flags(false, false)) == 0.0
    ensures 0.0 <= EffectiveRate(province, f) <= EffectiveRate(province, g) <= CombinedRate(province)
  {
    TaxRatesWellFormed(province);
  }

  /**
   * A Standard item is taxed at the province's combined rate: 5% GST only in
   * AB, NT, NU and YT, GST plus PST or QST, or the harmonized rate.
   */
  lemma StandardLineUsesCombinedRate(item: LineItemInput, province: Province)
    requires item.category == Standard
    ensures CalculateLine(item, province).totalTax == ClampAmount(item.amount) * CombinedRate(province)
  {
    StandardFlags(item, province);
    LineTaxIsComponentSum(item, province);
    FullFlagsComponents(ClampAmount(item.amount), province);
  }

  /** With both flags set, the components sum to the amount times the combined rate. */
  lemma FullFlagsComponents(amount: real, province: Province)
    ensures amount >= 0.0 ==>
              var c := TaxComponents(amount, province, Flags(true, true));
              c.federalTax + c.provincialTax + c.hstTax == amount * CombinedRate(province)
  {
    if amount >= 0.0 && TaxRates(province).kind != HST {
      var rates := TaxRates(province);
      assert amount * (rates.gst + ProvincialRate(province)) == amount * rates.gst + amount * ProvincialRate(province);
    }
  }

  /** No override touches a Standard item. */
  lemma StandardFlags(item: LineItemInput, province: Province)
    ensures item.category == Standard ==> LineFlags(item, province) == Flags(true, true)
  {
    OverridesFollowTable(ClampAmount(item.amount), province, Standard, BaseFlags(Standard));
  }

  /** A Standard item of 100 in Alberta pays 5 GST only. */
  lemma AlbertaStandardExample()
    ensures CalculateLine(LineItemInput(100.0, Standard), AB) == LineBreakdown(100.0, 5.0, 0.0, 0.0, 5.0, 105.0)
  {
    assert LineFlags(LineItemInput(100.0, Standard), AB) == Flags(true, true);
    assert TaxComponents(100.0, AB, Flags(true, true)) == Components(5.0, 0.0, 0.0);
  }

  /** A Standard item of 100 in Ontario pays 13 HST. */
  lemma OntarioStandardExample()
    ensures CalculateLine(LineItemInput(100.0, Standard), ON) == LineBreakdown(100.0, 0.0, 0.0, 13.0, 13.0, 113.0)
  {
    assert LineFlags(LineItemInput(100.0, Standard), ON) == Flags(true, true);
    assert TaxComponents(100.0, ON, Flags(true, true)) == Components(0.0, 0.0, 13.0);
  }

  /** A Standard item of 100 in British Columbia pays 5 GST and 7 PST. */
  lemma BritishColumbiaStandardExample()
    ensures CalculateLine(LineItemInput(100.0, Standard), BC) == LineBreakdown(100.0, 5.0, 7.0, 0.0, 12.0, 112.0)
  {
    assert LineFlags(LineItemInput(100.0, Standard), BC) == Flags(true, true);
    assert TaxComponents(100.0, BC, Flags(true, true)) == Components(5.0, 7.0, 0.0);
  }

  /** A Standard item of 100 in Quebec pays 5 GST and 9.975 QST. */
  lemma QuebecStandardExample()
    ensures CalculateLine(LineItemInput(100.0, Standard), QC) == LineBreakdown(100.0, 5.0, 9.975, 0.0, 14.975, 114.975)
  {
    assert LineFlags(LineItemInput(100.0, Standard), QC) == Flags(true, true);
    assert TaxComponents(100.0, QC, Flags(true, true)) == Components(5.0, 9.975, 0.0);
  }

  /** An Exempt item of 100 in Ontario pays nothing. */
  lemma ExemptExample()
    ensures CalculateLine(LineItemInput(100.0, Exempt), ON) == LineBreakdown(100.0, 0.0, 0.0, 0.0, 0.0, 100.0)
  {
    assert LineFlags(LineItemInput(100.0, Exempt), ON) == Flags(false, false);
    assert TaxComponents(100.0, ON, Flags(false, false)) == Components(0.0, 0.0, 0.0);
  }

  /** Zero-rated groceries of 100 in British Columbia pay nothing. */
  lemma GroceriesExample()
    ensures CalculateLine(LineItemInput(100.0, ZeroRatedGroceries), BC) == LineBreakdown(100.0, 0.0, 0.0, 0.0, 0.0, 100.0)
  {
    assert LineFlags(LineItemInput(100.0, ZeroRatedGroceries), BC) == Flags(false, false);
    assert TaxComponents(100.0, BC, Flags(false, false)) == Components(0.0, 0.0, 0.0);
  }

  /** Children's clothing of 100 in Ontario gets the point-of-sale rebate: GST only. */
  lemma ChildrensClothingExample()
    ensures CalculateLine(LineItemInput(100.0, ChildrensClothing), ON) == LineBreakdown(100.0, 5.0, 0.0, 0.0, 5.0, 105.0)
  {
    assert LineFlags(LineItemInput(100.0, ChildrensClothing), ON) == Flags(true, false);
    assert TaxComponents(100.0, ON, Flags(true, false)) == Components(5.0, 0.0, 0.0);
  }

  /** A meal of 3.50 in Ontario (at most $4) pays GST only. */
  lemma SmallMealExample()
    ensures CalculateLine(LineItemInput(3.5, PreparedFood), ON) == LineBreakdown(3.5, 0.175, 0.0, 0.0, 0.175, 3.675)
  {
    assert LineFlags(LineItemInput(3.5, PreparedFood), ON) == Flags(true, false);
    assert TaxComponents(3.5, ON, Flags(true, false)) == Components(0.175, 0.0, 0.0);
  }

  // ---------------------------------------------------------------------------
  // Aggregation

  datatype Totals = Totals(subTotal: real, federal: real, provincial: real, hst: real, tax: real, grandTotal: real)

  const ZeroTotals := Totals(0.0, 0.0, 0.0, 0.0, 0.0, 0.0)

  /** The reducer of `aggregate`: adds one line, field by field, to the running totals. */
  function Accumulate(acc: Totals, line: LineBreakdown): Totals
  {
    Totals(acc.subTotal + line.amount, acc.federal + line.federalTax, acc.provincial + line.provincialTax,
           acc.hst + line.hstTax, acc.tax + line.totalTax, acc.grandTotal + line.grandTotal)
  }

  /** Field-by-field sum of two totals. */
  function Plus(a: Totals, b: Totals): Totals
  {
    Totals(a.subTotal + b.subTotal, a.federal + b.federal, a.provincial + b.provincial,
           a.hst + b.hst, a.tax + b.tax, a.grandTotal + b.grandTotal)
  }

  /**
   * `aggregate`: the left fold of the reducer over the lines, starting from
   * all zeros (written on the last line, as a left fold unrolls).
   */
  function Aggregate(lines: seq<LineBreakdown>): Totals
  {
    if lines == [] then ZeroTotals
    else Accumulate(Aggregate(lines[..|lines| - 1]), lines[|lines| - 1])
  }

  /** The totals keep the decomposition of the lines, with no negative part. */
  predicate TotalsConsistent(t: Totals)
  {
    && t.tax == t.federal + t.provincial + t.hst
    && t.grandTotal == t.subTotal + t.tax
    && t.subTotal >= 0.0 && t.federal >= 0.0 && t.provincial >= 0.0 && t.hst >= 0.0
  }

  /** Aggregating a concatenation sums the aggregates of the parts. */
  lemma {:induction false} AggregateConcat(a: seq<LineBreakdown>, b: seq<LineBreakdown>)
    ensures Aggregate(a + b) == Plus(Aggregate(a), Aggregate(b))
  {
    if b == [] {
      assert a + b == a;
    } else {
      var b' := b[..|b| - 1];
      assert (a + b)[..|a + b| - 1] == a + b';
      AggregateConcat(a, b');
    }
  }

  /** The order of the lines does not matter: swapping two blocks leaves the totals alone. */
  lemma AggregateSwap(a: seq<LineBreakdown>, b: seq<LineBreakdown>)
    ensures Aggregate(a + b) == Aggregate(b + a)
  {
    AggregateConcat(a, b);
    AggregateConcat(b, a);
  }

  /** Consistent lines aggregate to consistent totals. */
  lemma {:induction false} AggregateConsistent(lines: seq<LineBreakdown>)
    requires forall i :: 0 <= i < |lines| ==> Consistent(lines[i])
    ensures TotalsConsistent(Aggregate(lines))
  {
    if lines != [] {
      AggregateConsistent(lines[..|lines| - 1]);
      assert Consistent(lines[|lines| - 1]);
    }
  }

  /** The outcome of `calculateTotals`: the per-line breakdowns and their totals. */
  datatype Calculation = Calculation(lines: seq<LineBreakdown>, totals: Totals)

  /**
   * `calculateTotals`: evaluates every item in the province, in order, and
   * aggregates the lines; the totals decompose like each line does.
   */
  function CalculateTotals(items: seq<LineItemInput>, province: Province): (r: Calculation)
    ensures |r.lines| == |items|
    ensures forall i :: 0 <= i < |items| ==> r.lines[i] == CalculateLine(items[i], province)
    ensures r.totals == Aggregate(r.lines)
    ensures TotalsConsistent(r.totals)
  {
    var lines := seq(|items|, i requires 0 <= i < |items| => CalculateLine(items[i], province));
    assert forall i :: 0 <= i < |lines| ==> Consistent(lines[i]);
    AggregateConsistent(lines);
    Calculation(lines, Aggregate(lines))
  }

  /** Three lines aggregate as the reducer applied to them in order. */
  lemma AggregateThree(l1: LineBreakdown, l2: LineBreakdown, l3: LineBreakdown)
    ensures Aggregate([l1, l2, l3]) == Accumulate(Accumulate(Accumulate(ZeroTotals, l1), l2), l3)
  {
    assert [l1][..0] == [];
    assert Aggregate([l1]) == Accumulate(ZeroTotals, l1);
    assert [l1, l2][..1] == [l1];
    assert Aggregate([l1, l2]) == Accumulate(Aggregate([l1]), l2);
    assert [l1, l2, l3][..2] == [l1, l2];
  }

  /** Lines of 100, 50 and 25 (taxed 12, 6 and 0) total 175 with 18 of tax; no lines total zero. */
  lemma AggregateExample()
    ensures Aggregate([LineBreakdown(100.0, 5.0, 7.0, 0.0, 12.0, 112.0),
                       LineBreakdown(50.0, 2.5, 3.5, 0.0, 6.0, 56.0),
                       LineBreakdown(25.0, 0.0, 0.0, 0.0, 0.0, 25.0)])
            == Totals(175.0, 7.5, 10.5, 0.0, 18.0, 193.0)
    ensures Aggregate([]) == ZeroTotals
  {
    AggregateThree(LineBreakdown(100.0, 5.0, 7.0, 0.0, 12.0, 112.0),
                   LineBreakdown(50.0, 2.5, 3.5, 0.0, 6.0, 56.0),
                   LineBreakdown(25.0, 0.0, 0.0, 0.0, 0.0, 25.0));
  }

  /**
   * A mixed cart in British Columbia: 100 Standard (5 GST, 7 PST), 50 of
   * groceries (nothing) and 25 of children's clothing (GST only, 1.25).
   */
  lemma MixedCartExample()
    ensures var r := CalculateTotals(MixedCart(), BC);
            |r.lines| == 3 && r.totals.subTotal == 175.0 && r.totals.tax == 13.25 && r.totals.grandTotal == 188.25
  {
    MixedCartLines();
    AggregateThree(LineBreakdown(100.0, 5.0, 7.0, 0.0, 12.0, 112.0), LineBreakdown(50.0, 0.0, 0.0, 0.0, 0.0, 50.0),
                   LineBreakdown(25.0, 1.25, 0.0, 0.0, 1.25, 26.25));
    MixedCartSums();
  }

  /** The cart of the example: 100 Standard, 50 of groceries, 25 of children's clothing. */
  function MixedCart(): seq<LineItemInput> {
    [LineItemInput(100.0, Standard), LineItemInput(50.0, ZeroRatedGroceries), LineItemInput(25.0, ChildrensClothing)]
  }

  /** The running sums of the mixed cart's three lines. */
  lemma MixedCartSums()
    ensures var t := Accumulate(Accumulate(Accumulate(ZeroTotals, LineBreakdown(100.0, 5.0, 7.0, 0.0, 12.0, 112.0)),
                                           LineBreakdown(50.0, 0.0, 0.0, 0.0, 0.0, 50.0)),
                                LineBreakdown(25.0, 1.25, 0.0, 0.0, 1.25, 26.25));
            t.subTotal == 175.0 && t.tax == 13.25 && t.grandTotal == 188.25
  {
  }

  /** The three lines of the mixed cart, each worked out on its own. */
  lemma MixedCartLines()
    ensures CalculateTotals(MixedCart(), BC).lines == [LineBreakdown(100.0, 5.0, 7.0, 0.0, 12.0, 112.0),
                                                       LineBreakdown(50.0, 0.0, 0.0, 0.0, 0.0, 50.0),
                                                       LineBreakdown(25.0, 1.25, 0.0, 0.0, 1.25, 26.25)]
  {
    BritishColumbiaStandardExample();
    MixedCartGroceries();
    MixedCartClothing();
  }

  lemma MixedCartGroceries()
    ensures CalculateLine(LineItemInput(50.0, ZeroRatedGroceries), BC) == LineBreakdown(50.0, 0.0, 0.0, 0.0, 0.0, 50.0)
  {
    assert LineFlags(LineItemInput(50.0, ZeroRatedGroceries), BC) == Flags(false, false);
    assert TaxComponents(50.0, BC, Flags(false, false)) == Components(0.0, 0.0, 0.0);
  }

  lemma MixedCartClothing()
    ensures CalculateLine(LineItemInput(25.0, ChildrensClothing), BC) == LineBreakdown(25.0, 1.25, 0.0, 0.0, 1.25, 26.25)
  {
    assert LineFlags(LineItemInput(25.0, ChildrensClothing), BC) == Flags(true, false);
    assert TaxComponents(25.0, BC, Flags(true, false)) == Components(1.25, 0.0, 0.0);
  }

  // ---------------------------------------------------------------------------
  // Category validation

  /**
   * `validateCategory`: a string that is the name of a category is that
   * category; any other string falls back to Standard.
   */
  function ValidateCategory(value: string): (c: Category)
    ensures (exists k :: Name(k) == value) ==> Name(c) == value
    ensures (forall k :: Name(k) != value) ==> c == Standard
  {
    CategoryOptionsComplete();
    match LookupName(CategoryOptions(), value)
    case Some(k) => k
    case None => Standard
  }

  /** Validation inverts naming: the name of a category validates to that category. */
  lemma ValidateCategoryOfName(c: Category)
    ensures ValidateCategory(Name(c)) == c
  {
    NameInjective(ValidateCategory(Name(c)), c);
  }

  /** Validation is idempotent on the wire form: re-validating the name of a result changes nothing. */
  lemma ValidateCategoryIdempotent(value: string)
    ensures ValidateCategory(Name(ValidateCategory(value))) == ValidateCategory(value)
  {
    ValidateCategoryOfName(ValidateCategory(value));
  }

  /** The lower-case "standard" is not a category name, so it falls back to Standard. */
  lemma LowerCaseStandardFallsBack()
    ensures ValidateCategory("standard") == Standard
  {
    forall k ensures Name(k) != "standard" {
      NameSignature(k);
      assert Name(Standard)[0] != "standard"[0];
    }
  }
}
