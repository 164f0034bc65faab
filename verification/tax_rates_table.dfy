/**
 * An older stand-alone calculator (src/lib/tax.ts) keyed by the province's
 * two-letter code: one combined rate per province, a tax and a reverse-tax
 * calculation with optional rounding, and a per-component breakdown.
 */
module TaxRatesTable {
  import opened Wrappers
  import opened TaxData
  import opened Rounding

  /** An entry of this module's `TAX_RATES`. */
  datatype TaxInfo = TaxInfo(rate: real, name: string, description: string)

  /** `TAX_RATES[p]`. */
  function Info(p: Province): TaxInfo
  {
    match p
    case AB => TaxInfo(0.05, "GST", "Goods and Services Tax")
    case BC => TaxInfo(0.12, "GST + PST", "Goods and Services Tax + Provincial Sales Tax")
    case MB => TaxInfo(0.12, "GST + PST", "Goods and Services Tax + Provincial Sales Tax")
    case NB => TaxInfo(0.15, "HST", "Harmonized Sales Tax")
    case NL => TaxInfo(0.15, "HST", "Harmonized Sales Tax")
    case NS => TaxInfo(0.15, "HST", "Harmonized Sales Tax")
    case NT => TaxInfo(0.05, "GST", "Goods and Services Tax")
    case NU => TaxInfo(0.05, "GST", "Goods and Services Tax")
    case ON => TaxInfo(0.13, "HST", "Harmonized Sales Tax")
    case PE => TaxInfo(0.15, "HST", "Harmonized Sales Tax")
    case QC => TaxInfo(0.14975, "GST + QST", "Goods and Services Tax + Quebec Sales Tax")
    case SK => TaxInfo(0.11, "GST + PST", "Goods and Services Tax + Provincial Sales Tax")
    case YT => TaxInfo(0.05, "GST", "Goods and Services Tax")
  }

  /** `TAX_RATES[code]`: the province whose code is `code`, or nothing for any other string. */
  function Lookup(code: string): (r: Option<Province>)
    ensures r.Some? ==> Code(r.value) == code
    ensures r.None? ==> forall p: Province :: Code(p) != code
  {
    if |code| != 2 then None else ByLetters(code[0], code[1])
  }

  /** The province whose two-letter code is `a` then `b`. */
  function ByLetters(a: char, b: char): (r: Option<Province>)
    ensures r.Some? ==> Code(r.value) == [a, b]
    ensures r.None? ==> forall p: Province :: Code(p) != [a, b]
  {
    if a == 'A' && b == 'B' then Some(AB)
    else if a == 'B' && b == 'C' then Some(BC)
    else if a == 'M' && b == 'B' then Some(MB)
    else if a == 'N' && b == 'B' then Some(NB)
    else if a == 'N' && b == 'L' then Some(NL)
    else if a == 'N' && b == 'S' then Some(NS)
    else if a == 'N' && b == 'T' then Some(NT)
    else if a == 'N' && b == 'U' then Some(NU)
    else if a == 'O' && b == 'N' then Some(ON)
    else if a == 'P' && b == 'E' then Some(PE)
    else if a == 'Q' && b == 'C' then Some(QC)
    else if a == 'S' && b == 'K' then Some(SK)
    else if a == 'Y' && b == 'T' then Some(YT)
    else None
  }

  /** Looking up a province's own code finds that province. */
  lemma LookupOfCode(p: Province)
    ensures Lookup(Code(p)) == Some(p)
  {
    CodeInjective(Lookup(Code(p)).value, p);
  }

  /** `getTaxRate`: the entry's rate, or 0 for a code with no entry (`?.rate || 0`). */
  function GetTaxRate(code: string): (r: real)
    ensures Lookup(code).None? ==> r == 0.0
    ensures r >= 0.0
  {
    match Lookup(code)
    case Some(p) => Info(p).rate
    case None => 0.0
  }

  /** The table's rate for every province is the engine's combined rate: for example BC's 0.12 is 0.05 + 0.07 and QC's 0.14975 is 0.05 + 0.09975. */
  lemma GetTaxRateIsCombinedRate(p: Province)
    ensures GetTaxRate(Code(p)) == CombinedRate(p)
  {
    LookupOfCode(p);
  }

  /** `calculateTax`: nothing for an amount of zero or less; otherwise the amount times the rate, rounded to the cent on request. */
  function CalculateTax(amount: real, code: string, round: bool): (r: real)
    ensures amount <= 0.0 || Lookup(code).None? ==> r == 0.0
    ensures amount > 0.0 && !round ==> r == amount * GetTaxRate(code)
    ensures amount > 0.0 && round ==> r == RoundToCents(amount * GetTaxRate(code))
  {
    TaxAtRate(amount, GetTaxRate(code), round)
  }

  /** The body of `calculateTax` once the rate is looked up. */
  function TaxAtRate(amount: real, rate: real, round: bool): (r: real)
    ensures amount <= 0.0 ==> r == 0.0
    ensures amount > 0.0 && !round ==> r == amount * rate
    ensures amount > 0.0 && round ==> Near(amount * rate, r, 0.005)
    ensures amount > 0.0 && round ==> r == RoundToCents(amount * rate)
  {
    if amount <= 0.0 then 0.0
    else
      var tax := amount * rate;
      if round then RoundToCents(tax) else tax
  }

  /** `reverseCalculateTax`: nothing for a total of zero or less; otherwise the total over one plus the rate, rounded on request. */
  function ReverseCalculateTax(total: real, code: string, round: bool): (r: real)
    ensures total <= 0.0 ==> r == 0.0
    ensures total > 0.0 && !round ==> r == total / (1.0 + GetTaxRate(code))
    ensures total > 0.0 && round ==> r == RoundToCents(total / (1.0 + GetTaxRate(code)))
  {
    ReverseAtRate(total, GetTaxRate(code), round)
  }

  /** The body of `reverseCalculateTax` once the rate is looked up. */
  function ReverseAtRate(total: real, rate: real, round: bool): (r: real)
    requires rate >= 0.0
    ensures total <= 0.0 ==> r == 0.0
    ensures total > 0.0 && !round ==> r * (1.0 + rate) == total
    ensures total > 0.0 && round ==> r == RoundToCents(total / (1.0 + rate))
  {
    if total <= 0.0 then 0.0
    else
      var amount := total / (1.0 + rate);
      if round then RoundToCents(amount) else amount
  }

  /** At any rate of zero or more, reversing the tax-inclusive total of a positive amount gives the amount back. */
  lemma ReverseAtRateUndoesTax(x: real, rate: real)
    requires x > 0.0 && rate >= 0.0
    ensures ReverseAtRate(x + TaxAtRate(x, rate, false), rate, false) == x
  {
    assert x + x * rate == x * (1.0 + rate);
    DivideProduct(x, 1.0 + rate);
  }

  /**
   * For every code, reversing the unrounded tax-inclusive total of a positive
   * amount gives the amount back exactly, and rounded, gives it to the cent.
   */
  lemma ReverseUndoesTax(x: real, code: string)
    requires x > 0.0
    ensures ReverseCalculateTax(x + CalculateTax(x, code, false), code, false) == x
    ensures ReverseCalculateTax(x + CalculateTax(x, code, false), code, true) == RoundToCents(x)
  {
    ReverseAtRateUndoesTax(x, GetTaxRate(code));
  }

  lemma DivideProduct(x: real, d: real)
    requires x > 0.0 && d > 0.0
    ensures x * d > 0.0 && (x * d) / d == x
  {
  }

  /** One line of `getTaxBreakdown`. */
  datatype Component = Component(name: string, rate: real)

  /**
   * The body of `getTaxBreakdown`, with Quebec's QST rate as a parameter:
   * nothing for an unknown code; Quebec as GST and QST; an HST province as
   * GST and the rest of the HST; a GST + PST province as GST and the rest
   * of the rate; any other as GST alone at the full rate.
   */
  function BreakdownWithQst(code: string, qst: real): (r: seq<Component>)
    ensures Lookup(code).None? ==> r == []
    ensures Lookup(code).Some? ==> |r| > 0 && r[0].name == "GST"
  {
    match Lookup(code)
    case None => []
    case Some(p) =>
      var info := Info(p);
      if code == "QC" then [Component("GST", 0.05), Component("QST", qst)]
      else if info.name == "HST" then [Component("GST", 0.05), Component("HST", info.rate - 0.05)]
      else if info.name == "GST + PST" then [Component("GST", 0.05), Component("PST", info.rate - 0.05)]
      else [Component("GST", info.rate)]
  }

  /** `getTaxBreakdown` as written: Quebec's QST is listed at 0.0975. */
  function GetTaxBreakdownAsWritten(code: string): seq<Component>
  {
    BreakdownWithQst(code, 0.0975)
  }

  /** `getTaxBreakdown` with Quebec's QST at the 0.09975 the rate table charges. */
  function GetTaxBreakdown(code: string): seq<Component>
  {
    BreakdownWithQst(code, 0.09975)
  }

  /** The sum of the component rates of a breakdown. */
  function SumRates(cs: seq<Component>): real
  {
    if cs == [] then 0.0 else cs[0].rate + SumRates(cs[1..])
  }

  lemma SumRatesPair(c1: Component, c2: Component)
    ensures SumRates([c1, c2]) == c1.rate + c2.rate
  {
    assert [c1, c2][1..] == [c2];
    assert [c2][1..] == [];
    assert SumRates([c2]) == c2.rate;
  }

  /**
   * The breakdown adds up to the rate charged: two components for HST,
   * GST + PST and GST + QST provinces, and GST alone, at the full rate, for
   * the others.
   */
  lemma BreakdownSumsToRate(p: Province)
    ensures SumRates(GetTaxBreakdown(Code(p))) == GetTaxRate(Code(p))
    ensures |GetTaxBreakdown(Code(p))| == (if TaxRates(p).kind == GST_ONLY then 1 else 2)
    ensures var b := GetTaxBreakdown(Code(p));
            |b| == 2 ==> b[0] == Component("GST", 0.05) && b[1].name == ProvincialLabel(TaxRates(p).kind)
    ensures var b := GetTaxBreakdown(Code(p));
            |b| == 1 ==> b[0] == Component("GST", GetTaxRate(Code(p)))
  {
    LookupOfCode(p);
    var b := GetTaxBreakdown(Code(p));
    if |b| == 2 {
      SumRatesPair(b[0], b[1]);
      assert b == [b[0], b[1]];
    } else {
      assert b[1..] == [];
    }
  }

  /** As written, Quebec's breakdown adds up to 0.1475, not to the 0.14975 charged. */
  lemma QuebecBreakdownMismatch()
    ensures GetTaxBreakdownAsWritten("QC") == [Component("GST", 0.05), Component("QST", 0.0975)]
    ensures SumRates(GetTaxBreakdownAsWritten("QC")) == 0.1475
    ensures GetTaxRate("QC") == 0.14975
  {
    LookupOfCode(QC);
    assert Code(QC) == "QC";
    SumRatesPair(Component("GST", 0.05), Component("QST", 0.0975));
  }

  /** Outside Quebec the written and the corrected breakdowns are the same. */
  lemma BreakdownAgreesOutsideQuebec(code: string)
    requires code != "QC"
    ensures GetTaxBreakdownAsWritten(code) == GetTaxBreakdown(code)
  {
  }

  /** One entry of `getProvinces`: the code spread with its entry. */
  datatype ProvinceInfo = ProvinceInfo(code: string, rate: real, name: string, description: string)

  /** `getProvinces`: every entry with its code, in the table's key order. */
  function GetProvinces(): (r: seq<ProvinceInfo>)
    ensures |r| == |Provinces()|
    ensures forall i :: 0 <= i < |r| ==> r[i].code == Code(Provinces()[i])
  {
    seq(|Provinces()|, i requires 0 <= i < |Provinces()| =>
      var p := Provinces()[i];
      ProvinceInfo(Code(p), Info(p).rate, Info(p).name, Info(p).description))
  }

  /** `getProvinces` lists 13 distinct codes, and each entry carries its code's rate. */
  lemma GetProvincesMatchesTable()
    ensures |GetProvinces()| == 13
    ensures forall i, j :: 0 <= i < j < |GetProvinces()| ==> GetProvinces()[i].code != GetProvinces()[j].code
    ensures forall i :: 0 <= i < |GetProvinces()| ==> GetProvinces()[i].rate == GetTaxRate(GetProvinces()[i].code)
  {
    ProvincesComplete();
    forall i | 0 <= i < |GetProvinces()| ensures GetProvinces()[i].rate == GetTaxRate(GetProvinces()[i].code) {
      LookupOfCode(Provinces()[i]);
    }
  }

  /** Ontario 100 pays 13 and 50 pays 6.50; Alberta 100 pays 5; Quebec 100 pays 14.98; an unknown code has rate 0. */
  lemma TaxExamples()
    ensures CalculateTax(100.0, "ON", true) == 13.0 && CalculateTax(50.0, "ON", true) == 6.5
    ensures CalculateTax(0.0, "ON", true) == 0.0 && CalculateTax(-100.0, "ON", true) == 0.0
    ensures CalculateTax(100.0, "AB", true) == 5.0 && CalculateTax(50.0, "AB", true) == 2.5
    ensures CalculateTax(100.0, "QC", true) == 14.98
    ensures GetTaxRate("XX") == 0.0
  {
    LookupOfCode(ON);
    LookupOfCode(AB);
    LookupOfCode(QC);
    assert Code(ON) == "ON" && Code(AB) == "AB" && Code(QC) == "QC";
  }
}
