/**
 * An older stand-alone calculator (src/lib/taxMath.ts) with its own rate
 * table: a single combined rate per province, rounding to the cent, and the
 * reverse calculation from a tax-inclusive total.
 */
module TaxMath {
  import opened Wrappers
  import opened TaxData
  import opened Rounding

  /** An entry of this module's `TAX_RATES`: GST, an optional PST or HST, and the province's name. */
  datatype MathRate = MathRate(gst: real, pst: Option<real>, hst: Option<real>, name: string)

  /** `TAX_RATES[p]`; Quebec's QST is stored as its `pst`. */
  function MathRates(p: Province): MathRate
  {
    match p
    case AB => MathRate(0.05, None, None, "Alberta")
    case BC => MathRate(0.05, Some(0.07), None, "British Columbia")
    case MB => MathRate(0.05, Some(0.07), None, "Manitoba")
    case NB => MathRate(0.05, None, Some(0.15), "New Brunswick")
    case NL => MathRate(0.05, None, Some(0.15), "Newfoundland and Labrador")
    case NT => MathRate(0.05, None, None, "Northwest Territories")
    case NS => MathRate(0.05, None, Some(0.15), "Nova Scotia")
    case NU => MathRate(0.05, None, None, "Nunavut")
    case ON => MathRate(0.05, None, Some(0.13), "Ontario")
    case PE => MathRate(0.05, None, Some(0.15), "Prince Edward Island")
    case QC => MathRate(0.05, Some(0.09975), None, "Quebec")
    case SK => MathRate(0.05, Some(0.06), None, "Saskatchewan")
    case YT => MathRate(0.05, None, None, "Yukon")
  }

  /** `rate.pst || 0` (and `rate.pst ? … : 0`): an absent or zero PST counts as none. */
  function PstOrZero(r: MathRate): real
  {
    if r.pst.Some? && r.pst.value != 0.0 then r.pst.value else 0.0
  }

  /** The rate information of `getTaxRateInfo`: the entry and its combined rate. */
  datatype RateInfo = RateInfo(gst: real, pst: Option<real>, hst: Option<real>, name: string, totalRate: real)

  /** `getTaxRateInfo`: the HST when there is one, otherwise GST plus PST. */
  function GetTaxRateInfo(p: Province): (info: RateInfo)
    ensures info.gst == MathRates(p).gst && info.pst == MathRates(p).pst && info.hst == MathRates(p).hst
    ensures info.name == MathRates(p).name
  {
    var rate := MathRates(p);
    var totalRate := if rate.hst.Some? then rate.hst.value else rate.gst + PstOrZero(rate);
    RateInfo(rate.gst, rate.pst, rate.hst, rate.name, totalRate)
  }

  /** This table's combined rate is the engine's, for every province (QC's `pst` is the engine's QST). */
  lemma TotalRateIsCombinedRate(p: Province)
    ensures GetTaxRateInfo(p).totalRate == CombinedRate(p)
  {
  }

  /**
   * `calculateTax`: nothing for a negative amount; otherwise the amount
   * times the combined rate, rounded to the cent (the GST and PST products
   * are added before rounding).
   */
  function CalculateTax(amount: real, p: Province): (r: real)
    ensures amount < 0.0 ==> r == 0.0
    ensures amount >= 0.0 ==> Near(amount * GetTaxRateInfo(p).totalRate, r, 0.005) && r >= 0.0
    ensures amount >= 0.0 ==> r == RoundToCents(amount * GetTaxRateInfo(p).totalRate)
  {
    if amount < 0.0 then 0.0
    else
      var rate := MathRates(p);
      if rate.hst.Some? then RoundToCents(amount * rate.hst.value)
      else
        var gstAmount := amount * rate.gst;
        var pstAmount := if rate.pst.Some? && rate.pst.value != 0.0 then amount * rate.pst.value else 0.0;
        assert gstAmount + pstAmount == amount * GetTaxRateInfo(p).totalRate;
        RoundToCents(gstAmount + pstAmount)
  }

  /** `calculateTotal`: nothing for a negative amount; otherwise the amount plus its tax, rounded to the cent. */
  function CalculateTotal(amount: real, p: Province): (r: real)
    ensures amount < 0.0 ==> r == 0.0
    ensures amount >= 0.0 ==> Near(amount + amount * GetTaxRateInfo(p).totalRate, r, 0.01)
    ensures amount >= 0.0 ==> r == RoundToCents(amount + RoundToCents(amount * GetTaxRateInfo(p).totalRate))
  {
    if amount < 0.0 then 0.0
    else
      var tax := CalculateTax(amount, p);
      RoundToCents(amount + tax)
  }

  /** `reverseTax`: nothing for a total of zero or less; otherwise the total divided by one plus the rate, rounded. */
  function ReverseTax(total: real, p: Province): (r: real)
    ensures total <= 0.0 ==> r == 0.0
    ensures total > 0.0 ==> r == RoundToCents(total / (1.0 + GetTaxRateInfo(p).totalRate))
  {
    if total <= 0.0 then 0.0
    else
      var rate := MathRates(p);
      if rate.hst.Some? then RoundToCents(total / (1.0 + rate.hst.value))
      else RoundToCents(total / (1.0 + rate.gst + PstOrZero(rate)))
  }

  /** Reversing a grossed-up positive amount gives the amount back, to the cent. */
  lemma ReverseTaxInverts(x: real, p: Province, rate: real)
    requires x > 0.0
    requires rate == GetTaxRateInfo(p).totalRate
    ensures ReverseTax(x * (1.0 + rate), p) == RoundToCents(x)
  {
    var entry := MathRates(p);
    var d := if entry.hst.Some? then 1.0 + entry.hst.value else 1.0 + entry.gst + PstOrZero(entry);
    assert d == 1.0 + rate && d > 0.0;
    DivideProduct(x, d);
  }

  lemma DivideProduct(x: real, d: real)
    requires x > 0.0 && d > 0.0
    ensures x * d > 0.0 && (x * d) / d == x
  {
  }

  /** The order of `Object.entries(TAX_RATES)`: the table's key order, with NT before NS. */
  function EntryOrder(): seq<Province>
  {
    [AB, BC, MB, NB, NL, NT, NS, NU, ON, PE, QC, SK, YT]
  }

  datatype ProvinceEntry = ProvinceEntry(code: string, name: string)

  /** `getProvinces`: the code and name of every entry, in key order. */
  function GetProvinces(): (r: seq<ProvinceEntry>)
    ensures |r| == |EntryOrder()|
    ensures forall i :: 0 <= i < |r| ==> r[i] == ProvinceEntry(Code(EntryOrder()[i]), MathRates(EntryOrder()[i]).name)
  {
    seq(|EntryOrder()|, i requires 0 <= i < |EntryOrder()| => ProvinceEntry(Code(EntryOrder()[i]), MathRates(EntryOrder()[i]).name))
  }

  /** `getProvinces` has 13 entries, and every province has one, under its code and with its name. */
  lemma GetProvincesCoversAll()
    ensures |GetProvinces()| == 13
    ensures forall p: Province :: ProvinceEntry(Code(p), MathRates(p).name) in GetProvinces()
  {
    forall p: Province ensures ProvinceEntry(Code(p), MathRates(p).name) in GetProvinces() {
      assert GetProvinces()[EntryIndex(p)] == ProvinceEntry(Code(p), MathRates(p).name);
    }
  }

  /** No code appears twice in `getProvinces`. */
  lemma GetProvincesDistinct()
    ensures forall i, j :: 0 <= i < j < |GetProvinces()| ==> GetProvinces()[i].code != GetProvinces()[j].code
  {
    forall i, j | 0 <= i < j < |GetProvinces()| ensures GetProvinces()[i].code != GetProvinces()[j].code {
      EntryIndexOfPosition(i);
      EntryIndexOfPosition(j);
      CodeInjective(EntryOrder()[i], EntryOrder()[j]);
    }
  }

  /** `EntryIndex` inverts indexing into the key order. */
  lemma EntryIndexOfPosition(k: nat)
    requires k < |EntryOrder()|
    ensures EntryIndex(EntryOrder()[k]) == k
  {
    if k < 7 {
      assert k in {0, 1, 2, 3, 4, 5, 6};
    } else {
      assert k in {7, 8, 9, 10, 11, 12};
    }
  }

  /** Where a province stands in the key order. */
  ghost function EntryIndex(p: Province): (i: nat)
    ensures i < |EntryOrder()| && EntryOrder()[i] == p
  {
    match p
    case AB => 0 case BC => 1 case MB => 2 case NB => 3 case NL => 4 case NT => 5 case NS => 6
    case NU => 7 case ON => 8 case PE => 9 case QC => 10 case SK => 11 case YT => 12
  }

  /** Ontario: 100 pays 13 and 50 pays 6.50; Alberta: 100 pays 5 and 50 pays 2.50; totals 113, 56.50, 105, 52.50. */
  lemma TaxExamples()
    ensures CalculateTax(100.0, ON) == 13.0 && CalculateTax(50.0, ON) == 6.5 && CalculateTax(0.0, ON) == 0.0
    ensures CalculateTax(100.0, AB) == 5.0 && CalculateTax(50.0, AB) == 2.5 && CalculateTax(0.0, AB) == 0.0
    ensures CalculateTotal(100.0, ON) == 113.0 && CalculateTotal(50.0, ON) == 56.5
    ensures CalculateTotal(100.0, AB) == 105.0 && CalculateTotal(50.0, AB) == 52.5
    ensures ReverseTax(0.0, ON) == 0.0 && ReverseTax(113.0, ON) == 100.0 && ReverseTax(105.0, AB) == 100.0
  {
  }

  /** One cent in Ontario: its 0.13 cents of tax round away to nothing, and the total stays one cent. */
  lemma OneCentExample()
    ensures CalculateTax(0.01, ON) == 0.0
    ensures CalculateTotal(0.01, ON) == 0.01
  {
  }
}
