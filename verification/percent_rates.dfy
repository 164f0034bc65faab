/**
 * The percentage rate table of the line-item calculator hook
 * (src/components/TaxSmartCalculator/data/rates.ts): `RATES`, whose entries
 * carry only the fields of their kind, in percent, and `PROVINCE_LABELS`.
 * Its province codes are the 13 of the engine's `Province`.
 */
module PercentRates {
  import opened Wrappers
  import opened TaxData

  /** `RateShape`: an HST entry has no `gst` field; the others carry GST and their provincial part. */
  datatype RateShape =
    | Gst(gst: real)
    | GstPst(gst: real, pst: real)
    | Hst(hst: real)
    | GstQst(gst: real, qst: real)

  /** `RATES[p]`, in percent. */
  function Rate(p: Province): RateShape
  {
    match p
    case AB => Gst(5.0)
    case BC => GstPst(5.0, 7.0)
    case MB => GstPst(5.0, 7.0)
    case NB => Hst(15.0)
    case NL => Hst(15.0)
    case NS => Hst(15.0)
    case NT => Gst(5.0)
    case NU => Gst(5.0)
    case ON => Hst(13.0)
    case PE => Hst(15.0)
    case QC => GstQst(5.0, 9.975)
    case SK => GstPst(5.0, 6.0)
    case YT => Gst(5.0)
  }

  /** `PROVINCE_LABELS[p]`: the province's name. */
  function Label(p: Province): (r: string)
    ensures |r| > 0
  {
    match p
    case AB => "Alberta"
    case BC => "British Columbia"
    case MB => "Manitoba"
    case NB => "New Brunswick"
    case NL => "Newfoundland and Labrador"
    case NS => "Nova Scotia"
    case NT => "Northwest Territories"
    case NU => "Nunavut"
    case ON => "Ontario"
    case PE => "Prince Edward Island"
    case QC => "Qu\U{e9}bec"
    case SK => "Saskatchewan"
    case YT => "Yukon"
  }

  /** The combined percentage of an entry, as `reverseTax` works it out. */
  function Percent(r: RateShape): real
  {
    match r
    case Hst(hst) => hst
    case Gst(gst) => gst
    case GstPst(gst, pst) => gst + pst
    case GstQst(gst, qst) => gst + qst
  }

  /**
   * The percentage table is the engine's decimal table times 100: the same
   * kind for every province ('GST' being GST_ONLY), and every percentage
   * 100 times the matching rate.
   */
  lemma RatesAgreeWithEngine(p: Province)
    ensures Rate(p).Gst? <==> TaxRates(p).kind == GST_ONLY
    ensures Rate(p).GstPst? <==> TaxRates(p).kind == GST_PST
    ensures Rate(p).Hst? <==> TaxRates(p).kind == HST
    ensures Rate(p).GstQst? <==> TaxRates(p).kind == GST_QST
    ensures !Rate(p).Hst? ==> Rate(p).gst == 100.0 * TaxRates(p).gst
    ensures Rate(p).GstPst? ==> Rate(p).pst == 100.0 * OrZero(TaxRates(p).pst)
    ensures Rate(p).GstQst? ==> Rate(p).qst == 100.0 * OrZero(TaxRates(p).qst)
    ensures Rate(p).Hst? ==> Rate(p).hst == 100.0 * OrZero(TaxRates(p).hst)
  {
  }

  /** GST is 5 percent in every entry that carries it; the 'GST' kind is exactly AB, NT, NU and YT. */
  lemma GstIsFivePercent(p: Province)
    ensures !Rate(p).Hst? ==> Rate(p).gst == 5.0
    ensures Rate(p).Gst? <==> (p == AB || p == NT || p == NU || p == YT)
  {
    RatesAgreeWithEngine(p);
    TaxRatesWellFormed(p);
    GstOnlyProvinces(p);
  }

  /** The combined percentage is 100 times the engine's combined rate. */
  lemma PercentIsCombinedRate(p: Province)
    ensures Percent(Rate(p)) == 100.0 * CombinedRate(p)
  {
    RatesAgreeWithEngine(p);
  }
}
