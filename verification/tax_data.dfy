/**
 * The rate table and the category enumeration of the tax engine
 * (src/lib/taxData.ts): constant records and their accessors.
 */
module TaxData {
  import opened Wrappers

  /** The 13 provinces and territories. */
  datatype Province = AB | BC | MB | NB | NL | NS | NT | NU | ON | PE | QC | SK | YT

  /** The two-letter code of a province, as used in the tables and on the wire. */
  function Code(p: Province): (r: string)
    ensures |r| == 2
  {
    match p
    case AB => "AB" case BC => "BC" case MB => "MB" case NB => "NB" case NL => "NL"
    case NS => "NS" case NT => "NT" case NU => "NU" case ON => "ON" case PE => "PE"
    case QC => "QC" case SK => "SK" case YT => "YT"
  }

  /** `PROVINCES`, in declaration order. */
  function Provinces(): seq<Province>
  {
    [AB, BC, MB, NB, NL, NS, NT, NU, ON, PE, QC, SK, YT]
  }

  const DefaultProvince: Province := BC

  /** Two provinces with the same code are the same province. */
  lemma CodeInjective(a: Province, b: Province)
    ensures Code(a) == Code(b) ==> a == b
  {
    if Code(a) == Code(b) {
      assert Code(a)[0] == Code(b)[0] && Code(a)[1] == Code(b)[1];
    }
  }

  /** The four tax structures a province can have. */
  datatype RateKind = HST | GST_PST | GST_QST | GST_ONLY

  /** One rate entry; the optional fields are `undefined` when absent. */
  datatype Rates = Rates(kind: RateKind, gst: real, hst: Option<real>, pst: Option<real>, qst: Option<real>)

  /** `TAX_RATES[p]`. */
  function TaxRates(p: Province): Rates
  {
    match p
    case AB => Rates(GST_ONLY, 0.05, None, None, None)
    case BC => Rates(GST_PST, 0.05, None, Some(0.07), None)
    case MB => Rates(GST_PST, 0.05, None, Some(0.07), None)
    case NB => Rates(HST, 0.05, Some(0.15), None, None)
    case NL => Rates(HST, 0.05, Some(0.15), None, None)
    case NS => Rates(HST, 0.05, Some(0.15), None, None)
    case NT => Rates(GST_ONLY, 0.05, None, None, None)
    case NU => Rates(GST_ONLY, 0.05, None, None, None)
    case ON => Rates(HST, 0.05, Some(0.13), None, None)
    case PE => Rates(HST, 0.05, Some(0.15), None, None)
    case QC => Rates(GST_QST, 0.05, None, None, Some(0.09975))
    case SK => Rates(GST_PST, 0.05, None, Some(0.06), None)
    case YT => Rates(GST_ONLY, 0.05, None, None, None)
  }

  /** An entry populates exactly the optional field its kind names, and none for GST_ONLY. */
  predicate ShapeMatchesKind(r: Rates)
  {
    && (r.hst.Some? <==> r.kind == HST)
    && (r.pst.Some? <==> r.kind == GST_PST)
    && (r.qst.Some? <==> r.kind == GST_QST)
  }

  /** `x ?? 0` */
  function OrZero(x: Option<real>): real
  {
    match x
    case Some(v) => v
    case None => 0.0
  }

  /**
   * The invariants of the rate table: federal GST is 5% everywhere, each
   * entry's shape matches its kind, every rate is positive, and every HST
   * rate exceeds GST (so the provincial part of HST, hst - gst, is positive).
   */
  lemma TaxRatesWellFormed(p: Province)
    ensures TaxRates(p).gst == 0.05
    ensures ShapeMatchesKind(TaxRates(p))
    ensures TaxRates(p).kind == HST ==> OrZero(TaxRates(p).hst) > TaxRates(p).gst
    ensures TaxRates(p).kind == GST_PST ==> OrZero(TaxRates(p).pst) > 0.0
    ensures TaxRates(p).kind == GST_QST ==> OrZero(TaxRates(p).qst) > 0.0
  {
  }

  /** Exactly AB, NT, NU and YT charge GST only. */
  lemma GstOnlyProvinces(p: Province)
    ensures TaxRates(p).kind == GST_ONLY <==> (p == AB || p == NT || p == NU || p == YT)
  {
  }

  /** The 19 purchase categories. */
  datatype Category =
    | Standard | Exempt | ZeroRatedGroceries | PreparedFood | ChildrensClothing
    | ChildrensDiapers | ChildrensCarSeats | FeminineHygiene | PrescriptionDrugs
    | PrintedBooks | Newspapers | PublicTransit | SnackFoods | SweetenedBeverages
    | CannabisMedical | CannabisNonMedical | TobaccoAlcohol | GstOnly | ProvincialOnly

  /** The label of a category, which is its value on the wire. */
  function Name(c: Category): string
  {
    match c
    case Standard => "Standard"
    case Exempt => "Exempt"
    case ZeroRatedGroceries => "Zero-rated (basic groceries)"
    case PreparedFood => "Prepared food / restaurant"
    case ChildrensClothing => "Children's clothing & footwear"
    case ChildrensDiapers => "Children's diapers"
    case ChildrensCarSeats => "Children's car seats & booster seats"
    case FeminineHygiene => "Feminine hygiene products"
    case PrescriptionDrugs => "Prescription drugs / medical"
    case PrintedBooks => "Printed books (qualifying)"
    case Newspapers => "Newspapers (qualifying)"
    case PublicTransit => "Public transit fares"
    case SnackFoods => "Snack foods / candy"
    case SweetenedBeverages => "Sweetened carbonated beverages"
    case CannabisMedical => "Cannabis (medical)"
    case CannabisNonMedical => "Cannabis (non-medical)"
    case TobaccoAlcohol => "Tobacco / alcohol"
    case GstOnly => "GST only"
    case ProvincialOnly => "Provincial only"
  }

  /** `CATEGORY_OPTIONS`, in declaration order. */
  function CategoryOptions(): seq<Category>
  {
    [ Standard, Exempt, ZeroRatedGroceries, PreparedFood,
      ChildrensClothing, ChildrensDiapers, ChildrensCarSeats,
      FeminineHygiene, PrescriptionDrugs, PrintedBooks,
      Newspapers, PublicTransit, SnackFoods, SweetenedBeverages,
      CannabisMedical, CannabisNonMedical, TobaccoAlcohol, GstOnly, ProvincialOnly ]
  }

  /** The category whose name is `s`, when there is one (first match in `opts`). */
  function LookupName(opts: seq<Category>, s: string): (r: Option<Category>)
    ensures r.Some? ==> r.value in opts && Name(r.value) == s
    ensures r.None? ==> forall c :: c in opts ==> Name(c) != s
  {
    if opts == [] then None
    else if Name(opts[0]) == s then Some(opts[0])
    else LookupName(opts[1..], s)
  }

  /**
   * The category a name belongs to, told apart by the name's length and its
   * last character alone.
   */
  ghost function FromSignature(len: int, last: char): Option<Category>
  {
    if len == 8 && last == 'd' then Some(Standard)
    else if len == 6 && last == 't' then Some(Exempt)
    else if len == 28 && last == ')' then Some(ZeroRatedGroceries)
    else if len == 26 && last == 't' then Some(PreparedFood)
    else if len == 30 && last == 'r' then Some(ChildrensClothing)
    else if len == 18 && last == 's' then Some(ChildrensDiapers)
    else if len == 36 && last == 's' then Some(ChildrensCarSeats)
    else if len == 25 && last == 's' then Some(FeminineHygiene)
    else if len == 28 && last == 'l' then Some(PrescriptionDrugs)
    else if len == 26 && last == ')' then Some(PrintedBooks)
    else if len == 23 && last == ')' then Some(Newspapers)
    else if len == 20 && last == 's' then Some(PublicTransit)
    else if len == 19 && last == 'y' then Some(SnackFoods)
    else if len == 30 && last == 's' then Some(SweetenedBeverages)
    else if len == 18 && last == ')' then Some(CannabisMedical)
    else if len == 22 && last == ')' then Some(CannabisNonMedical)
    else if len == 17 && last == 'l' then Some(TobaccoAlcohol)
    else if len == 8 && last == 'y' then Some(GstOnly)
    else if len == 15 && last == 'y' then Some(ProvincialOnly)
    else None
  }

  /** A name is told apart by its length and last character. */
  ghost predicate HasSignature(c: Category)
  {
    |Name(c)| > 0 && FromSignature(|Name(c)|, Name(c)[|Name(c)| - 1]) == Some(c)
  }

  // The signatures are checked five categories at a time, which keeps each
  // proof small.
  lemma SignaturesFirst(c: Category)
    requires c == Standard || c == Exempt || c == ZeroRatedGroceries || c == PreparedFood || c == ChildrensClothing
    ensures HasSignature(c)
  {
  }

  lemma SignaturesSecond(c: Category)
    requires c == ChildrensDiapers || c == ChildrensCarSeats || c == FeminineHygiene || c == PrescriptionDrugs || c == PrintedBooks
    ensures HasSignature(c)
  {
  }

  lemma SignaturesThird(c: Category)
    requires c == Newspapers || c == PublicTransit || c == SnackFoods || c == SweetenedBeverages || c == CannabisMedical
    ensures HasSignature(c)
  {
  }

  lemma SignaturesFourth(c: Category)
    requires c == CannabisNonMedical || c == TobaccoAlcohol || c == GstOnly || c == ProvincialOnly
    ensures HasSignature(c)
  {
  }

  lemma NameSignature(c: Category)
    ensures HasSignature(c)
  {
    if c == Standard || c == Exempt || c == ZeroRatedGroceries || c == PreparedFood || c == ChildrensClothing {
      SignaturesFirst(c);
    } else if c == ChildrensDiapers || c == ChildrensCarSeats || c == FeminineHygiene || c == PrescriptionDrugs || c == PrintedBooks {
      SignaturesSecond(c);
    } else if c == Newspapers || c == PublicTransit || c == SnackFoods || c == SweetenedBeverages || c == CannabisMedical {
      SignaturesThird(c);
    } else {
      SignaturesFourth(c);
    }
  }

  /** Two categories with the same name are the same category. */
  lemma NameInjective(a: Category, b: Category)
    ensures Name(a) == Name(b) ==> a == b
  {
    NameSignature(a);
    NameSignature(b);
  }

  /** `PROVINCES` lists each of the 13 provinces exactly once; the default province is one of them. */
  lemma ProvincesComplete()
    ensures |Provinces()| == 13
    ensures forall p: Province :: p in Provinces()
    ensures forall i, j :: 0 <= i < j < |Provinces()| ==> Code(Provinces()[i]) != Code(Provinces()[j])
    ensures DefaultProvince in Provinces()
  {
    forall p: Province ensures p in Provinces() {
      assert Provinces()[ProvinceIndex(p)] == p;
    }
  }

  /** Where a province stands in `PROVINCES`. */
  ghost function ProvinceIndex(p: Province): (i: nat)
    ensures i < |Provinces()| && Provinces()[i] == p
  {
    match p
    case AB => 0 case BC => 1 case MB => 2 case NB => 3 case NL => 4 case NS => 5 case NT => 6
    case NU => 7 case ON => 8 case PE => 9 case QC => 10 case SK => 11 case YT => 12
  }

  /** Where a category stands in `CATEGORY_OPTIONS`. */
  ghost function CategoryIndex(c: Category): (i: nat)
    ensures i < |CategoryOptions()| && CategoryOptions()[i] == c
  {
    match c
    case Standard => 0 case Exempt => 1 case ZeroRatedGroceries => 2 case PreparedFood => 3
    case ChildrensClothing => 4 case ChildrensDiapers => 5 case ChildrensCarSeats => 6
    case FeminineHygiene => 7 case PrescriptionDrugs => 8 case PrintedBooks => 9
    case Newspapers => 10 case PublicTransit => 11 case SnackFoods => 12 case SweetenedBeverages => 13
    case CannabisMedical => 14 case CannabisNonMedical => 15 case TobaccoAlcohol => 16
    case GstOnly => 17 case ProvincialOnly => 18
  }

  /** `CATEGORY_OPTIONS` lists every category, under 19 distinct names. */
  lemma CategoryOptionsComplete()
    ensures |CategoryOptions()| == 19
    ensures forall c: Category :: c in CategoryOptions()
    ensures forall i, j :: 0 <= i < j < |CategoryOptions()| ==> Name(CategoryOptions()[i]) != Name(CategoryOptions()[j])
  {
    forall c: Category ensures c in CategoryOptions() {
      assert CategoryOptions()[CategoryIndex(c)] == c;
    }
    forall i | 0 <= i < |CategoryOptions()| ensures CategoryIndex(CategoryOptions()[i]) == i {
      IndexOfOption(i);
    }
    forall i, j | 0 <= i < j < |CategoryOptions()|
      ensures Name(CategoryOptions()[i]) != Name(CategoryOptions()[j])
    {
      NameInjective(CategoryOptions()[i], CategoryOptions()[j]);
    }
  }

  /** `CategoryIndex` inverts indexing into `CATEGORY_OPTIONS`. */
  lemma IndexOfOption(i: nat)
    requires i < |CategoryOptions()|
    ensures CategoryIndex(CategoryOptions()[i]) == i
  {
    if i < 10 {
      assert i in {0, 1, 2, 3, 4, 5, 6, 7, 8, 9};
    } else {
      assert i in {10, 11, 12, 13, 14, 15, 16, 17, 18};
    }
  }

  /**
   * The full sales-tax rate of a province on a fully taxable item: the
   * harmonized rate, or GST plus the PST or QST, or GST alone.
   */
  function CombinedRate(p: Province): (r: real)
    ensures r == TaxRates(p).gst + ProvincialRate(p) || TaxRates(p).kind == HST
    ensures TaxRates(p).kind == HST ==> r == ProvincialRate(p)
    ensures r > 0.0
  {
    var entry := TaxRates(p);
    match entry.kind
    case HST => OrZero(entry.hst)
    case GST_PST => entry.gst + OrZero(entry.pst)
    case GST_QST => entry.gst + OrZero(entry.qst)
    case GST_ONLY => entry.gst
  }

  /** `getProvincialLabel`: the name of the provincial component for a structure. */
  function ProvincialLabel(kind: RateKind): (r: string)
    ensures kind == HST ==> r == "HST"
    ensures kind == GST_QST ==> r == "QST"
    ensures kind == GST_PST ==> r == "PST"
    ensures kind == GST_ONLY ==> r == "Provincial"
  {
    match kind
    case HST => "HST"
    case GST_QST => "QST"
    case GST_PST => "PST"
    case _ => "Provincial"
  }

  /** `getProvincialRate`: the standalone provincial (or harmonized) rate, 0 for GST-only. */
  function ProvincialRate(p: Province): (r: real)
    ensures TaxRates(p).kind == HST ==> Some(r) == TaxRates(p).hst
    ensures TaxRates(p).kind == GST_PST ==> Some(r) == TaxRates(p).pst
    ensures TaxRates(p).kind == GST_QST ==> Some(r) == TaxRates(p).qst
    ensures r == 0.0 <==> (p == AB || p == NT || p == NU || p == YT)
  {
    var entry := TaxRates(p);
    if entry.kind == HST then OrZero(entry.hst)
    else if entry.kind == GST_PST then OrZero(entry.pst)
    else if entry.kind == GST_QST then OrZero(entry.qst)
    else 0.0
  }
}
