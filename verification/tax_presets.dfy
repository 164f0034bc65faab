/**
 * Category presets: ten named shortcuts, each pre-selecting one tax
 * category, with a lookup by id (first match) and a filter by category
 * label.
 */
module TaxPresets {
  import opened Wrappers
  import opened TaxData

  datatype TaxPreset = TaxPreset(
    id: string,
    labelText: string,   // `label` on the wire
    description: string,
    category: Category,
    isExempt: bool,
    icon: Option<string>)

  /** The id-to-category side table kept next to the preset list. */
  function PresetCategoryMap(): map<string, Category>
  {
    map[
      "basic-groceries" := ZeroRatedGroceries,
      "restaurant" := PreparedFood,
      "alcohol" := TobaccoAlcohol,
      "clothing" := Standard,
      "children-clothing" := ChildrensClothing,
      "books" := PrintedBooks,
      "electronics" := Standard,
      "transportation" := PublicTransit,
      "health" := PrescriptionDrugs,
      "education" := Standard
    ]
  }

  function Groceries(): TaxPreset {
    TaxPreset("basic-groceries", "Basic Groceries",
      "Most food and beverages for human consumption",
      ZeroRatedGroceries, true, Some("\U{1F34E}"))
  }
  function Restaurant(): TaxPreset {
    TaxPreset("restaurant", "Restaurant Meals",
      "Meals from restaurants and fast food",
      PreparedFood, false, Some("\U{1F37D}\U{FE0F}"))
  }
  function Alcohol(): TaxPreset {
    TaxPreset("alcohol", "Alcoholic Beverages",
      "Beer, wine, and spirits",
      TobaccoAlcohol, false, Some("\U{1F377}"))
  }
  function Clothing(): TaxPreset {
    TaxPreset("clothing", "Clothing & Footwear",
      "Clothing, shoes, and accessories",
      Standard, false, Some("\U{1F455}"))
  }
  function ChildrenClothing(): TaxPreset {
    TaxPreset("children-clothing", "Children's Clothing",
      "Clothing and footwear for children under 15",
      ChildrensClothing, true, Some("\U{1F476}"))
  }
  function Books(): TaxPreset {
    TaxPreset("books", "Books",
      "Printed books, including textbooks",
      PrintedBooks, true, Some("\U{1F4DA}"))
  }
  function Electronics(): TaxPreset {
    TaxPreset("electronics", "Electronics",
      "Computers, phones, and other electronics",
      Standard, false, Some("\U{1F4BB}"))
  }
  function Transportation(): TaxPreset {
    TaxPreset("transportation", "Public Transportation",
      "Bus, train, and subway fares",
      PublicTransit, true, Some("\U{1F68C}"))
  }
  function Health(): TaxPreset {
    TaxPreset("health", "Health & Medical",
      "Prescription drugs and medical devices",
      PrescriptionDrugs, true, Some("\U{1F48A}"))
  }
  function Education(): TaxPreset {
    TaxPreset("education", "Education",
      "Tuition and educational services",
      Standard, false, Some("\U{1F393}"))
  }

  function TaxPresets(): seq<TaxPreset>
  {
    [ Groceries(), Restaurant(), Alcohol(), Clothing(), ChildrenClothing(),
      Books(), Electronics(), Transportation(), Health(), Education() ]
  }

  /** The first preset of `ps` at position `from` or later carrying `id`. */
  function FindById(ps: seq<TaxPreset>, id: string, from: nat): (r: Option<TaxPreset>)
    requires from <= |ps|
    ensures r.None? <==> forall i :: from <= i < |ps| ==> ps[i].id != id
    ensures r.Some? ==> exists i :: from <= i < |ps| && ps[i] == r.value && ps[i].id == id &&
                                   forall j :: from <= j < i ==> ps[j].id != id
    decreases |ps| - from
  {
    if from == |ps| then None
    else if ps[from].id == id then Some(ps[from])
    else FindById(ps, id, from + 1)
  }

  /** The presets of `ps` from position `from` on whose category label is `category`, in order. */
  function FilterByLabel(ps: seq<TaxPreset>, category: string, from: nat): (r: seq<TaxPreset>)
    requires from <= |ps|
    ensures |r| <= |ps| - from
    ensures forall p :: p in r <==> p in ps[from..] && Name(p.category) == category
    decreases |ps| - from
  {
    if from == |ps| then []
    else if Name(ps[from].category) == category then [ps[from]] + FilterByLabel(ps, category, from + 1)
    else FilterByLabel(ps, category, from + 1)
  }

  /** Filtering a list placed after `a` from a position inside it is filtering that list alone. */
  lemma {:induction false} FilterByLabelShift(a: seq<TaxPreset>, b: seq<TaxPreset>, category: string, k: nat)
    requires k <= |b|
    ensures FilterByLabel(a + b, category, |a| + k) == FilterByLabel(b, category, k)
    decreases |b| - k
  {
    if k < |b| {
      assert (a + b)[|a| + k] == b[k];
      FilterByLabelShift(a, b, category, k + 1);
    }
  }

  /** Filtering `a + b` from inside `a` is filtering the rest of `a`, then all of `b`. */
  lemma {:induction false} FilterByLabelConcatFrom(a: seq<TaxPreset>, b: seq<TaxPreset>, category: string, from: nat)
    requires from <= |a|
    ensures FilterByLabel(a + b, category, from) == FilterByLabel(a, category, from) + FilterByLabel(b, category, 0)
    decreases |a| - from
  {
    if from == |a| {
      FilterByLabelShift(a, b, category, 0);
    } else {
      assert (a + b)[from] == a[from];
      FilterByLabelConcatFrom(a, b, category, from + 1);
    }
  }

  /** The filter keeps order: filtering a concatenation is concatenating the filtered parts. */
  lemma FilterByLabelConcat(a: seq<TaxPreset>, b: seq<TaxPreset>, category: string)
    ensures FilterByLabel(a + b, category, 0) == FilterByLabel(a, category, 0) + FilterByLabel(b, category, 0)
  {
    FilterByLabelConcatFrom(a, b, category, 0);
  }

  /** On a single preset the filter keeps it exactly when its category's label matches. */
  lemma FilterByLabelSingle(p: TaxPreset, category: string)
    ensures FilterByLabel([p], category, 0) == if Name(p.category) == category then [p] else []
  {
  }

  /** The same filter, stated on the category value rather than its label. */
  function FilterByCategory(ps: seq<TaxPreset>, c: Category, from: nat): seq<TaxPreset>
    requires from <= |ps|
    decreases |ps| - from
  {
    if from == |ps| then []
    else if ps[from].category == c then [ps[from]] + FilterByCategory(ps, c, from + 1)
    else FilterByCategory(ps, c, from + 1)
  }

  function GetPresetById(id: string): (r: Option<TaxPreset>)
    ensures r.Some? ==> r.value in TaxPresets() && r.value.id == id
    ensures r.None? ==> forall p :: p in TaxPresets() ==> p.id != id
  {
    FindById(TaxPresets(), id, 0)
  }

  function GetPresetsByCategory(category: string): (r: seq<TaxPreset>)
    ensures forall p :: p in r <==> p in TaxPresets() && Name(p.category) == category
  {
    FilterByLabel(TaxPresets(), category, 0)
  }

  /** The presets of a category come in catalogue order: cutting the catalogue anywhere splits the result the same way. */
  lemma GetPresetsByCategorySplit(category: string, k: nat)
    requires k <= |TaxPresets()|
    ensures GetPresetsByCategory(category) == FilterByLabel(TaxPresets()[..k], category, 0) + FilterByLabel(TaxPresets()[k..], category, 0)
  {
    var ps := TaxPresets();
    assert ps == ps[..k] + ps[k..];
    FilterByLabelConcat(ps[..k], ps[k..], category);
  }

  /** Filtering by a category's label is filtering by the category itself. */
  lemma {:induction false} FilterByNameIsByCategory(ps: seq<TaxPreset>, c: Category, from: nat)
    requires from <= |ps|
    ensures FilterByLabel(ps, Name(c), from) == FilterByCategory(ps, c, from)
    decreases |ps| - from
  {
    if from < |ps| {
      NameInjective(ps[from].category, c);
      FilterByNameIsByCategory(ps, c, from + 1);
    }
  }

  /** Moving one position along the list keeps or drops that one preset. */
  lemma FilterStep(ps: seq<TaxPreset>, c: Category, from: nat)
    requires from < |ps|
    ensures ps[from].category == c ==> FilterByCategory(ps, c, from) == [ps[from]] + FilterByCategory(ps, c, from + 1)
    ensures ps[from].category != c ==> FilterByCategory(ps, c, from) == FilterByCategory(ps, c, from + 1)
  {
  }

  /** From the seventh position on, the Standard presets are electronics and education. */
  lemma StandardPresetsFromSeventh()
    ensures FilterByCategory(TaxPresets(), Standard, 6) == [Electronics(), Education()]
  {
    var ps := TaxPresets();
    FilterStep(ps, Standard, 9);
    FilterStep(ps, Standard, 8);
    FilterStep(ps, Standard, 7);
    FilterStep(ps, Standard, 6);
  }

  /** From the fourth position on, clothing joins them. */
  lemma StandardPresetsFromFourth()
    ensures FilterByCategory(TaxPresets(), Standard, 3) == [Clothing(), Electronics(), Education()]
  {
    var ps := TaxPresets();
    StandardPresetsFromSeventh();
    FilterStep(ps, Standard, 5);
    FilterStep(ps, Standard, 4);
    FilterStep(ps, Standard, 3);
  }

  /** The Standard presets, by category value: clothing, electronics, education. */
  lemma StandardPresetsByCategory()
    ensures FilterByCategory(TaxPresets(), Standard, 0) == [Clothing(), Electronics(), Education()]
  {
    var ps := TaxPresets();
    StandardPresetsFromFourth();
    FilterStep(ps, Standard, 2);
    FilterStep(ps, Standard, 1);
    FilterStep(ps, Standard, 0);
  }

  /** The "Standard" shortcut list is clothing, electronics and education. */
  lemma StandardPresets()
    ensures GetPresetsByCategory(Name(Standard)) == [Clothing(), Electronics(), Education()]
  {
    FilterByNameIsByCategory(TaxPresets(), Standard, 0);
    StandardPresetsByCategory();
  }

  /** The ids have pairwise different lengths, hence are pairwise different. */
  lemma IdLengthsDistinct()
    ensures forall i, j :: 0 <= i < j < |TaxPresets()| ==> |TaxPresets()[i].id| != |TaxPresets()[j].id|
    ensures forall i, j :: 0 <= i < j < |TaxPresets()| ==> TaxPresets()[i].id != TaxPresets()[j].id
  {
    var ps := TaxPresets();
    assert |ps[0].id| == 15 && |ps[1].id| == 10 && |ps[2].id| == 7 && |ps[3].id| == 8 && |ps[4].id| == 17;
    assert |ps[5].id| == 5 && |ps[6].id| == 11 && |ps[7].id| == 14 && |ps[8].id| == 6 && |ps[9].id| == 9;
  }

  /** Looking a preset up by its own id gives that preset back. */
  lemma GetPresetByOwnId(p: TaxPreset)
    requires p in TaxPresets()
    ensures GetPresetById(p.id) == Some(p)
  {
    var ps := TaxPresets();
    IdLengthsDistinct();
    var r := GetPresetById(p.id);
    var k :| 0 <= k < |ps| && ps[k] == p;
    assert r.Some?;
    var i :| 0 <= i < |ps| && ps[i] == r.value && ps[i].id == p.id &&
             forall j :: 0 <= j < i ==> ps[j].id != p.id;
    assert i == k;
  }

  /** The side table agrees with the category recorded on the preset at position k. */
  lemma MapAgreesAt(k: nat)
    requires k < |TaxPresets()|
    ensures TaxPresets()[k].id in PresetCategoryMap() && PresetCategoryMap()[TaxPresets()[k].id] == TaxPresets()[k].category
  {
    var ps := TaxPresets();
    if k == 0 { assert ps[k] == Groceries(); }
    else if k == 1 { assert ps[k] == Restaurant(); }
    else if k == 2 { assert ps[k] == Alcohol(); }
    else if k == 3 { assert ps[k] == Clothing(); }
    else if k == 4 { assert ps[k] == ChildrenClothing(); }
    else if k == 5 { assert ps[k] == Books(); }
    else if k == 6 { assert ps[k] == Electronics(); }
    else if k == 7 { assert ps[k] == Transportation(); }
    else if k == 8 { assert ps[k] == Health(); }
    else { assert ps[k] == Education(); }
  }

  /** The side table agrees with the category recorded on each preset. */
  lemma MapAgreesWithPresets(p: TaxPreset)
    requires p in TaxPresets()
    ensures p.id in PresetCategoryMap() && PresetCategoryMap()[p.id] == p.category
  {
    var k :| 0 <= k < |TaxPresets()| && TaxPresets()[k] == p;
    MapAgreesAt(k);
  }

  /** The side table's keys are exactly the preset ids. */
  lemma MapKeysArePresetIds()
    ensures PresetCategoryMap().Keys == set i | 0 <= i < |TaxPresets()| :: TaxPresets()[i].id
  {
    var ps := TaxPresets();
    assert ps[0].id == "basic-groceries" && ps[1].id == "restaurant" && ps[2].id == "alcohol";
    assert ps[3].id == "clothing" && ps[4].id == "children-clothing" && ps[5].id == "books";
    assert ps[6].id == "electronics" && ps[7].id == "transportation" && ps[8].id == "health";
    assert ps[9].id == "education";
  }

  /** Every preset category is one of the offered categories. */
  lemma PresetCategoriesOffered(p: TaxPreset)
    requires p in TaxPresets()
    ensures p.category in CategoryOptions()
  {
    CategoryOptionsComplete();
  }
}
