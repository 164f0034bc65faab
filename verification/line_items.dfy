/**
 * The calculator's editable line-item list: a sequence of form rows that
 * is replaced wholesale by append, update-by-id, remove-by-id and clear.
 * Ids come from a random UUID generator, which here is the `freshId`
 * argument.
 */
module LineItems {
  import opened Wrappers
  import opened Text
  import TaxData
  import TaxCalculator

  /**
   * One form row. The category is kept as the string the form holds: a new
   * row starts with "standard", which is not one of the category names.
   */
  datatype LineItemForm = LineItemForm(id: string, labelText: string, category: string, amount: string)

  /** A partial row: the fields present override, the absent ones are kept. */
  datatype Patch = Patch(id: Option<string>, labelText: Option<string>, category: Option<string>, amount: Option<string>)

  function EmptyPatch(): Patch {
    Patch(None, None, None, None)
  }

  function Override(current: string, change: Option<string>): string {
    if change.Some? then change.value else current
  }

  /** `{ ...item, ...changes }`: every field present in the patch wins. */
  function Merge(item: LineItemForm, changes: Patch): (r: LineItemForm)
    ensures changes == EmptyPatch() ==> r == item
    ensures changes.id.None? ==> r.id == item.id
    ensures changes.id.Some? ==> r.id == changes.id.value
    ensures changes.labelText.Some? ==> r.labelText == changes.labelText.value
    ensures changes.labelText.None? ==> r.labelText == item.labelText
    ensures changes.category.Some? ==> r.category == changes.category.value
    ensures changes.category.None? ==> r.category == item.category
    ensures changes.amount.Some? ==> r.amount == changes.amount.value
    ensures changes.amount.None? ==> r.amount == item.amount
  {
    LineItemForm(Override(item.id, changes.id), Override(item.labelText, changes.labelText),
                 Override(item.category, changes.category), Override(item.amount, changes.amount))
  }

  /** Applying the same patch twice is applying it once. */
  lemma MergeIdempotent(item: LineItemForm, changes: Patch)
    ensures Merge(Merge(item, changes), changes) == Merge(item, changes)
  {
  }

  /** The row `addItem` creates at position `index` (counted from one), before and after the overrides. */
  function CreateLineItem(index: nat, overrides: Patch, freshId: string): (r: LineItemForm)
    ensures overrides.id.None? ==> r.id == freshId
    ensures overrides.labelText.None? ==> r.labelText == "Item " + NatToString(index)
    ensures overrides.category.None? ==> r.category == "standard"
    ensures overrides.amount.None? ==> r.amount == ""
    ensures overrides.id.Some? ==> r.id == overrides.id.value
    ensures overrides.labelText.Some? ==> r.labelText == overrides.labelText.value
    ensures overrides.category.Some? ==> r.category == overrides.category.value
    ensures overrides.amount.Some? ==> r.amount == overrides.amount.value
  {
    Merge(LineItemForm(freshId, "Item " + NatToString(index), "standard", ""), overrides)
  }

  /** The default category string is not a category name, so validation turns it into Standard. */
  lemma DefaultCategoryIsNotAName(index: nat, freshId: string)
    ensures forall k :: TaxData.Name(k) != CreateLineItem(index, EmptyPatch(), freshId).category
    ensures TaxCalculator.ValidateCategory(CreateLineItem(index, EmptyPatch(), freshId).category) == TaxData.Standard
  {
    TaxCalculator.LowerCaseStandardFallsBack();
  }

  /** `prev.map(item => item.id === id ? { ...item, ...changes } : item)`. */
  function Updated(items: seq<LineItemForm>, id: string, changes: Patch): (r: seq<LineItemForm>)
    ensures |r| == |items|
    ensures forall i :: 0 <= i < |r| && items[i].id != id ==> r[i] == items[i]
    ensures forall i :: 0 <= i < |r| && items[i].id == id ==> r[i] == Merge(items[i], changes)
  {
    seq(|items|, i requires 0 <= i < |items| => if items[i].id == id then Merge(items[i], changes) else items[i])
  }

  /** An id no row carries leaves the list as it was. */
  lemma UpdateAbsentId(items: seq<LineItemForm>, id: string, changes: Patch)
    requires forall i :: 0 <= i < |items| ==> items[i].id != id
    ensures Updated(items, id, changes) == items
  {
  }

  /** A patch that does not touch the id keeps every id in its place. */
  lemma UpdateKeepsIds(items: seq<LineItemForm>, id: string, changes: Patch)
    requires changes.id.None?
    ensures forall i :: 0 <= i < |items| ==> Updated(items, id, changes)[i].id == items[i].id
  {
  }

  /** `prev.filter(item => item.id !== id)`. */
  function Removed(items: seq<LineItemForm>, id: string): (r: seq<LineItemForm>)
    ensures |r| <= |items|
    ensures forall x :: x in r <==> x in items && x.id != id
  {
    if items == [] then []
    else if items[0].id == id then Removed(items[1..], id)
    else [items[0]] + Removed(items[1..], id)
  }

  /** Removing an id no row carries changes nothing. */
  lemma {:induction false} RemoveAbsentId(items: seq<LineItemForm>, id: string)
    requires forall i :: 0 <= i < |items| ==> items[i].id != id
    ensures Removed(items, id) == items
  {
    if items != [] {
      RemoveAbsentId(items[1..], id);
    }
  }

  /** Removal keeps the surviving rows in their original order. */
  lemma {:induction false} RemovedOfConcat(a: seq<LineItemForm>, b: seq<LineItemForm>, id: string)
    ensures Removed(a + b, id) == Removed(a, id) + Removed(b, id)
  {
    if a != [] {
      assert (a + b)[1..] == a[1..] + b;
      RemovedOfConcat(a[1..], b, id);
    } else {
      assert a + b == b;
    }
  }

  /** Removing the same id twice is removing it once. */
  lemma RemoveIdempotent(items: seq<LineItemForm>, id: string)
    ensures Removed(Removed(items, id), id) == Removed(items, id)
  {
    var r := Removed(items, id);
    forall i | 0 <= i < |r| ensures r[i].id != id {
      assert r[i] in r;
    }
    RemoveAbsentId(r, id);
  }

  /** The list state the hook holds. */
  class LineItemList {
    var items: seq<LineItemForm>

    constructor(initialItems: seq<LineItemForm>)
      ensures items == initialItems
    {
      items := initialItems;
    }

    /** Appends one new row, numbered after the current rows. */
    method AddItem(overrides: Patch, freshId: string)
      modifies this
      ensures items == old(items) + [CreateLineItem(|old(items)| + 1, overrides, freshId)]
    {
      items := items + [CreateLineItem(|items| + 1, overrides, freshId)];
    }

    /** Merges `changes` into every row carrying `id`. */
    method UpdateItem(id: string, changes: Patch)
      modifies this
      ensures items == Updated(old(items), id, changes)
    {
      items := Updated(items, id, changes);
    }

    /** Drops every row carrying `id`. */
    method RemoveItem(id: string)
      modifies this
      ensures items == Removed(old(items), id)
    {
      items := Removed(items, id);
    }

    method ClearItems()
      modifies this
      ensures items == []
    {
      items := [];
    }
  }
}
