/** The two-step "edit promotion" wizard (src/pages/admin/EditPromotion.tsx):
    the base schema strengthened by two date rules, a multi-product selection, a
    load effect that fills the form from the stored record, and an update payload
    handed to `updatePromotion`, which is recorded here rather than performed. */
module EditPromotion {
  import opened Types
  import opened PromotionForm

  // ---- validation ----

  /** First refinement: the start date is a day no earlier than today. */
  predicate StartNotBeforeToday(v: FormValues, today: Day) {
    v.startDate.On? && v.startDate.day >= today
  }

  /** Second refinement: both dates are days and the end is no earlier than the start. */
  predicate EndNotBeforeStart(v: FormValues) {
    v.startDate.On? && v.endDate.On? && v.endDate.day >= v.startDate.day
  }

  /** The fields the edit schema rejects: the base errors, plus the start date when
      the first refinement fails and the end date when the second one fails (both
      refinements also fail on a missing date). */
  function EditErrors(v: FormValues, today: Day): (errors: set<Field>)
    ensures BaseErrors(v) <= errors
    ensures errors - BaseErrors(v) <= {StartDate, EndDate}
    ensures StartDate in errors <==> !StartNotBeforeToday(v, today)
    ensures EndDate in errors <==> !EndNotBeforeStart(v)
  {
    BaseErrors(v)
    + (if StartNotBeforeToday(v, today) then {} else {StartDate})
    + (if EndNotBeforeStart(v) then {} else {EndDate})
  }

  predicate EditValid(v: FormValues, today: Day) {
    EditErrors(v, today) == {}
  }

  /** Edit validity is base validity plus the two date rules; in particular every
      form the edit page accepts, the create page accepts too. */
  lemma EditValidMeans(v: FormValues, today: Day)
    ensures EditValid(v, today) <==>
              BaseValid(v) && v.startDate.day >= today && v.endDate.day >= v.startDate.day
  {
    if !EditValid(v, today) {
      var f :| f in EditErrors(v, today);
    }
  }

  /** Date boundaries are inclusive: a start of today and an end equal to the start
      pass; a start of yesterday or an end before the start fail. */
  lemma DateBoundaries(v: FormValues, today: Day, start: Day)
    ensures StartDate !in EditErrors(v.(startDate := On(today)), today)
    ensures StartDate in EditErrors(v.(startDate := On(today - 1)), today)
    ensures EndDate !in EditErrors(v.(startDate := On(start), endDate := On(start)), today)
    ensures EndDate in EditErrors(v.(startDate := On(start), endDate := On(start - 1)), today)
  {
  }

  /** The form the create page accepts with reversed dates is rejected here. */
  lemma EditRejectsReversedDates(today: Day)
    ensures !EditValid(FormValues("Test", "d", "alimento", 50, On(today + 1), On(today)), today)
  {
    assert EndDate in EditErrors(FormValues("Test", "d", "alimento", 50, On(today + 1), On(today)), today);
  }

  // ---- product selection ----

  /** No id occurs twice. */
  predicate NoDuplicates(s: seq<string>) {
    forall i, j :: 0 <= i < j < |s| ==> s[i] != s[j]
  }

  lemma NoDuplicatesCons(x: string, s: seq<string>)
    requires x !in s && NoDuplicates(s)
    ensures NoDuplicates([x] + s)
  {
    forall i, j | 0 <= i < j < |[x] + s|
      ensures ([x] + s)[i] != ([x] + s)[j]
    {
      if i > 0 {
        assert ([x] + s)[i] == s[i - 1] && ([x] + s)[j] == s[j - 1];
      } else {
        assert ([x] + s)[j] == s[j - 1];
      }
    }
  }

  lemma NoDuplicatesSnoc(s: seq<string>, x: string)
    requires x !in s && NoDuplicates(s)
    ensures NoDuplicates(s + [x])
  {
    forall i, j | 0 <= i < j < |s + [x]|
      ensures (s + [x])[i] != (s + [x])[j]
    {
      assert (s + [x])[i] == s[i];
      if j < |s| {
        assert (s + [x])[j] == s[j];
      }
    }
  }

  /** `prev.filter(id => id !== x)`: x is gone, every other id is kept. */
  function RemoveAll(s: seq<string>, x: string): (r: seq<string>)
    ensures x !in r
    ensures forall y :: y != x ==> (y in r <==> y in s)
    ensures NoDuplicates(s) ==> NoDuplicates(r)
  {
    if s == [] then []
    else if s[0] == x then RemoveAll(s[1..], x)
    else
      var rest := RemoveAll(s[1..], x);
      assert NoDuplicates(s) ==> s[0] !in s[1..] && NoDuplicates(s[1..]) by {
        if NoDuplicates(s) {
          forall k | 0 <= k < |s[1..]| ensures s[1..][k] != s[0] {
            assert s[1..][k] == s[k + 1];
          }
        }
      }
      if NoDuplicates(s) then NoDuplicatesCons(s[0], rest); [s[0]] + rest
      else [s[0]] + rest
  }

  /** Removing an id from a concatenation removes it from both parts, in order. */
  lemma {:induction false} RemoveAllConcat(a: seq<string>, b: seq<string>, x: string)
    ensures RemoveAll(a + b, x) == RemoveAll(a, x) + RemoveAll(b, x)
  {
    if a == [] {
      assert a + b == b;
    } else {
      assert (a + b)[1..] == a[1..] + b;
      RemoveAllConcat(a[1..], b, x);
    }
  }

  /** Removing an id that is not there changes nothing. */
  lemma {:induction false} RemoveAllAbsent(s: seq<string>, x: string)
    requires x !in s
    ensures RemoveAll(s, x) == s
  {
    if s != [] {
      assert s == [s[0]] + s[1..];
      RemoveAllAbsent(s[1..], x);
    }
  }

  /** Clicking a product in the edit form: remove it if selected, append it if not. */
  function ToggleMulti(selected: seq<string>, productId: string): (r: seq<string>)
    ensures productId in selected ==> productId !in r
    ensures productId !in selected ==> r == selected + [productId]
    ensures forall y :: y != productId ==> (y in r <==> y in selected)
    ensures NoDuplicates(selected) ==> NoDuplicates(r)
  {
    if productId in selected then RemoveAll(selected, productId)
    else
      if NoDuplicates(selected) then NoDuplicatesSnoc(selected, productId); selected + [productId]
      else selected + [productId]
  }

  /** Toggling the same product twice gives back the same set of selected products,
      and exactly the same list when the product was not selected. */
  lemma ToggleMultiTwice(selected: seq<string>, productId: string)
    ensures forall y :: y in ToggleMulti(ToggleMulti(selected, productId), productId) <==> y in selected
    ensures productId !in selected ==>
              ToggleMulti(ToggleMulti(selected, productId), productId) == selected
  {
    if productId !in selected {
      var once := selected + [productId];
      assert productId in once by { assert once[|selected|] == productId; }
      RemoveAllConcat(selected, [productId], productId);
      RemoveAllAbsent(selected, productId);
      assert RemoveAll([productId], productId) == [];
    }
  }

  // ---- loading the record and assembling the update ----

  /** Where `promotions.find(p => p.id === id)` finds its record: the first one with the id. */
  function IndexOfId(ps: seq<Promotion>, id: string): (r: Option<nat>)
    ensures r.Some? ==> r.value < |ps| && ps[r.value].id == id &&
                        forall j :: 0 <= j < r.value ==> ps[j].id != id
    ensures r.None? ==> forall p :: p in ps ==> p.id != id
  {
    if ps == [] then None
    else if ps[0].id == id then Some(0)
    else
      match IndexOfId(ps[1..], id)
      case None => None
      case Some(k) => Some(k + 1)
  }

  /** The form fields filled in from a stored record. */
  function ValuesOf(p: Promotion): (v: FormValues)
    ensures v.startDate == On(p.startDate) && v.endDate == On(p.endDate)
    ensures v.name == p.name && v.description == p.description &&
            v.category == p.category && v.discount == p.discount
  {
    FormValues(p.name, p.description, p.category, p.discount, On(p.startDate), On(p.endDate))
  }

  /** A loaded record submitted unchanged (no snapshot, the loaded selection) gives
      back its own fields and selection; only the image is recomputed from the
      category. */
  lemma LoadedRecordResubmits(p: Promotion, today: Day)
    requires EditValid(ValuesOf(p), today)
    ensures var d := EditPatch(None, ValuesOf(p), p.selectedProducts.GetOr([]));
            d.name == p.name && d.description == p.description &&
            d.category == p.category && d.discount == p.discount &&
            d.startDate == p.startDate && d.endDate == p.endDate &&
            d.selectedProducts == Some(p.selectedProducts.GetOr([])) &&
            d.image == ImageFor(p.category)
  {
  }

  /** The partial record handed to `updatePromotion`: the merged form fields, the
      image of their category and the current selection. */
  function EditPatch(formData: Option<FormValues>, data: FormValues, selected: seq<string>): (d: Draft)
    requires BaseValid(data) && EndNotBeforeStart(data)
    requires formData.Some? ==> BaseValid(formData.value) && EndNotBeforeStart(formData.value)
    ensures d.name != "" && d.description != "" && d.category != ""
    ensures 1 <= d.discount <= 100
    ensures d.startDate <= d.endDate
    ensures d.image == ImageFor(d.category)
    ensures d.selectedProducts == Some(selected) && d.isActive == None
    ensures var src := formData.GetOr(data);
            d.name == src.name && d.description == src.description &&
            d.category == src.category && d.discount == src.discount &&
            On(d.startDate) == src.startDate && On(d.endDate) == src.endDate
  {
    var m := Merge(formData, data);
    BaseValidMeans(m);
    Draft(m.name, m.description, m.category, m.discount, m.startDate.day, m.endDate.day,
          ImageFor(m.category), None, Some(selected))
  }

  /** The route's id is truthy: present and non-empty, as `if (id)` tests it. */
  predicate HasRouteId(id: Option<string>) {
    id.Some? && id.value != ""
  }

  /** What the load effect did: filled the form, or reported "not found" and
      navigated back to the list, or nothing (no record found and no truthy id). */
  datatype LoadOutcome = Populated(values: FormValues) | NotFound | NoRoute

  /** What a submit led to: validation messages, the move to step 2, the "select
      at least one product" error, an update of the given id with the payload, or
      nothing (no truthy id in the route). */
  datatype EditOutcome =
    | Rejected(errors: set<Field>)
    | Advanced
    | NoProductSelected
    | Updated(id: string, patch: Draft)
    | NoUpdate

  class EditWizard {
    var step: int
    var formData: Option<FormValues>
    var selectedCategory: string
    var selectedProducts: seq<string>

    /** The step is 1 or 2, and a snapshot is only ever taken of input that passed
        the schema, so its dates are ordered. */
    ghost predicate Valid()
      reads this
    {
      && (step == 1 || step == 2)
      && (formData.Some? ==> BaseValid(formData.value) && EndNotBeforeStart(formData.value))
    }

    constructor ()
      ensures Valid()
      ensures step == 1 && formData == None && selectedCategory == "" && selectedProducts == []
    {
      step := 1;
      formData := None;
      selectedCategory := "";
      selectedProducts := [];
    }

    /** The load effect, once the list is available: the first record with the route's
        id fills the form, the category and the selection (an absent selection
        becomes empty); a missing record is "not found" when the route's id is
        truthy, and nothing happens when it is empty. */
    method Load(promotions: seq<Promotion>, id: Option<string>) returns (outcome: LoadOutcome)
      requires Valid()
      modifies this
      ensures Valid()
      ensures step == old(step) && formData == old(formData)
      ensures id.None? ==>
                (outcome == NoRoute &&
                 selectedCategory == old(selectedCategory) && selectedProducts == old(selectedProducts))
      ensures id.Some? && IndexOfId(promotions, id.value).None? ==>
                (outcome == (if HasRouteId(id) then NotFound else NoRoute) &&
                 selectedCategory == old(selectedCategory) && selectedProducts == old(selectedProducts))
      ensures id.Some? && IndexOfId(promotions, id.value).Some? ==>
                var p := promotions[IndexOfId(promotions, id.value).value];
                outcome == Populated(ValuesOf(p)) &&
                selectedCategory == p.category &&
                selectedProducts == p.selectedProducts.GetOr([])
    {
      if id.None? {
        return NoRoute;
      }
      var found := IndexOfId(promotions, id.value);
      if found.None? {
        if id.value == "" {
          return NoRoute;
        }
        return NotFound;
      }
      var p := promotions[found.value];
      selectedCategory := p.category;
      selectedProducts := p.selectedProducts.GetOr([]);
      outcome := Populated(ValuesOf(p));
    }

    /** Step 1 to 2, snapshotting the values, only when they pass the edit schema. */
    method HandleNextStep(values: FormValues, today: Day)
      requires Valid()
      modifies this
      ensures Valid()
      ensures EditValid(values, today) ==> step == 2 && formData == Some(values)
      ensures !EditValid(values, today) ==> step == old(step) && formData == old(formData)
      ensures selectedCategory == old(selectedCategory) && selectedProducts == old(selectedProducts)
    {
      if EditErrors(values, today) == {} {
        EditValidMeans(values, today);
        formData := Some(values);
        step := 2;
      }
    }

    /** Back to step 1; the snapshot and the selection are kept. */
    method HandlePreviousStep()
      requires Valid()
      modifies this
      ensures Valid()
      ensures step == 1
      ensures formData == old(formData)
      ensures selectedCategory == old(selectedCategory) && selectedProducts == old(selectedProducts)
    {
      step := 1;
    }

    /** The category select's change handler: it sets the selected category and
        writes the same value into the form's category field (`values` are the
        form's values before, `updated` after). */
    method SelectCategory(category: string, values: FormValues) returns (updated: FormValues)
      requires Valid()
      modifies this
      ensures Valid()
      ensures selectedCategory == category && updated.category == category
      ensures updated == values.(category := category)
      ensures step == old(step) && formData == old(formData) && selectedProducts == old(selectedProducts)
    {
      selectedCategory := category;
      updated := values.(category := category);
    }

    method ToggleProductSelection(productId: string)
      requires Valid()
      modifies this
      ensures Valid()
      ensures selectedProducts == ToggleMulti(old(selectedProducts), productId)
      ensures step == old(step) && formData == old(formData) && selectedCategory == old(selectedCategory)
    {
      selectedProducts := if productId in selectedProducts then RemoveAll(selectedProducts, productId)
                          else selectedProducts + [productId];
    }

    /** The products step 2 offers: the selected category's catalog, empty for an
        unknown category. */
    function Catalog(): (products: seq<Product>)
      reads this
      ensures products == CatalogFor(selectedCategory)
      ensures selectedCategory in Categories ==> |products| == 4
      ensures selectedCategory !in Categories ==> products == []
    {
      CatalogFor(selectedCategory)
    }

    /** `handleSubmit(onSubmit)` with the form's current values `data`, today's date
        and the route's id. An update is issued only from step 2 with a non-empty
        selection and a truthy id; without one nothing happens, and its payload has ordered dates and the mapped image. */
    method Submit(data: FormValues, today: Day, id: Option<string>) returns (outcome: EditOutcome)
      requires Valid()
      modifies this
      ensures Valid()
      ensures !EditValid(data, today) ==> outcome == Rejected(EditErrors(data, today))
      ensures EditValid(data, today) && old(step) == 1 ==>
                outcome == Advanced && step == 2 && formData == Some(data)
      ensures EditValid(data, today) && old(step) == 2 && old(selectedProducts) == [] ==>
                outcome == NoProductSelected
      ensures outcome.Updated? <==>
                EditValid(data, today) && old(step) == 2 && old(selectedProducts) != [] && HasRouteId(id)
      ensures EditValid(data, today) && old(step) == 2 && old(selectedProducts) != [] && !HasRouteId(id) ==>
                outcome == NoUpdate
      ensures outcome.Updated? ==>
                outcome.id == id.value &&
                outcome.patch == EditPatch(old(formData), data, old(selectedProducts))
      ensures !outcome.Advanced? ==> step == old(step) && formData == old(formData)
      ensures selectedCategory == old(selectedCategory) && selectedProducts == old(selectedProducts)
    {
      var errors := EditErrors(data, today);
      if errors != {} {
        return Rejected(errors);
      }
      if step == 1 {
        HandleNextStep(data, today);
        return Advanced;
      }
      if |selectedProducts| == 0 {
        return NoProductSelected;
      }
      if id.None? || id.value == "" {
        return NoUpdate;
      }
      EditValidMeans(data, today);
      outcome := Updated(id.value, EditPatch(formData, data, selectedProducts));
    }
  }
}
