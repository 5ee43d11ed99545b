/** The two-step "create promotion" wizard (src/pages/admin/CreatePromotion.tsx):
    step 1 validates the six fields against the base schema only, step 2 picks a
    single product, and a successful submit hands a draft to the promotions hook. */
module CreatePromotion {
  import opened Types
  import opened PromotionForm
  import Promotions

  /** Clicking a product: the selected one is cleared to `""`, any other replaces it,
      so at most the clicked product is selected afterwards. */
  function ToggleSingle(selected: string, productId: string): (r: string)
    ensures r == "" || r == productId
    ensures r == "" <==> productId == selected || productId == ""
  {
    if productId == selected then "" else productId
  }

  /** Clicking the same product twice is not an undo: it ends with that product
      selected when it was selected before, and with nothing selected otherwise
      (a previous choice of another product is lost). */
  lemma ToggleSingleTwice(selected: string, productId: string)
    ensures ToggleSingle(ToggleSingle(selected, productId), productId) ==
              if selected == productId then productId else ""
  {
  }

  /** The draft handed to `addPromotion`: the merged form fields and the image of
      their category. It carries neither `isActive` nor any selected product. */
  function CreateDraft(formData: Option<FormValues>, data: FormValues): (d: Draft)
    requires BaseValid(data)
    requires formData.Some? ==> BaseValid(formData.value)
    ensures d.name != "" && d.description != "" && d.category != ""
    ensures 1 <= d.discount <= 100
    ensures d.image == ImageFor(d.category)
    ensures d.isActive == None && d.selectedProducts == None
    ensures var src := formData.GetOr(data);
            d.name == src.name && d.description == src.description &&
            d.category == src.category && d.discount == src.discount &&
            On(d.startDate) == src.startDate && On(d.endDate) == src.endDate
  {
    var m := Merge(formData, data);
    BaseValidMeans(m);
    Draft(m.name, m.description, m.category, m.discount, m.startDate.day, m.endDate.day,
          ImageFor(m.category), None, None)
  }

  /** Unlike the edit form, creation accepts an end date before the start date. */
  lemma CreateAcceptsReversedDates()
    ensures BaseValid(FormValues("Test", "d", "alimento", 50, On(10), On(9)))
  {
  }

  /** What a submit led to: validation messages, the move to step 2, the "select a
      product" error, or a created promotion (followed by navigation to the list). */
  datatype CreateOutcome =
    | Rejected(errors: set<Field>)
    | Advanced
    | NoProductSelected
    | Created(draft: Draft)

  class CreateWizard {
    var step: int
    var formData: Option<FormValues>
    var selectedCategory: string
    var selectedProduct: string
    const promotions: Promotions.PromotionsHook

    /** The step is 1 or 2, and a snapshot is only ever taken of valid input. */
    ghost predicate Valid()
      reads this
    {
      (step == 1 || step == 2) && (formData.Some? ==> BaseValid(formData.value))
    }

    constructor (promotions: Promotions.PromotionsHook)
      ensures Valid()
      ensures step == 1 && formData == None && selectedCategory == "" && selectedProduct == ""
      ensures this.promotions == promotions
    {
      step := 1;
      formData := None;
      selectedCategory := "";
      selectedProduct := "";
      this.promotions := promotions;
    }

    /** Step 1 to 2, snapshotting the values, only when they pass the schema. */
    method HandleNextStep(values: FormValues)
      requires Valid()
      modifies this
      ensures Valid()
      ensures BaseValid(values) ==> step == 2 && formData == Some(values)
      ensures !BaseValid(values) ==> step == old(step) && formData == old(formData)
      ensures selectedCategory == old(selectedCategory) && selectedProduct == old(selectedProduct)
    {
      if BaseErrors(values) == {} {
        formData := Some(values);
        step := 2;
      }
    }

    /** Back to step 1; the snapshot and the selection are kept. */
    method HandlePreviousStep()
      requires Valid()
      modifies this
      ensures Valid()
      ensures step == 1
      ensures formData == old(formData)
      ensures selectedCategory == old(selectedCategory) && selectedProduct == old(selectedProduct)
    {
      step := 1;
    }

    /** The category select's change handler: it sets the selected category and
        writes the same value into the form's category field (`values` are the
        form's values before, `updated` after). */
    method SelectCategory(category: string, values: FormValues) returns (updated: FormValues)
      requires Valid()
      modifies this
      ensures Valid()
      ensures selectedCategory == category && updated.category == category
      ensures updated == values.(category := category)
      ensures step == old(step) && formData == old(formData) && selectedProduct == old(selectedProduct)
    {
      selectedCategory := category;
      updated := values.(category := category);
    }

    method ToggleProductSelection(productId: string)
      requires Valid()
      modifies this
      ensures Valid()
      ensures selectedProduct == ToggleSingle(old(selectedProduct), productId)
      ensures step == old(step) && formData == old(formData) && selectedCategory == old(selectedCategory)
    {
      selectedProduct := if productId == selectedProduct then "" else productId;
    }

    /** The products step 2 offers: the catalog of the snapshot's category, or of the
        selected category when the snapshot has none; empty for an unknown one. */
    function Catalog(): (products: seq<Product>)
      reads this
      ensures var c := if formData.Some? && formData.value.category != "" then formData.value.category
                       else selectedCategory;
              products == CatalogFor(c) &&
              (c in Categories ==> |products| == 4) && (c !in Categories ==> products == [])
    {
      CatalogFor(if formData.Some? && formData.value.category != "" then formData.value.category
                 else selectedCategory)
    }

    /** `handleSubmit(onSubmit)` with the form's current values `data`; `clockId` is
        the id the clock supplies. The promotions hook is called at most once, and
        only from step 2 with a product selected. */
    method Submit(data: FormValues, clockId: string) returns (outcome: CreateOutcome)
      requires Valid()
      modifies this, promotions, promotions.store
      ensures Valid()
      ensures !BaseValid(data) ==> outcome == Rejected(BaseErrors(data))
      ensures BaseValid(data) && old(step) == 1 ==>
                outcome == Advanced && step == 2 && formData == Some(data)
      ensures BaseValid(data) && old(step) == 2 && old(selectedProduct) == "" ==>
                outcome == NoProductSelected
      ensures outcome.Created? <==>
                BaseValid(data) && old(step) == 2 && old(selectedProduct) != ""
      ensures outcome.Created? ==>
                outcome.draft == CreateDraft(old(formData), data) &&
                promotions.promotions == old(promotions.promotions) + [Stamp(outcome.draft, clockId)] &&
                promotions.store.slots ==
                  old(promotions.store.slots).(promotions := Some(promotions.promotions))
      ensures !outcome.Created? ==>
                promotions.promotions == old(promotions.promotions) &&
                promotions.store.slots == old(promotions.store.slots)
      ensures !outcome.Advanced? ==> step == old(step) && formData == old(formData)
      ensures selectedCategory == old(selectedCategory) && selectedProduct == old(selectedProduct)
    {
      var errors := BaseErrors(data);
      if errors != {} {
        return Rejected(errors);
      }
      if step == 1 {
        HandleNextStep(data);
        return Advanced;
      }
      if selectedProduct == "" {
        return NoProductSelected;
      }
      var draft := CreateDraft(formData, data);
      promotions.AddPromotion(draft, clockId);
      outcome := Created(draft);
    }
  }
}
