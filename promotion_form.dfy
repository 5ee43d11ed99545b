/** What the create and edit wizards share (each source file carries its own copy):
    the six form fields, the base validation schema, the category-to-image map,
    the product catalog, and the "snapshot value if truthy, else submitted value"
    rule used to assemble the payload. */
module PromotionForm {
  import opened Types
  import LocalStorageService
  import Promotions

  /** A date input: empty, or a calendar day. */
  datatype DateInput = Blank | On(day: Day)

  /** The six fields of step 1, as the form holds them. */
  datatype FormValues = FormValues(
    name: string,
    description: string,
    category: string,
    discount: int,
    startDate: DateInput,
    endDate: DateInput)

  /** A form field that can carry a validation message. */
  datatype Field = Name | Description | Category | Discount | StartDate | EndDate

  /** The fields the base schema rejects: each text field must be non-empty, the
      discount must lie in [1, 100], and both dates must be filled in. */
  function BaseErrors(v: FormValues): (errors: set<Field>)
    ensures Name in errors <==> v.name == ""
    ensures Description in errors <==> v.description == ""
    ensures Category in errors <==> v.category == ""
    ensures Discount in errors <==> v.discount < 1 || v.discount > 100
    ensures StartDate in errors <==> v.startDate.Blank?
    ensures EndDate in errors <==> v.endDate.Blank?
  {
    (if v.name == "" then {Name} else {})
    + (if v.description == "" then {Description} else {})
    + (if v.category == "" then {Category} else {})
    + (if v.discount < 1 || v.discount > 100 then {Discount} else {})
    + (if v.startDate.Blank? then {StartDate} else {})
    + (if v.endDate.Blank? then {EndDate} else {})
  }

  predicate BaseValid(v: FormValues) {
    BaseErrors(v) == {}
  }

  /** A form that passes the base schema describes a well-formed promotion, except
      that nothing orders its two dates. */
  lemma BaseValidMeans(v: FormValues)
    ensures BaseValid(v) <==>
              v.name != "" && v.description != "" && v.category != "" &&
              1 <= v.discount <= 100 && v.startDate.On? && v.endDate.On?
  {
    if !BaseValid(v) {
      var f :| f in BaseErrors(v);
    }
  }

  /** The discount bounds are inclusive: 1 and 100 pass, 0 and 101 fail. */
  lemma DiscountBoundaries(v: FormValues)
    ensures Discount !in BaseErrors(v.(discount := 1))
    ensures Discount !in BaseErrors(v.(discount := 100))
    ensures Discount in BaseErrors(v.(discount := 0))
    ensures Discount in BaseErrors(v.(discount := 101))
  {
  }

  // ---- category image and catalog ----

  const DogProducts := "dog-products"
  const CatProducts := "cat-products"

  const ImageMap: map<string, string> := map[
    "alimento" := DogProducts,
    "juguetes" := CatProducts,
    "cuidado" := DogProducts,
    "accesorios" := CatProducts
  ]

  /** `imageMap[category] || 'dog-products'`: cat products for toys and accessories,
      dog products for every other string that is not an inherited `Object.prototype`
      member name. */
  function ImageFor(category: string): (image: string)
    ensures image == CatProducts <==> category == "juguetes" || category == "accesorios"
    ensures image == DogProducts <==> !(category == "juguetes" || category == "accesorios")
  {
    if category in ImageMap then ImageMap[category] else DogProducts
  }

  /** A catalog entry; the price is kept in cents. */
  datatype Product = Product(id: string, name: string, priceCents: int)

  /** The four categories offered by the category select. */
  const Categories: set<string> := {"alimento", "juguetes", "cuidado", "accesorios"}

  const ProductsByCategory: map<string, seq<Product>> := map[
    "alimento" := [
      Product("1", "Alimento Premium para Perros", 4599),
      Product("2", "Alimento para Gatos Adultos", 3250),
      Product("3", "Snacks Naturales", 1575),
      Product("4", "Alimento para Cachorros", 3890)],
    "juguetes" := [
      Product("5", "Pelota de Goma", 1299),
      Product("6", "Rascador para Gatos", 8999),
      Product("7", "Cuerda para Perros", 1850),
      Product("8", "Ratón de Peluche", 875)],
    "cuidado" := [
      Product("9", "Champú para Mascotas", 2499),
      Product("10", "Cepillo Dental", 1650),
      Product("11", "Toallitas Húmedas", 1225),
      Product("12", "Cortaúñas Profesional", 3500)],
    "accesorios" := [
      Product("13", "Collar Ajustable", 2299),
      Product("14", "Correa Retráctil", 4550),
      Product("15", "Cama Acolchada", 7500),
      Product("16", "Bebedero Automático", 8999)]
  ]

  /** `productsByCategory[category] || []`: four products for each of the four
      categories, nothing for any other string. */
  function CatalogFor(category: string): (products: seq<Product>)
    ensures category !in Categories ==> products == []
    ensures category in Categories ==> |products| == 4
  {
    if category in ProductsByCategory then ProductsByCategory[category] else []
  }

  /** The ids of a list of products. */
  function ProductIds(products: seq<Product>): set<string> {
    set p | p in products :: p.id
  }

  /** The product ids each category's catalog offers. */
  lemma CatalogIds(category: string)
    ensures category == "alimento" ==> ProductIds(CatalogFor(category)) == {"1", "2", "3", "4"}
    ensures category == "juguetes" ==> ProductIds(CatalogFor(category)) == {"5", "6", "7", "8"}
    ensures category == "cuidado" ==> ProductIds(CatalogFor(category)) == {"9", "10", "11", "12"}
    ensures category == "accesorios" ==> ProductIds(CatalogFor(category)) == {"13", "14", "15", "16"}
    ensures category !in Categories ==> ProductIds(CatalogFor(category)) == {}
  {
    if category in Categories {
      var ps := CatalogFor(category);
      assert ProductIds(ps) == {ps[0].id, ps[1].id, ps[2].id, ps[3].id} by {
        forall p | p in ps ensures p == ps[0] || p == ps[1] || p == ps[2] || p == ps[3] {
          var i :| 0 <= i < |ps| && ps[i] == p;
        }
      }
    }
  }

  /** Two different category strings never offer a common product, so the category
      alone decides which products step 2 shows. */
  lemma CatalogsDisjoint(a: string, b: string)
    requires a != b
    ensures ProductIds(CatalogFor(a)) !! ProductIds(CatalogFor(b))
  {
    if a in Categories && b in Categories {
      CatalogGroups(a);
      CatalogGroups(b);
      assert GroupOf(a) != GroupOf(b);
    } else {
      CatalogIds(a);
      CatalogIds(b);
    }
  }

  /** Every id in a category's catalog belongs to that category's group. */
  lemma CatalogGroups(category: string)
    requires category in Categories
    ensures forall x :: x in ProductIds(CatalogFor(category)) ==> Group(x) == GroupOf(category)
  {
    assert "alimento"[0] != "juguetes"[0] && "alimento"[0] != "cuidado"[0] && "juguetes"[0] != "cuidado"[0];
    var ps := CatalogFor(category);
    forall x | x in ProductIds(ps) ensures Group(x) == GroupOf(category) {
      var i :| 0 <= i < |ps| && ps[i].id == x;
    }
  }

  /** Which category an id of the catalog belongs to, read off its digits. */
  function Group(id: string): int {
    if |id| == 1 then (if '1' <= id[0] <= '4' then 0 else if '5' <= id[0] <= '8' then 1 else 2)
    else if |id| == 2 && '0' <= id[1] <= '2' then 2
    else 3
  }

  function GroupOf(category: string): int {
    if category == "alimento" then 0
    else if category == "juguetes" then 1
    else if category == "cuidado" then 2
    else 3
  }

  // ---- payload assembly ----

  /** `formData.f || data.f` for every field: the snapshot's value when it is truthy
      (non-empty text, non-zero discount, a filled-in date), the submitted value
      otherwise; with no snapshot, the submitted values. */
  function Merge(snapshot: Option<FormValues>, data: FormValues): (m: FormValues)
    ensures snapshot.None? ==> m == data
    ensures snapshot.Some? && BaseValid(snapshot.value) ==> m == snapshot.value
    ensures BaseValid(data) && (snapshot.Some? ==> BaseValid(snapshot.value)) ==> BaseValid(m)
  {
    match snapshot
    case None => data
    case Some(s) =>
      FormValues(
        if s.name != "" then s.name else data.name,
        if s.description != "" then s.description else data.description,
        if s.category != "" then s.category else data.category,
        if s.discount != 0 then s.discount else data.discount,
        if s.startDate.On? then s.startDate else data.startDate,
        if s.endDate.On? then s.endDate else data.endDate)
  }

  // ---- seed data against the forms ----

  /** A record as the forms would produce it: active, a discount in range, ordered
      dates, the mapped image, and selected products from its own category. */
  predicate FormConsistent(p: Promotion) {
    && p.isActive == Some(true)
    && 1 <= p.discount <= 100
    && p.startDate <= p.endDate
    && p.image == ImageFor(p.category)
    && p.selectedProducts.Some?
    && (forall id :: id in p.selectedProducts.value ==> id in ProductIds(CatalogFor(p.category)))
  }

  /** Both promotions the service seeds agree with the forms. */
  lemma ServiceSeedsFormConsistent()
    ensures forall p :: p in LocalStorageService.SamplePromotions ==> FormConsistent(p)
  {
    var a := LocalStorageService.SamplePromotions[0];
    var b := LocalStorageService.SamplePromotions[1];
    assert CatalogFor(a.category)[0].id == "1" && CatalogFor(a.category)[1].id == "2";
    assert CatalogFor(b.category)[0].id == "5" && CatalogFor(b.category)[1].id == "6";
    assert FormConsistent(a);
    assert FormConsistent(b);
  }

  /** The hook's samples spell their categories with a capital, which neither the
      catalog nor the image map knows: their catalogs are empty, and the second
      record's stored image differs from the one its category maps to. */
  lemma HookSeedsOutsideCatalog()
    ensures forall p :: p in Promotions.HookSamples ==> CatalogFor(p.category) == []
    ensures Promotions.HookSamples[1].image != ImageFor(Promotions.HookSamples[1].category)
  {
    assert Promotions.HookSamples[1].category == "Juguetes";
    assert "Juguetes" != "juguetes" by { assert "Juguetes"[0] != "juguetes"[0]; }
    assert "Juguetes" != "accesorios" by { assert "Juguetes"[0] != "accesorios"[0]; }
  }
}
