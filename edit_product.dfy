/** src/pages/EditProduct/EditProduct.jsx: the admin form that edits an
    existing product. The categories and the product are fetched together;
    the form is filled from the product, with the category name turned into
    the matching category's id. Toasts are left out; the request body is
    recorded in a ghost log. */
module EditProduct {
  import opened Common
  import opened Entities
  import opened ProductForm

  const LoadError := "Could not load product information. It may have been deleted."

  /** The product as `GET /api/products/{productId}` returns it; fields the
      response lacks are `Undefined`. */
  datatype ProductRecord = ProductRecord(
    name: JsValue, description: JsValue, categoryName: Option<string>, price: JsValue,
    imageUrl: JsValue, originalPrice: JsValue, inStock: JsValue, isNew: JsValue, onSale: JsValue)

  /** `categories.find(c => c.name === categoryName)` */
  function FindByName(categories: seq<Category>, name: Option<string>): (r: Option<int>)
    ensures r.Some? ==> 0 <= r.value < |categories| && name == Some(categories[r.value].name)
    ensures r.Some? ==> forall j :: 0 <= j < r.value ==> Some(categories[j].name) != name
    ensures r.None? ==> forall j :: 0 <= j < |categories| ==> Some(categories[j].name) != name
  {
    if categories == [] then None
    else if name == Some(categories[0].name) then Some(0)
    else
      var rest := FindByName(categories[1..], name);
      if rest.Some? then Some(rest.value + 1) else None
  }

  /** `i` is the index of the first category called `name`. */
  predicate IsFirstNamed(categories: seq<Category>, name: Option<string>, i: int)
  {
    0 <= i < |categories| && Some(categories[i].name) == name &&
    forall j :: 0 <= j < i ==> Some(categories[j].name) != name
  }

  /** `find(...)?.id || ''`: the id of the first category with that name,
      or the empty string when there is none or its id is 0. */
  function CategoryIdFor(categories: seq<Category>, name: Option<string>): (v: JsValue)
    ensures v == Str("") || v.Num?
    ensures v.Num? ==> v.n != 0 && exists i :: 0 <= i < |categories| && categories[i].id == v.n && Some(categories[i].name) == name
    ensures forall i :: IsFirstNamed(categories, name, i) ==>
              v == (if categories[i].id != 0 then Num(categories[i].id) else Str(""))
  {
    var found := FindByName(categories, name);
    if found.Some? && categories[found.value].id != 0 then Num(categories[found.value].id) else Str("")
  }

  /** A product whose category is not in the list gets an empty category
      field, which `parseInt` then receives on submit. */
  lemma UnknownCategoryIsEmpty(categories: seq<Category>, name: Option<string>)
    requires forall j :: 0 <= j < |categories| ==> Some(categories[j].name) != name
    ensures CategoryIdFor(categories, name) == Str("")
  {
  }

  /** The form built from the fetched product: exactly the nine fields, each
      copied from the product, except the category, which is looked up. */
  function FormFromProduct(p: ProductRecord, categories: seq<Category>): (f: Form)
    ensures f.Keys == {"name", "description", "categoryId", "price", "imageUrl", "originalPrice", "inStock", "isNew", "onSale"}
    ensures f["name"] == p.name && f["description"] == p.description && f["price"] == p.price
    ensures f["imageUrl"] == p.imageUrl && f["originalPrice"] == p.originalPrice
    ensures f["inStock"] == p.inStock && f["isNew"] == p.isNew && f["onSale"] == p.onSale
    ensures f["categoryId"] == CategoryIdFor(categories, p.categoryName)
  {
    map["name" := p.name, "description" := p.description,
        "categoryId" := CategoryIdFor(categories, p.categoryName),
        "price" := p.price, "imageUrl" := p.imageUrl, "originalPrice" := p.originalPrice,
        "inStock" := p.inStock, "isNew" := p.isNew, "onSale" := p.onSale]
  }

  /** The outcome of the paired fetch: both responses, or a failure of either. */
  datatype LoadResult = LoadFailed | Loaded(categories: seq<Category>, product: ProductRecord)

  /** What the page renders. */
  datatype View = Loader | ErrorView(message: string) | Blank | FormView(form: Form)

  class EditPage {
    var formData: Option<Form>
    var categories: seq<Category>
    var loading: bool
    var pageLoading: bool
    var error: Option<string>
    ghost var navigations: seq<Route>
    ghost var sent: seq<Form>

    constructor ()
      ensures formData == None && categories == [] && !loading && pageLoading && error == None
      ensures navigations == [] && sent == []
    {
      formData, categories, loading, pageLoading, error := None, [], false, true, None;
      navigations, sent := [], [];
    }

    /** The render: a loader while the page loads, then the error, then
        nothing without form data, then the form. */
    function CurrentView(): (v: View)
      reads this
      ensures v.FormView? <==> !pageLoading && error.None? && formData.Some?
      ensures v.FormView? ==> v.form == formData.value
      ensures v == Loader <==> pageLoading
    {
      if pageLoading then Loader
      else if error.Some? then ErrorView(error.value)
      else if formData.None? then Blank
      else FormView(formData.value)
    }

    /** `fetchData` after its requests: on success the categories are set
        and the form is filled from the product; on failure the error is set
        and the form stays empty, so only the error renders. The page
        loader is off on every path. */
    method EndLoad(response: LoadResult)
      modifies this`formData, this`categories, this`pageLoading, this`error
      ensures !pageLoading
      ensures response.Loaded? ==>
        categories == response.categories && error == old(error) &&
        formData == Some(FormFromProduct(response.product, response.categories))
      ensures response.LoadFailed? ==>
        categories == old(categories) && formData == old(formData) && error == Some(LoadError)
      ensures response.LoadFailed? ==> CurrentView() == ErrorView(LoadError)
    {
      if response.Loaded? {
        categories := response.categories;
        formData := Some(FormFromProduct(response.product, response.categories));
      } else {
        error := Some(LoadError);
      }
      pageLoading := false;
    }

    /** `handleChange` on one input; spreading a `null` form gives `{}`. */
    method Change(name: string, isCheckbox: bool, value: string, checked: bool)
      modifies this`formData
      ensures formData.Some?
      ensures formData.value == HandleChange(if old(formData).Some? then old(formData).value else map[], name, isCheckbox, value, checked)
    {
      var prev := if formData.Some? then formData.value else map[];
      formData := Some(HandleChange(prev, name, isCheckbox, value, checked));
    }

    /** `handleSubmit` up to its request: loading is on and the payload is
        sent. The submit button exists only while the form is shown. */
    method BeginSubmit(parseFloat: JsValue -> JsValue, parseInt: JsValue -> JsValue)
      requires formData.Some?
      modifies this`loading, this`sent
      ensures loading
      ensures sent == old(sent) + [Payload(formData.value, parseFloat, parseInt)]
    {
      loading := true;
      sent := sent + [Payload(formData.value, parseFloat, parseInt)];
    }

    /** `handleSubmit` after its request: back to the product list on
        success; loading is off on every path. */
    method EndSubmit(success: bool)
      modifies this`loading, this`navigations
      ensures !loading
      ensures navigations == old(navigations) + (if success then [AdminList] else [])
    {
      if success {
        navigations := navigations + [AdminList];
      }
      loading := false;
    }
  }
}
