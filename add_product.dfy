/** src/pages/AddProduct/AddProduct.jsx: the admin form that creates a
    product. Toasts are left out; the request body is recorded in a ghost
    log. */
module AddProduct {
  import opened Common
  import opened Entities
  import opened ProductForm

  /** The text fields of the empty form. */
  const TextFields := ["name", "description", "categoryId", "price", "imageUrl", "originalPrice"]

  /** `initialState`: every text field empty, in stock, new, not on sale. */
  function InitialState(): (f: Form)
    ensures f.Keys == set k | k in TextFields + ["inStock", "isNew", "onSale"]
    ensures forall k :: k in TextFields ==> Get(f, k) == Str("")
    ensures Get(f, "inStock") == Bool(true) && Get(f, "isNew") == Bool(true) && Get(f, "onSale") == Bool(false)
  {
    map["name" := Str(""), "description" := Str(""), "categoryId" := Str(""), "price" := Str(""),
        "imageUrl" := Str(""), "originalPrice" := Str(""),
        "inStock" := Bool(true), "isNew" := Bool(true), "onSale" := Bool(false)]
  }

  /** Submitting the untouched form sends the parsed empty price as both prices. */
  lemma InitialPayloadFallsBack(parseFloat: JsValue -> JsValue, parseInt: JsValue -> JsValue)
    ensures Payload(InitialState(), parseFloat, parseInt)["originalPrice"] == parseFloat(Str(""))
    ensures Payload(InitialState(), parseFloat, parseInt)["inStock"] == Bool(true)
  {
    assert "originalPrice" in TextFields;
    assert "price" in TextFields;
  }

  class AddPage {
    var formData: Form
    var categories: seq<Category>
    var loading: bool
    ghost var navigations: seq<Route>
    ghost var sent: seq<Form>

    constructor ()
      ensures formData == InitialState() && categories == [] && !loading
      ensures navigations == [] && sent == []
    {
      formData, categories, loading := InitialState(), [], false;
      navigations, sent := [], [];
    }

    /** `fetchCategories`: the list is set on success; a failure leaves it as it was. */
    method FetchCategories(response: Option<seq<Category>>)
      modifies this`categories
      ensures categories == if response.Some? then response.value else old(categories)
    {
      if response.Some? {
        categories := response.value;
      }
    }

    /** `handleChange` on one input. */
    method Change(name: string, isCheckbox: bool, value: string, checked: bool)
      modifies this`formData
      ensures formData == HandleChange(old(formData), name, isCheckbox, value, checked)
      ensures forall k :: k != name ==> Get(formData, k) == Get(old(formData), k)
    {
      formData := HandleChange(formData, name, isCheckbox, value, checked);
    }

    /** `handleSubmit` up to its request: loading is on and the payload is posted. */
    method BeginSubmit(parseFloat: JsValue -> JsValue, parseInt: JsValue -> JsValue)
      modifies this`loading, this`sent
      ensures loading
      ensures sent == old(sent) + [Payload(formData, parseFloat, parseInt)]
    {
      loading := true;
      sent := sent + [Payload(formData, parseFloat, parseInt)];
    }

    /** `handleSubmit` after its request: go to the product list on success;
        loading is off on every path. */
    method EndSubmit(success: bool)
      modifies this`loading, this`navigations
      ensures !loading
      ensures navigations == old(navigations) + (if success then [AdminList] else [])
    {
      if success {
        navigations := navigations + [AdminList];
      }
      loading := false;
    }
  }
}
