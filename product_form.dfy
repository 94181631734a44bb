/** The product form shared in shape by src/pages/AddProduct/AddProduct.jsx
    and src/pages/EditProduct/EditProduct.jsx: a JavaScript object of
    fields, the `handleChange` update and the payload sent on submit.
    `parseFloat` and `parseInt(_, 10)` are parameters: the model does not
    parse numbers. */
module ProductForm {
  /** The JavaScript values a form field can hold. Numbers are kept as
      integers (cents for prices); NaN is not represented. */
  datatype JsValue = Str(s: string) | Num(n: int) | Bool(b: bool) | Undefined | Null

  /** JavaScript truthiness of a field value. */
  predicate Truthy(v: JsValue)
  {
    match v
    case Str(s) => s != ""
    case Num(n) => n != 0
    case Bool(b) => b
    case Undefined => false
    case Null => false
  }

  /** The form object, field name to value. */
  type Form = map<string, JsValue>

  /** Reading a field; an absent one is `undefined`. */
  function Get(form: Form, name: string): (v: JsValue)
    ensures name !in form ==> v == Undefined
    ensures name in form ==> v == form[name]
  {
    if name in form then form[name] else Undefined
  }

  /** `{...prev, [name]: type === 'checkbox' ? checked : value}`: only the
      named field changes, to the box's state for a checkbox and to the text
      otherwise. */
  function HandleChange(prev: Form, name: string, isCheckbox: bool, value: string, checked: bool): (r: Form)
    ensures r.Keys == prev.Keys + {name}
    ensures isCheckbox ==> r[name] == Bool(checked)
    ensures !isCheckbox ==> r[name] == Str(value)
    ensures forall k :: k != name ==> Get(r, k) == Get(prev, k)
  {
    prev[name := if isCheckbox then Bool(checked) else Str(value)]
  }

  /** The submitted payload: the form with `price` parsed as a float,
      `originalPrice` parsed when it is truthy and otherwise replaced by the
      parsed price, and `categoryId` parsed as a base-10 integer. */
  function Payload(form: Form, parseFloat: JsValue -> JsValue, parseInt: JsValue -> JsValue): (r: Form)
    ensures r.Keys == form.Keys + {"price", "originalPrice", "categoryId"}
    ensures r["price"] == parseFloat(Get(form, "price"))
    ensures Truthy(Get(form, "originalPrice")) ==> r["originalPrice"] == parseFloat(Get(form, "originalPrice"))
    ensures !Truthy(Get(form, "originalPrice")) ==> r["originalPrice"] == r["price"]
    ensures r["categoryId"] == parseInt(Get(form, "categoryId"))
    ensures forall k :: k != "price" && k != "originalPrice" && k != "categoryId" ==> Get(r, k) == Get(form, k)
  {
    var price := parseFloat(Get(form, "price"));
    var original := Get(form, "originalPrice");
    form["price" := price]
        ["originalPrice" := if Truthy(original) then parseFloat(original) else price]
        ["categoryId" := parseInt(Get(form, "categoryId"))]
  }

  /** Leaving the original price empty sends the price as the original price. */
  lemma EmptyOriginalPriceFallsBack(form: Form, parseFloat: JsValue -> JsValue, parseInt: JsValue -> JsValue)
    requires Get(form, "originalPrice") == Str("")
    ensures Payload(form, parseFloat, parseInt)["originalPrice"] == parseFloat(Get(form, "price"))
  {
  }
}
