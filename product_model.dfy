/**
 * The product schema: which documents the store accepts and the default it
 * fills in (backend/src/models/Product.js).
 */
module ProductModel {
  import opened Wrappers

  /** The five menu categories the schema's enum admits. */
  const Categories: seq<string> := ["PARES", "GOTO", "SOLO", "ADD-ONS", "DRINKS"]

  /** A stored product; `id` is the document's `_id`. Prices are whole pesos. */
  datatype Product = Product(id: string, name: string, price: int, category: string, isActive: bool)

  /** A product document before validation: every field may be absent. */
  datatype ProductFields = ProductFields(
    name: Option<string>,
    price: Option<int>,
    category: Option<string>,
    isActive: Option<bool>)

  /**
   * What the schema guarantees of a created product: a non-empty name and a
   * category from the enum. The price has no lower bound.
   */
  predicate ValidProduct(p: Product)
  {
    p.name != "" && p.category in Categories
  }

  /**
   * The schema paths whose validators reject `f`. A required string rejects
   * an absent or empty value; a required number rejects only an absent one;
   * the enum rejects any category outside the five.
   */
  function FailingPaths(f: ProductFields): set<string>
  {
    (if f.name.None? || f.name.value == "" then {"name"} else {})
    + (if f.price.None? then {"price"} else {})
    + (if f.category.None? || f.category.value !in Categories then {"category"} else {})
  }

  /**
   * Validates `f` and applies the `isActive` default, producing the product
   * stored under `id`, or the failing paths.
   */
  function NewProduct(id: string, f: ProductFields): (r: Result<Product, set<string>>)
    ensures r.Success? <==>
      f.name.Some? && f.name.value != "" && f.price.Some?
      && f.category.Some? && f.category.value in Categories
    ensures r.Success? ==>
      ValidProduct(r.value) && r.value.id == id
      && r.value.name == f.name.value && r.value.price == f.price.value
      && r.value.category == f.category.value
    ensures r.Success? ==> (r.value.isActive <==> f.isActive != Some(false))
    ensures r.Failure? ==> r.error != {} && r.error <= {"name", "price", "category"}
    ensures r.Failure? ==>
      ("name" in r.error <==> f.name.None? || f.name.value == "")
      && ("price" in r.error <==> f.price.None?)
      && ("category" in r.error <==> f.category.None? || f.category.value !in Categories)
  {
    var paths := FailingPaths(f);
    if paths == {} then
      Success(Product(id, f.name.value, f.price.value, f.category.value, f.isActive.GetOr(true)))
    else
      Failure(paths)
  }
}
