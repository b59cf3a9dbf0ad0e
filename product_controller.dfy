/**
 * The product endpoints as operations on the product collection
 * (backend/src/controllers/productController.js): create, list the active
 * products by name, update by id and delete by id.
 */
module ProductController {
  import opened Wrappers
  import opened Text
  import opened ProductModel

  /**
   * Why the store refused a request: schema validation, an `_id` already
   * taken, or any other error of the store, carried as its message.
   */
  datatype Fault = Invalid(paths: set<string>) | DuplicateKey(id: string) | StoreError(message: string)

  /** The JSON reply of each endpoint. */
  datatype CatalogReply =
    | Created(product: Product)
    | Listed(products: seq<Product>)
    | Updated(product: Product)
    | NotFound
    | Deleted
    | ServerError(fault: Fault)
  {
    function Status(): int
    {
      match this
      case Created(_) => 201
      case NotFound => 404
      case ServerError(_) => 500
      case _ => 200
    }

    /** The `message` field of the replies that carry one. */
    function Message(): Option<string>
    {
      match this
      case NotFound => Some("Product not found")
      case Deleted => Some("Product deleted")
      case _ => None
    }
  }

  /** Ascending by name, as `sort({ name: 1 })` orders strings. */
  predicate SortedByName(s: seq<Product>)
  {
    forall i, j :: 0 <= i < j < |s| ==> StrLe(s[i].name, s[j].name)
  }

  /** `x` sorts no later than any element of `s`. */
  predicate LeadsByName(x: Product, s: seq<Product>)
  {
    forall i :: 0 <= i < |s| ==> StrLe(x.name, s[i].name)
  }

  lemma LeadsSorted(x: Product, s: seq<Product>)
    requires SortedByName(s) && (s == [] || StrLe(x.name, s[0].name))
    ensures LeadsByName(x, s)
  {
    forall i | 0 <= i < |s| ensures StrLe(x.name, s[i].name) {
      if i > 0 { StrLeTransitive(x.name, s[0].name, s[i].name); }
    }
  }

  lemma LeadsPermutation(x: Product, p: Product, t: seq<Product>, r: seq<Product>)
    requires multiset(r) == multiset{p} + multiset(t)
    requires StrLe(x.name, p.name) && LeadsByName(x, t)
    ensures LeadsByName(x, r)
  {
    forall i | 0 <= i < |r| ensures StrLe(x.name, r[i].name) {
      assert r[i] in multiset(r);
      if r[i] != p {
        assert r[i] in multiset(t);
        var j :| 0 <= j < |t| && t[j] == r[i];
      }
    }
  }

  /** A product leading a name-sorted list may go in front of it. */
  lemma ConsSortedByName(x: Product, s: seq<Product>)
    requires SortedByName(s) && LeadsByName(x, s)
    ensures SortedByName([x] + s)
  {
    forall i, j | 0 <= i < j < |[x] + s| ensures StrLe(([x] + s)[i].name, ([x] + s)[j].name) {
      if i > 0 {
        assert ([x] + s)[i] == s[i - 1];
      }
      assert ([x] + s)[j] == s[j - 1];
    }
  }

  /** Inserts `p` into a name-sorted list. */
  function InsertByName(p: Product, s: seq<Product>): (r: seq<Product>)
    requires SortedByName(s)
    ensures SortedByName(r)
    ensures multiset(r) == multiset{p} + multiset(s)
  {
    if s == [] then [p]
    else if StrLe(p.name, s[0].name) then
      LeadsSorted(p, s);
      ConsSortedByName(p, s);
      [p] + s
    else
      var rest := InsertByName(p, s[1..]);
      StrLeTotal(p.name, s[0].name);
      LeadsSorted(s[0], s[1..]);
      LeadsPermutation(s[0], p, s[1..], rest);
      ConsSortedByName(s[0], rest);
      assert s == [s[0]] + s[1..];
      [s[0]] + rest
  }

  /** A name-ordered permutation of `s`: the order the store returns. */
  function SortByName(s: seq<Product>): (r: seq<Product>)
    ensures SortedByName(r)
    ensures multiset(r) == multiset(s)
  {
    if s == [] then []
    else
      assert s == [s[0]] + s[1..];
      InsertByName(s[0], SortByName(s[1..]))
  }

  /**
   * The document after an update that sets `{ name, price, category }` from
   * the body: a field the body lacks keeps its value, and the update never
   * touches `_id` or `isActive`. The schema's validators do not run on it.
   */
  function Revised(was: Product, body: ProductFields): Product
  {
    was.(name := body.name.GetOr(was.name),
         price := body.price.GetOr(was.price),
         category := body.category.GetOr(was.category))
  }

  /** Revised, with `isActive` also taken from the body when it carries one. */
  function RevisedWithStatus(was: Product, body: ProductFields): Product
  {
    Revised(was, body).(isActive := body.isActive.GetOr(was.isActive))
  }

  /** Whatever the body says, Revised leaves the availability as it was. */
  lemma RevisedKeepsStatus(was: Product, body: ProductFields)
    ensures Revised(was, body).isActive == was.isActive
    ensures Revised(was, body).id == was.id
  {
  }

  /** RevisedWithStatus takes the availability from the body when present. */
  lemma RevisedWithStatusSetsStatus(was: Product, body: ProductFields)
    ensures RevisedWithStatus(was, body).isActive == body.isActive.GetOr(was.isActive)
    ensures RevisedWithStatus(was, body).id == was.id
    ensures body.isActive.None? ==> RevisedWithStatus(was, body) == Revised(was, body)
  {
  }

  /** The product collection, keyed by `_id`. */
  class Catalog {
    var products: map<string, Product>

    /** Every document is stored under its own `_id`. */
    ghost predicate Valid()
      reads this
    {
      forall id :: id in products ==> products[id].id == id
    }

    constructor ()
      ensures Valid() && products == map[]
    {
      products := map[];
    }

    /**
     * createProduct: name, price and category come from the body, `isActive`
     * is always true. A document the schema rejects, any other error of the
     * store (`dbError`, carried as its message) or an `_id` already in use
     * becomes a 500 reply and nothing is stored.
     */
    method CreateProduct(body: ProductFields, newId: string, dbError: Option<string>) returns (reply: CatalogReply)
      requires Valid()
      modifies this
      ensures Valid()
      ensures var made := NewProduct(newId, body.(isActive := Some(true)));
        if made.Failure? then
          reply == ServerError(Invalid(made.error)) && products == old(products)
        else if dbError.Some? then
          reply == ServerError(StoreError(dbError.value)) && products == old(products)
        else if newId in old(products) then
          reply == ServerError(DuplicateKey(newId)) && products == old(products)
        else
          reply == Created(made.value) && made.value.isActive
          && products == old(products)[newId := made.value]
      ensures reply.Created? ==> reply.Status() == 201 && ValidProduct(reply.product)
    {
      var made := NewProduct(newId, ProductFields(body.name, body.price, body.category, Some(true)));
      assert body.(isActive := Some(true)) == ProductFields(body.name, body.price, body.category, Some(true));
      if made.Failure? {
        reply := ServerError(Invalid(made.error));
      } else if dbError.Some? {
        reply := ServerError(StoreError(dbError.value));
      } else if newId in products {
        reply := ServerError(DuplicateKey(newId));
      } else {
        products := products[newId := made.value];
        reply := Created(made.value);
      }
    }

    /**
     * getProducts: exactly the active products, each once, ordered by name.
     * `dbError` is the error the query raises, if any; it becomes a 500
     * reply carrying its message.
     */
    method GetProducts(dbError: Option<string>) returns (reply: CatalogReply)
      requires Valid()
      ensures dbError.Some? ==> reply == ServerError(StoreError(dbError.value)) && reply.Status() == 500
      ensures dbError.None? ==> reply.Listed? && reply.Status() == 200
      ensures reply.Listed? ==> SortedByName(reply.products)
      ensures reply.Listed? ==>
        forall p :: multiset(reply.products)[p] == if p in products.Values && p.isActive then 1 else 0
    {
      if dbError.Some? {
        return ServerError(StoreError(dbError.value));
      }
      var keys := products.Keys;
      var active: seq<Product> := [];
      while keys != {}
        invariant keys <= products.Keys
        invariant forall p :: multiset(active)[p] ==
                              if p.id in products.Keys - keys && products[p.id] == p && p.isActive then 1 else 0
        decreases keys
      {
        var k :| k in keys;
        if products[k].isActive {
          active := active + [products[k]];
        }
        keys := keys - {k};
      }
      reply := Listed(SortByName(active));
      forall p: Product ensures (p.id in products && products[p.id] == p) <==> p in products.Values {
        if p in products.Values {
          var k :| k in products && products[k] == p;
        }
      }
    }

    /**
     * updateProduct: replaces name, price and category of the product `id`
     * (a field absent from the body keeps its value); `isActive` and every
     * other product stay as they were. A missing id replies 404; an error
     * of the store (`dbError`) replies 500 with its message and changes nothing.
     */
    method UpdateProduct(id: string, body: ProductFields, dbError: Option<string>) returns (reply: CatalogReply)
      requires Valid()
      modifies this
      ensures Valid()
      ensures dbError.Some? ==> reply == ServerError(StoreError(dbError.value)) && products == old(products)
      ensures dbError.None? && id !in old(products) ==> reply == NotFound && products == old(products)
      ensures dbError.None? && id in old(products) ==>
        var now := Revised(old(products)[id], body);
        reply == Updated(now) && products == old(products)[id := now]
      ensures reply.Updated? ==> reply.product.isActive == old(products)[id].isActive
      ensures reply == NotFound ==> reply.Status() == 404 && reply.Message() == Some("Product not found")
    {
      if dbError.Some? {
        reply := ServerError(StoreError(dbError.value));
      } else if id !in products {
        reply := NotFound;
      } else {
        var now := Revised(products[id], body);
        products := products[id := now];
        reply := Updated(now);
      }
    }

    /**
     * The update as the admin form evidently expects it: like UpdateProduct,
     * but a body carrying `isActive` also sets the availability.
     */
    method UpdateProductWithStatus(id: string, body: ProductFields, dbError: Option<string>)
      returns (reply: CatalogReply)
      requires Valid()
      modifies this
      ensures Valid()
      ensures dbError.Some? ==> reply == ServerError(StoreError(dbError.value)) && products == old(products)
      ensures dbError.None? && id !in old(products) ==> reply == NotFound && products == old(products)
      ensures dbError.None? && id in old(products) ==>
        var now := RevisedWithStatus(old(products)[id], body);
        reply == Updated(now) && products == old(products)[id := now]
    {
      if dbError.Some? {
        reply := ServerError(StoreError(dbError.value));
      } else if id !in products {
        reply := NotFound;
      } else {
        var now := RevisedWithStatus(products[id], body);
        products := products[id := now];
        reply := Updated(now);
      }
    }

    /**
     * deleteProduct: removes the document if there is one and replies
     * "Product deleted" either way, so deleting twice is deleting once.
     * An error of the store (`dbError`) replies 500 with its message and
     * removes nothing.
     */
    method DeleteProduct(id: string, dbError: Option<string>) returns (reply: CatalogReply)
      requires Valid()
      modifies this
      ensures Valid()
      ensures dbError.Some? ==> reply == ServerError(StoreError(dbError.value)) && products == old(products)
      ensures dbError.None? ==>
        reply == Deleted && reply.Message() == Some("Product deleted") && products == old(products) - {id}
    {
      if dbError.Some? {
        reply := ServerError(StoreError(dbError.value));
      } else {
        products := products - {id};
        reply := Deleted;
      }
    }
  }

  /** Deleting the same id a second time leaves the collection as the first delete did. */
  method DeleteTwice(c: Catalog, id: string)
    requires c.Valid()
    modifies c
    ensures c.products == old(c.products) - {id}
  {
    var first := c.DeleteProduct(id, None);
    var second := c.DeleteProduct(id, None);
    assert first == second;
  }
}
