/**
 * The product-management page (frontend/src/pages/AdminProducts.jsx): the
 * ordering of the fetched list, the search box, the category badge colours,
 * the add/edit form and the request it submits.
 */
module AdminProducts {
  import opened Wrappers
  import opened Text
  import opened ProductModel
  import opened ProductController

  const ProductsUrl: string := "http://localhost:5000/api/products"

  /*
   * The list ordering: by category, and by name within one category.
   */

  /** `a` may stand before `b`: the comparator's result is not positive. */
  predicate AdminLe(a: Product, b: Product)
  {
    if a.category == b.category then StrLe(a.name, b.name) else StrLe(a.category, b.category)
  }

  lemma AdminLeTotal(a: Product, b: Product)
    ensures AdminLe(a, b) || AdminLe(b, a)
  {
    StrLeTotal(a.name, b.name);
    StrLeTotal(a.category, b.category);
  }

  lemma AdminLeTransitive(a: Product, b: Product, c: Product)
    requires AdminLe(a, b) && AdminLe(b, c)
    ensures AdminLe(a, c)
  {
    if a.category == b.category && b.category == c.category {
      StrLeTransitive(a.name, b.name, c.name);
    } else if a.category != b.category && b.category != c.category {
      StrLeTransitive(a.category, b.category, c.category);
      if a.category == c.category {
        StrLeAntisymmetric(b.category, c.category);
      }
    }
  }

  /** Every earlier product may stand before every later one. */
  predicate SortedAdmin(s: seq<Product>)
  {
    forall i, j :: 0 <= i < j < |s| ==> AdminLe(s[i], s[j])
  }

  /** Each product may stand before its successor. */
  predicate NeighboursSorted(s: seq<Product>)
  {
    forall k :: 0 < k < |s| ==> AdminLe(s[k - 1], s[k])
  }

  lemma {:induction false} NeighboursSortedIsSorted(s: seq<Product>)
    requires NeighboursSorted(s)
    ensures SortedAdmin(s)
  {
    if |s| > 1 {
      NeighboursSortedIsSorted(s[1..]);
      forall j | 1 < j < |s| ensures AdminLe(s[0], s[j]) {
        assert AdminLe(s[1..][0], s[1..][j - 1]);
        AdminLeTransitive(s[0], s[1], s[j]);
      }
      forall i, j | 0 < i < j < |s| ensures AdminLe(s[i], s[j]) {
        assert AdminLe(s[1..][i - 1], s[1..][j - 1]);
      }
    }
  }

  /** In a sorted list the products of one category stand together. */
  lemma CategoriesContiguous(s: seq<Product>, i: int, j: int, k: int)
    requires SortedAdmin(s)
    requires 0 <= i < j < k < |s| && s[i].category == s[k].category
    ensures s[j].category == s[i].category
  {
    assert AdminLe(s[i], s[j]) && AdminLe(s[j], s[k]);
    if s[j].category != s[i].category {
      StrLeAntisymmetric(s[i].category, s[j].category);
    }
  }

  /** Within one category a sorted list is ordered by name. */
  lemma NamesOrderedWithinCategory(s: seq<Product>, i: int, j: int)
    requires SortedAdmin(s)
    requires 0 <= i < j < |s| && s[i].category == s[j].category
    ensures StrLe(s[i].name, s[j].name)
  {
    assert AdminLe(s[i], s[j]);
  }

  /** Neighbours up to position `i` are in order, except possibly the pair ending at `j`. */
  predicate SortedExcept(s: seq<Product>, i: int, j: int)
    requires i < |s|
  {
    forall k :: 0 < k <= i && k != j ==> AdminLe(s[k - 1], s[k])
  }

  /** The products either side of position `j` are in order. */
  predicate Bridged(s: seq<Product>, i: int, j: int)
    requires 0 <= j <= i < |s|
  {
    0 < j < i ==> AdminLe(s[j - 1], s[j + 1])
  }

  /** Swapping an out-of-order pair moves the exception one place to the left. */
  lemma SwapStep(s: seq<Product>, i: int, j: int)
    requires 0 < j <= i < |s|
    requires SortedExcept(s, i, j) && Bridged(s, i, j) && !AdminLe(s[j - 1], s[j])
    ensures var t := s[j - 1 := s[j]][j := s[j - 1]];
      SortedExcept(t, i, j - 1) && Bridged(t, i, j - 1) && multiset(t) == multiset(s)
  {
    AdminLeTotal(s[j - 1], s[j]);
  }

  /**
   * `data.sort(...)` with the category-then-name comparator, in place. The
   * engine's algorithm is not part of this model; an insertion sort by
   * neighbour swaps stands in for it.
   */
  method SortProducts(a: array<Product>)
    modifies a
    ensures SortedAdmin(a[..])
    ensures multiset(a[..]) == multiset(old(a[..]))
  {
    var i := 0;
    while i < a.Length
      invariant 0 <= i <= a.Length
      invariant SortedExcept(a[..], i - 1, -1) || i == 0
      invariant multiset(a[..]) == multiset(old(a[..]))
    {
      SiftLeft(a, i);
      i := i + 1;
    }
    assert NeighboursSorted(a[..]) by {
      if a.Length > 0 {
        assert SortedExcept(a[..], a.Length - 1, -1);
      }
    }
    NeighboursSortedIsSorted(a[..]);
  }

  /** Moves `a[i]` left past every neighbour that must follow it, extending the sorted prefix by one. */
  method SiftLeft(a: array<Product>, i: int)
    requires 0 <= i < a.Length
    requires SortedExcept(a[..], i - 1, -1) || i == 0
    modifies a
    ensures SortedExcept(a[..], i, -1)
    ensures multiset(a[..]) == multiset(old(a[..]))
  {
    var j := i;
    while j > 0 && !AdminLe(a[j - 1], a[j])
      invariant 0 <= j <= i
      invariant SortedExcept(a[..], i, j) && Bridged(a[..], i, j)
      invariant multiset(a[..]) == multiset(old(a[..]))
    {
      SwapStep(a[..], i, j);
      a[j - 1], a[j] := a[j], a[j - 1];
      j := j - 1;
    }
  }

  /*
   * The search box.
   */

  /** The search matches a product: its lower-cased name or category contains the lower-cased term. */
  predicate Matches(p: Product, search: string)
  {
    Contains(Lower(p.name), Lower(search)) || Contains(Lower(p.category), Lower(search))
  }

  /** `r` lists some of the elements of `s`, in the order they have in `s`. */
  predicate Subsequence(r: seq<Product>, s: seq<Product>)
  {
    r == [] || (s != [] && ((r[0] == s[0] && Subsequence(r[1..], s[1..])) || Subsequence(r, s[1..])))
  }

  /** `filteredProducts`: the products the search matches, in list order. */
  function FilteredProducts(products: seq<Product>, search: string): (r: seq<Product>)
    ensures Subsequence(r, products)
    ensures forall p :: multiset(r)[p] == if Matches(p, search) then multiset(products)[p] else 0
  {
    if products == [] then []
    else
      var rest := FilteredProducts(products[1..], search);
      assert products == [products[0]] + products[1..];
      if Matches(products[0], search) then [products[0]] + rest else rest
  }

  /** An empty search box shows every product. */
  lemma {:induction false} EmptySearchKeepsAll(products: seq<Product>)
    ensures FilteredProducts(products, "") == products
  {
    if products != [] {
      ContainsEmpty(Lower(products[0].name));
      EmptySearchKeepsAll(products[1..]);
    }
  }

  /** The search ignores the case of the term. */
  lemma {:induction false} SearchIgnoresCase(products: seq<Product>, search: string)
    ensures FilteredProducts(products, Lower(search)) == FilteredProducts(products, search)
  {
    LowerIdempotent(search);
    if products != [] {
      SearchIgnoresCase(products[1..], search);
    }
  }

  /** Filtering a concatenation filters each part. */
  lemma {:induction false} FilterAppend(a: seq<Product>, b: seq<Product>, search: string)
    ensures FilteredProducts(a + b, search) == FilteredProducts(a, search) + FilteredProducts(b, search)
  {
    if a == [] {
      assert a + b == b;
    } else {
      assert (a + b)[1..] == a[1..] + b;
      FilterAppend(a[1..], b, search);
    }
  }

  /*
   * The category badge.
   */

  function CategoryBadgeColor(cat: string): (color: string)
    ensures cat in Categories <==> color != "#6b7280"
  {
    match cat
    case "PARES" => "#2563eb"
    case "GOTO" => "#16a34a"
    case "SOLO" => "#f97316"
    case "ADD-ONS" => "#7c3aed"
    case "DRINKS" => "#0ea5e9"
    case _ => "#6b7280"
  }

  /** The five categories wear five different colours. */
  lemma BadgeColorsDistinct(c: string, d: string)
    requires c in Categories && d in Categories && c != d
    ensures CategoryBadgeColor(c) != CategoryBadgeColor(d)
  {
  }

  /*
   * The add/edit form and what it submits.
   */

  /**
   * The form's fields. The price box holds what was typed: None stands for
   * the empty box, which `Number` turns into 0.
   */
  datatype Form = Form(name: string, price: Option<int>, category: string, isActive: bool)

  const BlankForm: Form := Form("", None, "PARES", true)

  /** The form `handleEdit` fills from a product. */
  function FormOf(p: Product): Form
  {
    Form(p.name, Some(p.price), p.category, p.isActive)
  }

  datatype Verb = Post | Put

  datatype Request = Request(verb: Verb, url: string, body: ProductFields)

  /** `editingId ? ...`: a missing or empty id counts as not editing. */
  predicate Editing(editingId: Option<string>)
  {
    editingId.Some? && editingId.value != ""
  }

  /** The payload: the form's fields, with the price converted to a number. */
  function Payload(form: Form): (body: ProductFields)
    ensures body.name == Some(form.name) && body.category == Some(form.category)
    ensures body.price == Some(form.price.GetOr(0))
    ensures body.isActive == Some(form.isActive)
  {
    ProductFields(Some(form.name), Some(form.price.GetOr(0)), Some(form.category), Some(form.isActive))
  }

  /** `handleSubmit`'s request: PUT to the product's own URL when editing, else POST to the collection. */
  function SubmitRequest(form: Form, editingId: Option<string>): (r: Request)
    ensures r.verb == Put <==> Editing(editingId)
    ensures r.verb == Put ==> r.url == ProductsUrl + "/" + editingId.value
    ensures r.verb == Post ==> r.url == ProductsUrl
    ensures r.body == Payload(form)
  {
    if Editing(editingId) then Request(Put, ProductsUrl + "/" + editingId.value, Payload(form))
    else Request(Post, ProductsUrl, Payload(form))
  }

  /** The id a PUT URL addresses. */
  function IdOf(url: string): Option<string>
  {
    var prefix := ProductsUrl + "/";
    if |url| > |prefix| && url[..|prefix|] == prefix then Some(url[|prefix|..]) else None
  }

  /** A PUT request addresses the product being edited, and a POST addresses none. */
  lemma RequestAddressesEditedProduct(form: Form, editingId: Option<string>)
    ensures IdOf(SubmitRequest(form, editingId).url) ==
            if Editing(editingId) then editingId else None
  {
    var prefix := ProductsUrl + "/";
    var url := SubmitRequest(form, editingId).url;
    if Editing(editingId) {
      assert url[..|prefix|] == prefix;
      assert url[|prefix|..] == editingId.value;
    } else {
      assert |url| < |prefix|;
    }
  }

  /** Saving a product's own form unchanged leaves the stored product as it was. */
  lemma EditRoundTrip(p: Product)
    ensures Revised(p, SubmitRequest(FormOf(p), Some(p.id)).body) == p
    ensures RevisedWithStatus(p, SubmitRequest(FormOf(p), Some(p.id)).body) == p
  {
  }

  /**
   * As written, switching "Available in POS" off and saving does not
   * deactivate the product: the update ignores the payload's `isActive`.
   */
  lemma DeactivationIgnored(p: Product)
    requires p.isActive
    ensures SubmitRequest(FormOf(p).(isActive := false), Some(p.id)).body.isActive == Some(false)
    ensures Revised(p, SubmitRequest(FormOf(p).(isActive := false), Some(p.id)).body).isActive
  {
  }

  /** With the status-aware update, saving the form stores exactly the form's fields. */
  lemma SaveAppliesForm(p: Product, form: Form)
    ensures RevisedWithStatus(p, SubmitRequest(form, Some(p.id)).body)
         == Product(p.id, form.name, form.price.GetOr(0), form.category, form.isActive)
  {
  }

  /** The form's state: its fields, the product being edited and whether the modal shows. */
  class ProductEditor {
    var form: Form
    var editingId: Option<string>
    var showModal: bool

    constructor ()
      ensures form == BlankForm && editingId == None && !showModal
    {
      form := BlankForm;
      editingId := None;
      showModal := false;
    }

    /** openAddModal: a blank form, nothing being edited. */
    method OpenAddModal()
      modifies this
      ensures form == BlankForm && editingId == None && showModal
    {
      editingId := None;
      form := BlankForm;
      showModal := true;
    }

    /** handleEdit: the product's id and its four fields. */
    method HandleEdit(p: Product)
      modifies this
      ensures form == FormOf(p) && editingId == Some(p.id) && showModal
    {
      editingId := Some(p.id);
      form := FormOf(p);
      showModal := true;
    }

    /** closeModal: hides the modal and forgets the edited id; the fields stay. */
    method CloseModal()
      modifies this
      ensures !showModal && editingId == None && form == old(form)
    {
      showModal := false;
      editingId := None;
    }

    method SetName(name: string)
      modifies this`form
      ensures form == old(form).(name := name)
    {
      form := form.(name := name);
    }

    method SetPrice(price: Option<int>)
      modifies this`form
      ensures form == old(form).(price := price)
    {
      form := form.(price := price);
    }

    method SetCategory(category: string)
      modifies this`form
      ensures form == old(form).(category := category)
    {
      form := form.(category := category);
    }

    /** The "Available in POS" switch. */
    method ToggleActive()
      modifies this`form
      ensures form == old(form).(isActive := !old(form).isActive)
    {
      form := form.(isActive := !form.isActive);
    }

    /**
     * handleSubmit: the request it sends, and on an ok reply the modal
     * closes; on an error reply the state stays as it was.
     */
    method Submit(ok: bool) returns (sent: Request)
      modifies this
      ensures sent == SubmitRequest(old(form), old(editingId))
      ensures ok ==> !showModal && editingId == None && form == old(form)
      ensures !ok ==> showModal == old(showModal) && editingId == old(editingId) && form == old(form)
    {
      sent := SubmitRequest(form, editingId);
      if ok {
        CloseModal();
      }
    }
  }

  /** Opening a product for edit and saving it unchanged sends a PUT that changes nothing. */
  method EditAndSave(e: ProductEditor, p: Product) returns (sent: Request)
    requires p.id != ""
    modifies e
    ensures sent.verb == Put && IdOf(sent.url) == Some(p.id)
    ensures Revised(p, sent.body) == p
    ensures !e.showModal && e.editingId == None
  {
    e.HandleEdit(p);
    sent := e.Submit(true);
    RequestAddressesEditedProduct(FormOf(p), Some(p.id));
    EditRoundTrip(p);
  }
}
