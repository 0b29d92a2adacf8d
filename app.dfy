/**
  The request handlers of the product service, each a read-only query over
  the catalog. The catalog is passed in as `cat`; the service passes the
  literal `Store.Products`. HTTP routing and JSON serialisation are not
  modelled: a handler returns a `Response`, and `Status` and `ErrorPayload`
  give the status code and the body of an error response.
 */
module App {
  import opened Ascii
  import opened Catalog

  /** The outcome of a lookup: a success, or one of the two error kinds. */
  datatype Response<T> =
    | Ok(body: T)
    | CategoryNotFound(availableCategories: seq<string>)
    | ProductNotFound

  /** The HTTP status: 200 for a success, 404 for either error. */
  function Status<T>(r: Response<T>): (code: int)
    ensures r.Ok? ==> code == 200
    ensures !r.Ok? ==> code == 404
  {
    if r.Ok? then 200 else 404
  }

  /** A list of strings as a JSON array. */
  function StrValues(ss: seq<string>): (vs: seq<Value>)
    ensures |vs| == |ss|
    ensures forall i :: 0 <= i < |ss| ==> vs[i] == Str(ss[i])
  {
    if ss == [] then [] else [Str(ss[0])] + StrValues(ss[1..])
  }

  const ErrorField: string := "error"
  const AvailableField: string := "available_categories"

  /** The JSON body sent with a 404. */
  function ErrorPayload<T>(r: Response<T>): (body: map<string, Value>)
    requires !r.Ok?
    ensures ErrorField in body && body[ErrorField].Str?
    ensures AvailableField in body <==> r.CategoryNotFound?
    ensures r.CategoryNotFound? ==> body.Keys == {ErrorField, AvailableField}
    ensures r.CategoryNotFound? ==> body[ErrorField] == Str("Category not found")
    ensures r.CategoryNotFound? ==> body[AvailableField] == Arr(StrValues(r.availableCategories))
    ensures r.ProductNotFound? ==> body == map[ErrorField := Str("Product not found")]
  {
    match r
    case CategoryNotFound(keys) =>
      map[ErrorField := Str("Category not found"), AvailableField := Arr(StrValues(keys))]
    case ProductNotFound =>
      map[ErrorField := Str("Product not found")]
  }

  /** There are exactly two error outcomes, both 404, told apart by their
      message; only "category not found" lists the valid keys. */
  lemma ErrorOutcomes<T, U>(r1: Response<T>, r2: Response<U>)
    requires !r1.Ok? && !r2.Ok?
    ensures Status(r1) == 404 && Status(r2) == 404
    ensures ErrorPayload(r1)[ErrorField] == ErrorPayload(r2)[ErrorField]
        <==> r1.CategoryNotFound? == r2.CategoryNotFound?
  {
  }

  // ---------------------------------------------------------------- GET /products

  /** Every product of every category, tagged with its category. */
  method GetAllProducts(cat: Catalog) returns (all: seq<Product>)
    ensures all == Flatten(cat)
  {
    all := [];
    for i := 0 to |cat|
      invariant all == Flatten(cat[..i])
    {
      var (category, categoryProducts) := cat[i];
      for j := 0 to |categoryProducts|
        invariant all == Flatten(cat[..i]) + TagAll(categoryProducts[..j], category)
      {
        var productWithCategory := Tag(categoryProducts[j], category);
        all := all + [productWithCategory];
        assert categoryProducts[..j + 1][..j] == categoryProducts[..j];
      }
      assert cat[..i + 1][..i] == cat[..i];
      assert categoryProducts[..|categoryProducts|] == categoryProducts;
    }
    assert cat[..|cat|] == cat;
  }

  // ------------------------------------------------------ GET /products/<category>

  /** `products[key]`: the products stored under a catalog key. */
  function ProductsUnder(cat: Catalog, key: string): (ps: seq<Product>)
    requires key in Keys(cat)
    ensures exists j :: 0 <= j < |cat| && cat[j].0 == key && ps == cat[j].1
  {
    cat[Find(cat, key).value].1
  }

  lemma ProductsUnderKey(cat: Catalog, j: nat)
    requires DistinctKeys(cat) && j < |cat|
    ensures cat[j].0 in Keys(cat)
    ensures ProductsUnder(cat, cat[j].0) == cat[j].1
  {
  }

  /** Listing a stored (lower-case) key tags that key's own products. */
  lemma ListStoredKey(cat: Catalog, j: nat)
    requires DistinctKeys(cat) && j < |cat| && IsLowerCase(cat[j].0)
    ensures ProductsByCategory(cat, cat[j].0) == Ok(TagAll(cat[j].1, cat[j].0))
  {
    LowerOfLowerCase(cat[j].0);
    ProductsUnderKey(cat, j);
  }

  /** The specification of `GetProductsByCategory`. */
  function ProductsByCategory(cat: Catalog, category: string): (r: Response<seq<Product>>)
    ensures !r.ProductNotFound?
    ensures r.CategoryNotFound? <==> Lower(category) !in Keys(cat)
    ensures r.CategoryNotFound? ==> r.availableCategories == Keys(cat)
    ensures r.Ok? ==> (
      && Lower(category) in Keys(cat)
      && |r.body| == |ProductsUnder(cat, Lower(category))|
      && forall i :: 0 <= i < |r.body| ==>
           r.body[i] == Tag(ProductsUnder(cat, Lower(category))[i], Lower(category)))
  {
    var key := Lower(category);
    if key !in Keys(cat) then CategoryNotFound(Keys(cat))
    else Ok(TagAll(ProductsUnder(cat, key), key))
  }

  /** The products of one category, tagged with the lower-cased category. */
  method GetProductsByCategory(cat: Catalog, category: string) returns (r: Response<seq<Product>>)
    ensures r == ProductsByCategory(cat, category)
  {
    var key := Lower(category);
    if key !in Keys(cat) {
      return CategoryNotFound(Keys(cat));
    }
    var stored := ProductsUnder(cat, key);
    var categoryProducts := [];
    for j := 0 to |stored|
      invariant categoryProducts == TagAll(stored[..j], key)
    {
      var productWithCategory := Tag(stored[j], key);
      categoryProducts := categoryProducts + [productWithCategory];
      assert stored[..j + 1][..j] == stored[..j];
    }
    assert stored[..|stored|] == stored;
    return Ok(categoryProducts);
  }

  /** Listing category `j` gives exactly the slice of the all-products listing
      that holds category `j`. */
  lemma {:induction false} ListingIsSliceOfAll(cat: Catalog, j: nat)
    requires DistinctKeys(cat) && j < |cat| && IsLowerCase(cat[j].0)
    ensures Offset(cat, j) <= Offset(cat, j + 1) <= |Flatten(cat)|
    ensures ProductsByCategory(cat, cat[j].0) == Ok(Flatten(cat)[Offset(cat, j)..Offset(cat, j + 1)])
  {
    var key, ps := cat[j].0, cat[j].1;
    var lo, hi := Offset(cat, j), Offset(cat, j + 1);
    assert hi == lo + |ps| by {
      OffsetNext(cat, j);
    }
    assert hi <= |Flatten(cat)| by {
      ListedCategoryFitsInAll(cat, j);
    }
    assert ProductsByCategory(cat, key) == Ok(TagAll(ps, key)) by {
      ListStoredKey(cat, j);
    }
    var slice := Flatten(cat)[lo..hi];
    assert TagAll(ps, key) == slice by {
      forall k | 0 <= k < |ps|
        ensures TagAll(ps, key)[k] == slice[k]
      {
        FlattenAt(cat, j, k);
      }
    }
  }

  lemma {:induction false} ListedCategoryFitsInAll(cat: Catalog, j: nat)
    requires j < |cat|
    ensures Offset(cat, j + 1) <= |Flatten(cat)|
    decreases |cat|
  {
    var n := |cat| - 1;
    OffsetNext(cat, j);
    if j < n {
      var init := cat[..n];
      assert init[..j + 1] == cat[..j + 1];
      ListedCategoryFitsInAll(init, j);
      assert Flatten(cat) == Flatten(init) + TagAll(cat[n].1, cat[n].0);
    } else {
      assert cat[..j + 1] == cat;
    }
  }

  // --------------------------------------------- GET /product/<category>/<id>

  /** A single product by category and id: the first one in declaration order. */
  function ProductById(cat: Catalog, category: string, id: int): (r: Response<Product>)
    ensures r.CategoryNotFound? <==> Lower(category) !in Keys(cat)
    ensures r.CategoryNotFound? ==> r.availableCategories == Keys(cat)
    ensures r.ProductNotFound? <==> (
      && Lower(category) in Keys(cat)
      && forall k :: 0 <= k < |ProductsUnder(cat, Lower(category))| ==>
           !HasId(ProductsUnder(cat, Lower(category))[k], id))
    ensures r.Ok? ==> HasId(r.body, id) && CategoryField in r.body && r.body[CategoryField] == Str(Lower(category))
    ensures r.Ok? ==> (
      && Lower(category) in Keys(cat)
      && var ps := ProductsUnder(cat, Lower(category));
         exists k :: 0 <= k < |ps| && r.body == Tag(ps[k], Lower(category))
           && HasId(ps[k], id) && forall i :: 0 <= i < k ==> !HasId(ps[i], id))
  {
    var key := Lower(category);
    if key !in Keys(cat) then CategoryNotFound(Keys(cat))
    else
      var ps := ProductsUnder(cat, key);
      match FindProduct(ps, id)
      case None => ProductNotFound
      case Some(k) => Ok(Tag(ps[k], key))
  }

  /** Looking up a stored key searches that key's own products only. */
  lemma LookupStoredKey(cat: Catalog, j: nat, id: int)
    requires DistinctKeys(cat) && j < |cat| && IsLowerCase(cat[j].0)
    ensures ProductById(cat, cat[j].0, id) ==
      match FindProduct(cat[j].1, id)
      case None => ProductNotFound
      case Some(k) => Ok(Tag(cat[j].1[k], cat[j].0))
  {
    LowerOfLowerCase(cat[j].0);
    ProductsUnderKey(cat, j);
  }

  /** An id lookup never leaks across categories: what it returns is one of
      the entries that listing the same category returns; and it reports
      "product not found" exactly when no entry of that listing has the id. */
  lemma FoundProductIsListed(cat: Catalog, category: string, id: int)
    ensures ProductById(cat, category, id).Ok? ==>
      ProductById(cat, category, id).body in ProductsByCategory(cat, category).body
    ensures ProductById(cat, category, id).ProductNotFound? <==>
      ProductsByCategory(cat, category).Ok? &&
      forall p :: p in ProductsByCategory(cat, category).body ==> !HasId(p, id)
  {
  }

  // ------------------------------------------------------------ GET /categories

  datatype CategoryList = CategoryList(categories: seq<string>, count: int)

  /** The category keys in declaration order, with their number. */
  function Categories(cat: Catalog): (r: CategoryList)
    ensures r.count == |r.categories| == |cat|
    ensures forall i :: 0 <= i < |cat| ==> r.categories[i] == cat[i].0
  {
    CategoryList(Keys(cat), |cat|)
  }

  // --------------------------------------------------------------- case folding

  /** Two spellings with the same lower-case form get identical answers. */
  lemma CaseInsensitive(cat: Catalog, a: string, b: string, id: int)
    requires Lower(a) == Lower(b)
    ensures ProductsByCategory(cat, a) == ProductsByCategory(cat, b)
    ensures ProductById(cat, a, id) == ProductById(cat, b, id)
  {
  }

  // ---------------------------------------------------- GET / and GET /health

  /** The service description; its category list is written out by hand. */
  function Home(): (r: map<string, Value>)
    ensures r.Keys == {"message", "version", "endpoints", "available_categories"}
    ensures r["endpoints"].Obj? && |r["endpoints"].fields| == 6
    ensures r["available_categories"].Arr? && |r["available_categories"].items| == 3
  {
    map[
      "message" := Str("Product API"),
      "version" := Str("1.0.0"),
      "endpoints" := Obj(map[
        "home" := Str("/"),
        "all_products" := Str("/products"),
        "products_by_category" := Str("/products/<category>"),
        "specific_product" := Str("/product/<category>/<id>"),
        "categories" := Str("/categories"),
        "health" := Str("/health")
      ]),
      "available_categories" := Arr([Str("tv"), Str("mobile"), Str("laptop")])
    ]
  }

  function Health(): (r: map<string, Value>)
    ensures r.Keys == {"status"} && r["status"] == Str("healthy")
  {
    map["status" := Str("healthy")]
  }
}
