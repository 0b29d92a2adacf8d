/**
  The catalog store: an insertion-ordered mapping from category key to the
  ordered sequence of product records declared under it, and the read-only
  queries the request handlers run against it.
 */
module Catalog {
  import opened Ascii

  /** The values a product record holds, as they appear in the JSON responses.
      A decimal price is kept as its literal text: no arithmetic is done on it. */
  datatype Value =
    | Bool(b: bool)
    | Int(i: int)
    | Num(text: string)
    | Str(s: string)
    | Arr(items: seq<Value>)
    | Obj(fields: map<string, Value>)

  /** A product record is a dictionary from field name to value. */
  type Product = map<string, Value>

  /** Category keys in declaration order, each with its products in declaration order. */
  type Catalog = seq<(string, seq<Product>)>

  datatype Option<T> = None | Some(value: T)

  const CategoryField: string := "category"
  const IdField: string := "id"

  /** The response form of a stored product: a copy of it with one more field,
      `category`, set to the key it was found under. */
  function Tag(p: Product, category: string): (r: Product)
    ensures r.Keys == p.Keys + {CategoryField}
    ensures r[CategoryField] == Str(category)
    ensures forall k :: k in p && k != CategoryField ==> r[k] == p[k]
  {
    p[CategoryField := Str(category)]
  }

  /** Every product of `ps`, in order, tagged with `category`. */
  function TagAll(ps: seq<Product>, category: string): (r: seq<Product>)
    ensures |r| == |ps|
    ensures forall i :: 0 <= i < |ps| ==> r[i] == Tag(ps[i], category)
  {
    if ps == [] then [] else TagAll(ps[..|ps| - 1], category) + [Tag(ps[|ps| - 1], category)]
  }

  /** The category keys, in declaration order. */
  function Keys(cat: Catalog): (ks: seq<string>)
    ensures |ks| == |cat|
    ensures forall i :: 0 <= i < |cat| ==> ks[i] == cat[i].0
  {
    if cat == [] then [] else Keys(cat[..|cat| - 1]) + [cat[|cat| - 1].0]
  }

  /** A dictionary never holds one key twice. */
  predicate DistinctKeys(cat: Catalog) {
    forall i, j :: 0 <= i < j < |cat| ==> cat[i].0 != cat[j].0
  }

  /** What the stored catalog always satisfies: keys are distinct and lower case
      (the handlers lower-case their input before the lookup), and every product
      has an integer `id`. */
  predicate WellFormed(cat: Catalog) {
    && DistinctKeys(cat)
    && (forall i :: 0 <= i < |cat| ==> IsLowerCase(cat[i].0))
    && (forall i, k :: 0 <= i < |cat| && 0 <= k < |cat[i].1| ==>
          IdField in cat[i].1[k] && cat[i].1[k][IdField].Int?)
  }

  /** Where `key` sits in the catalog: `key in products` and `products[key]`. */
  function Find(cat: Catalog, key: string): (r: Option<nat>)
    ensures r.None? <==> key !in Keys(cat)
    ensures r.Some? ==> r.value < |cat| && cat[r.value].0 == key
    ensures r.Some? ==> forall j :: 0 <= j < r.value ==> cat[j].0 != key
  {
    if cat == [] then None
    else if cat[0].0 == key then Some(0)
    else match Find(cat[1..], key)
      case None => None
      case Some(i) => Some(i + 1)
  }

  lemma FindDistinct(cat: Catalog, j: nat)
    requires DistinctKeys(cat)
    requires j < |cat|
    ensures Find(cat, cat[j].0) == Some(j)
  {
  }

  /** Whether `p` carries the identifier `id`. */
  predicate HasId(p: Product, id: int)
    ensures HasId(p, id) ==> IdField in p && p[IdField].Int? && p[IdField].i == id
    ensures IdField !in p ==> !HasId(p, id)
    ensures IdField in p && p[IdField] == Int(id) ==> HasId(p, id)
  {
    IdField in p && p[IdField] == Int(id)
  }

  /** The first product of `ps` whose id is `id`, scanning in declaration order. */
  function FindProduct(ps: seq<Product>, id: int): (r: Option<nat>)
    ensures r.None? <==> forall k :: 0 <= k < |ps| ==> !HasId(ps[k], id)
    ensures r.Some? ==> r.value < |ps| && HasId(ps[r.value], id)
    ensures r.Some? ==> forall k :: 0 <= k < r.value ==> !HasId(ps[k], id)
  {
    if ps == [] then None
    else if HasId(ps[0], id) then Some(0)
    else match FindProduct(ps[1..], id)
      case None => None
      case Some(k) => Some(k + 1)
  }

  /** The number of products in the whole catalog. */
  function TotalCount(cat: Catalog): nat {
    if cat == [] then 0 else TotalCount(cat[..|cat| - 1]) + |cat[|cat| - 1].1|
  }

  /** The position in the flattened listing where category `j` starts. */
  function Offset(cat: Catalog, j: nat): nat
    requires j <= |cat|
  {
    TotalCount(cat[..j])
  }

  lemma OffsetNext(cat: Catalog, j: nat)
    requires j < |cat|
    ensures Offset(cat, j + 1) == Offset(cat, j) + |cat[j].1|
  {
    assert cat[..j + 1][..j] == cat[..j];
  }

  /** Every product of every category, each tagged with its category:
      categories in declaration order, then products in declaration order. */
  function Flatten(cat: Catalog): (r: seq<Product>)
    ensures |r| == TotalCount(cat)
  {
    if cat == [] then []
    else
      var last := cat[|cat| - 1];
      Flatten(cat[..|cat| - 1]) + TagAll(last.1, last.0)
  }

  /** Product `k` of category `j` sits at position `Offset(cat, j) + k` of the
      flattened listing, tagged with category `j`'s key. */
  lemma {:induction false} FlattenAt(cat: Catalog, j: nat, k: nat)
    requires j < |cat| && k < |cat[j].1|
    ensures Offset(cat, j) + k < |Flatten(cat)|
    ensures Flatten(cat)[Offset(cat, j) + k] == Tag(cat[j].1[k], cat[j].0)
  {
    var n := |cat| - 1;
    var init := cat[..n];
    var tail := TagAll(cat[n].1, cat[n].0);
    assert Flatten(cat) == Flatten(init) + tail;
    if j == n {
      assert cat[..j] == init;
      assert Flatten(cat)[Offset(cat, j) + k] == tail[k];
    } else {
      assert init[j] == cat[j];
      assert init[..j] == cat[..j];
      FlattenAt(init, j, k);
      assert Offset(init, j) + k < |Flatten(init)|;
    }
  }

  /** Conversely, each position of the flattened listing holds some product `k`
      of some category `j`, tagged with that category's key. */
  lemma {:induction false} FlattenOrigin(cat: Catalog, i: nat)
    requires i < |Flatten(cat)|
    ensures exists j: nat, k: nat ::
      j < |cat| && k < |cat[j].1| && i == Offset(cat, j) + k
      && Flatten(cat)[i] == Tag(cat[j].1[k], cat[j].0)
  {
    var n := |cat| - 1;
    var init := cat[..n];
    var tail := TagAll(cat[n].1, cat[n].0);
    assert Flatten(cat) == Flatten(init) + tail;
    if i < |Flatten(init)| {
      FlattenOrigin(init, i);
      var j: nat, k: nat :| j < |init| && k < |init[j].1| && i == Offset(init, j) + k
        && Flatten(init)[i] == Tag(init[j].1[k], init[j].0);
      assert init[..j] == cat[..j] && init[j] == cat[j];
      assert Flatten(cat)[i] == Flatten(init)[i];
    } else {
      var k := i - |Flatten(init)|;
      assert Offset(cat, n) == |Flatten(init)| by {
        assert cat[..n] == init;
      }
      assert Flatten(cat)[i] == tail[k];
    }
  }
}
