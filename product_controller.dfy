/** The product collection and its four handlers: list all, find by id,
    create, delete. The collection is a table from database id to product
    plus the order in which `find({})` returns the documents. */
module ProductController {
  import opened Wrappers
  import opened Text

  datatype Product = Product(
    id: string, name: string, slug: string, description: string, marketingClaim: string,
    price: int, stock: int, isBio: bool, category: string, imageUrl: string,
    rating: int, numReviews: int)

  /** A request body; an absent or empty string is the empty string, an
      absent number or flag is `None`. */
  datatype ProductInput = ProductInput(
    name: string, slug: string, description: string, marketingClaim: Option<string>,
    price: Option<int>, stock: Option<int>, isBio: Option<bool>, category: string,
    imageUrl: string, rating: Option<int>, numReviews: Option<int>)

  /** Casting: name and category trimmed, slug lowercased, and the schema's
      defaults (empty claim, no stock, organic, no rating, no reviews). A
      missing price is kept apart so that `required` can report it. */
  function Cast(input: ProductInput, id: string): (r: (Product, bool))
    ensures r.0.id == id && r.0.name == Trim(input.name) && r.0.category == Trim(input.category)
    ensures r.0.slug == ToLower(input.slug)
    ensures r.0.marketingClaim == input.marketingClaim.GetOr("") && r.0.stock == input.stock.GetOr(0)
    ensures r.0.isBio == input.isBio.GetOr(true)
    ensures r.0.rating == input.rating.GetOr(0) && r.0.numReviews == input.numReviews.GetOr(0)
    ensures r.1 <==> input.price.Some?
    ensures input.price.Some? ==> r.0.price == input.price.value
  {
    (Product(id, Trim(input.name), ToLower(input.slug), input.description, input.marketingClaim.GetOr(""),
       input.price.GetOr(0), input.stock.GetOr(0), input.isBio.GetOr(true), Trim(input.category),
       input.imageUrl, input.rating.GetOr(0), input.numReviews.GetOr(0)),
     input.price.Some?)
  }

  datatype FieldError = Required(path: string) | BelowMin(path: string, min: int)

  /** What the schema demands of a stored product. */
  predicate ValidProduct(p: Product) {
    p.name != "" && p.slug != "" && p.description != "" && p.price >= 0 && p.stock >= 0
    && p.category != "" && p.imageUrl != ""
  }

  /** A `required` string path: one error when it is empty. */
  function RequiredErrors(value: string, path: string): (r: seq<FieldError>)
    ensures r == [] <==> value != ""
    ensures r != [] ==> r == [Required(path)]
  {
    if value == "" then [Required(path)] else []
  }

  /** `required` is checked before `min`. */
  function PriceErrors(p: Product, hasPrice: bool): (r: seq<FieldError>)
    ensures r == [] <==> hasPrice && p.price >= 0
    ensures r == [Required("price")] <==> !hasPrice
    ensures r == [BelowMin("price", 0)] <==> hasPrice && p.price < 0
  {
    if !hasPrice then [Required("price")] else if p.price < 0 then [BelowMin("price", 0)] else []
  }

  /** `stock` has a default, so only its minimum can fail. */
  function StockErrors(p: Product): (r: seq<FieldError>)
    ensures r == [] <==> p.stock >= 0
    ensures r != [] ==> r == [BelowMin("stock", 0)]
  {
    if p.stock < 0 then [BelowMin("stock", 0)] else []
  }

  /** One error per failing path, in declaration order. */
  function Validate(p: Product, hasPrice: bool): (errors: seq<FieldError>)
    ensures errors == [] <==> hasPrice && ValidProduct(p)
    ensures |errors| <= 7
  {
    RequiredErrors(p.name, "name") + RequiredErrors(p.slug, "slug")
    + RequiredErrors(p.description, "description") + PriceErrors(p, hasPrice) + StockErrors(p)
    + RequiredErrors(p.category, "category") + RequiredErrors(p.imageUrl, "image_url")
  }

  predicate IsHexDigit(c: char) {
    '0' <= c <= '9' || 'a' <= c <= 'f' || 'A' <= c <= 'F'
  }

  /** The 24-hex-digit form of a database id. */
  predicate IsObjectId(s: string) {
    |s| == 24 && forall i :: 0 <= i < |s| ==> IsHexDigit(s[i])
  }

  /** `s` without any occurrence of `x`, order kept. */
  function Without(s: seq<string>, x: string): (r: seq<string>)
    ensures x !in r
    ensures forall y :: y in r <==> y in s && y != x
    ensures |r| <= |s|
    ensures x !in s ==> r == s
  {
    if s == [] then []
    else if s[0] == x then Without(s[1..], x)
    else [s[0]] + Without(s[1..], x)
  }

  predicate Distinct(s: seq<string>) {
    forall i, j :: 0 <= i < j < |s| ==> s[i] != s[j]
  }

  lemma {:induction false} WithoutKeepsDistinct(s: seq<string>, x: string)
    requires Distinct(s)
    ensures Distinct(Without(s, x))
  {
    if s != [] {
      WithoutKeepsDistinct(s[1..], x);
      if s[0] != x {
        var rest := Without(s[1..], x);
        assert s[0] !in s[1..] by {
          forall j | 1 <= j < |s| ensures s[j] != s[0] { }
        }
        assert s[0] !in rest;
        var r := [s[0]] + rest;
        forall i, j | 0 <= i < j < |r| ensures r[i] != r[j] {
          if i == 0 { assert r[j] in rest; } else { assert r[i] == rest[i - 1] && r[j] == rest[j - 1]; }
        }
        assert Without(s, x) == r;
      }
    }
  }

  /** `findById`'s outcome: a malformed id is a cast error, then presence
      decides between 404 and 200. */
  function FindById(table: map<string, Product>, id: string): (r: (int, Option<Product>))
    ensures !IsObjectId(id) ==> r == (400, None)
    ensures IsObjectId(id) && id !in table ==> r == (404, None)
    ensures r.0 == 200 <==> IsObjectId(id) && id in table
    ensures r.0 == 200 ==> r.1 == Some(table[id])
  {
    if !IsObjectId(id) then (400, None)
    else if id !in table then (404, None)
    else (200, Some(table[id]))
  }

  /** A product collides with the stored ones on a unique index. */
  predicate Collides(table: map<string, Product>, p: Product) {
    exists k :: k in table && (table[k].name == p.name || table[k].slug == p.slug)
  }

  /** The listing order holds each stored id once; ids are well formed
      and match their product; every product is schema-valid; names and
      slugs are unique. */
  ghost predicate StoreInvariant(table: map<string, Product>, order: seq<string>) {
    Distinct(order)
    && (forall k :: k in order <==> k in table)
    && (forall k :: k in table ==> IsObjectId(k) && table[k].id == k && ValidProduct(table[k]))
    && (forall k1, k2 :: k1 in table && k2 in table && k1 != k2 ==>
          table[k1].name != table[k2].name && table[k1].slug != table[k2].slug)
  }

  /** Storing a valid, non-colliding product under a fresh id keeps the
      invariant. */
  lemma {:induction false} InsertKeepsInvariant(table: map<string, Product>, order: seq<string>, id: string, p: Product)
    requires StoreInvariant(table, order)
    requires IsObjectId(id) && id !in table && p.id == id && ValidProduct(p) && !Collides(table, p)
    ensures StoreInvariant(table[id := p], order + [id])
  {
    var t := table[id := p];
    var o := order + [id];
    assert id !in order;
    forall i, j | 0 <= i < j < |o| ensures o[i] != o[j] {
      if j == |order| { assert o[i] in order; }
    }
    forall k1, k2 | k1 in t && k2 in t && k1 != k2
      ensures t[k1].name != t[k2].name && t[k1].slug != t[k2].slug
    {
      if k1 == id {
        assert !(table[k2].name == p.name || table[k2].slug == p.slug);
      } else if k2 == id {
        assert !(table[k1].name == p.name || table[k1].slug == p.slug);
      }
    }
  }

  /** Removing a stored id from both the table and the order keeps the
      invariant. */
  lemma {:induction false} RemoveKeepsInvariant(table: map<string, Product>, order: seq<string>, id: string)
    requires StoreInvariant(table, order)
    ensures StoreInvariant(table - {id}, Without(order, id))
  {
    WithoutKeepsDistinct(order, id);
  }

  class ProductStore {
    var table: map<string, Product>
    var order: seq<string>

    ghost predicate Valid()
      reads this
    {
      StoreInvariant(table, order)
    }

    constructor ()
      ensures Valid() && table == map[] && order == []
    {
      table := map[];
      order := [];
    }

    /** `getProducts`: every stored product, once each, with its count. */
    method GetProducts() returns (count: nat, data: seq<Product>)
      requires Valid()
      ensures count == |data| == |order|
      ensures forall i :: 0 <= i < |data| ==> order[i] in table && data[i] == table[order[i]]
      ensures forall k :: k in table ==> table[k] in data
    {
      data := [];
      var i := 0;
      while i < |order|
        invariant 0 <= i <= |order|
        invariant |data| == i
        invariant forall j :: 0 <= j < i ==> order[j] in table && data[j] == table[order[j]]
      {
        data := data + [table[order[i]]];
        i := i + 1;
      }
      count := |data|;
      forall k | k in table
        ensures table[k] in data
      {
        var j :| 0 <= j < |order| && order[j] == k;
        assert data[j] == table[k];
      }
    }

    /** `getProductById`. */
    method GetProductById(id: string) returns (status: int, product: Option<Product>)
      ensures (status, product) == FindById(table, id)
    {
      if !IsObjectId(id) {
        return 400, None;
      }
      if id !in table {
        return 404, None;
      }
      return 200, Some(table[id]);
    }

    /** `createProduct`: a validation failure is a 400 listing each failing
        field; a unique-index clash is a 500; otherwise the product is
        stored under the fresh id and returned with 201. */
    method CreateProduct(input: ProductInput, newId: string) returns (status: int, errors: seq<FieldError>, created: Option<Product>)
      requires Valid() && IsObjectId(newId) && newId !in table
      modifies this
      ensures Valid()
      ensures errors == Validate(Cast(input, newId).0, Cast(input, newId).1)
      ensures errors != [] ==> status == 400 && created.None? && table == old(table) && order == old(order)
      ensures errors == [] && Collides(old(table), Cast(input, newId).0) ==>
        status == 500 && created.None? && table == old(table) && order == old(order)
      ensures errors == [] && !Collides(old(table), Cast(input, newId).0) ==>
        status == 201 && created == Some(Cast(input, newId).0)
        && table == old(table)[newId := Cast(input, newId).0] && order == old(order) + [newId]
    {
      var (p, hasPrice) := Cast(input, newId);
      errors := Validate(p, hasPrice);
      if errors != [] {
        return 400, errors, None;
      }
      if Collides(table, p) {
        return 500, errors, None;
      }
      InsertKeepsInvariant(table, order, newId, p);
      table := table[newId := p];
      order := order + [newId];
      return 201, errors, Some(p);
    }

    /** `deleteProduct`: a malformed id is a 500, an absent one a 404, and
        both leave the collection alone; a present one is removed, and
        nothing else is. */
    method DeleteProduct(id: string) returns (status: int)
      requires Valid()
      modifies this
      ensures Valid()
      ensures !IsObjectId(id) ==> status == 500 && table == old(table) && order == old(order)
      ensures IsObjectId(id) && id !in old(table) ==> status == 404 && table == old(table) && order == old(order)
      ensures IsObjectId(id) && id in old(table) ==>
        status == 200 && table == old(table) - {id} && order == Without(old(order), id)
    {
      if !IsObjectId(id) {
        return 500;
      }
      if id !in table {
        return 404;
      }
      RemoveKeepsInvariant(table, order, id);
      table := table - {id};
      order := Without(order, id);
      return 200;
    }
  }
}
