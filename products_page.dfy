/** The catalog page: the product-URL classifier, the category filter
    and the quick-add button. Product records come from the back end. */
module ProductsPage {
  import opened Wrappers
  import opened Text
  import opened CartContext
  import ProductDetail

  /** A product as the page receives it. A string field that is absent or
      empty is falsy in JavaScript; both are the empty string here. */
  datatype ListedProduct = ListedProduct(
    oid: string, name: string, slug: string, category: string, price: int, imageUrl: string)

  const Canonical: set<string> := {"bissap", "moringa", "ginger", "baobab"}

  /** `(slug || name || "").toLowerCase()`. */
  function SearchText(p: ListedProduct): string {
    ToLower(if p.slug != "" then p.slug else p.name)
  }

  /** `getCleanUrl`: the first matching keyword wins; otherwise the slug,
      or the database id when there is no slug. A keyword URL always names
      a product of the detail page's catalog. */
  function CleanUrl(p: ListedProduct): (url: string)
    ensures url in Canonical || url == p.slug || url == p.oid
    ensures url in Canonical ==> ProductDetail.Lookup(Some(url)).Some?
    ensures Contains(SearchText(p), "bissap") ==> url == "bissap"
    ensures !Contains(SearchText(p), "bissap") && Contains(SearchText(p), "moringa") ==> url == "moringa"
    ensures !Contains(SearchText(p), "bissap") && !Contains(SearchText(p), "moringa")
      && (Contains(SearchText(p), "ginger") || Contains(SearchText(p), "gingembre"))
      ==> url == "ginger"
    ensures !Contains(SearchText(p), "bissap") && !Contains(SearchText(p), "moringa")
      && !Contains(SearchText(p), "ginger") && !Contains(SearchText(p), "gingembre")
      && (Contains(SearchText(p), "baobab") || Contains(SearchText(p), "bouille"))
      ==> url == "baobab"
    ensures !Contains(SearchText(p), "bissap") && !Contains(SearchText(p), "moringa")
      && !Contains(SearchText(p), "ginger") && !Contains(SearchText(p), "gingembre")
      && !Contains(SearchText(p), "baobab") && !Contains(SearchText(p), "bouille")
      ==> url == (if p.slug != "" then p.slug else p.oid)
  {
    var t := SearchText(p);
    if Contains(t, "bissap") then "bissap"
    else if Contains(t, "moringa") then "moringa"
    else if Contains(t, "ginger") || Contains(t, "gingembre") then "ginger"
    else if Contains(t, "baobab") || Contains(t, "bouille") then "baobab"
    else if p.slug != "" then p.slug
    else p.oid
  }

  /** A product whose text says "baobab" and none of the earlier
      keywords links to the baobab page, whatever its slug. */
  lemma CleanUrlBaobab(p: ListedProduct)
    requires !Contains(SearchText(p), "bissap") && !Contains(SearchText(p), "moringa")
    requires !Contains(SearchText(p), "ginger") && !Contains(SearchText(p), "gingembre")
    requires Contains(SearchText(p), "baobab")
    ensures CleanUrl(p) == "baobab"
    ensures ProductDetail.Lookup(Some(CleanUrl(p))).Some?
  {
  }

  // ---------------------------------------------------------------------
  // The category filter

  predicate MatchesCategory(p: ListedProduct, filter: string) {
    Contains(ToLower(p.category), ToLower(filter))
  }

  /** `filteredProducts`: "all" keeps everything, any other filter keeps
      the products whose lowercased category contains it. */
  function FilterProducts(products: seq<ListedProduct>, filter: string): (r: seq<ListedProduct>)
    ensures filter == "all" ==> r == products
    ensures filter != "all" ==> forall x :: x in r ==> x in products && MatchesCategory(x, filter)
    ensures filter != "all" ==> forall x :: x in products && MatchesCategory(x, filter) ==> x in r
    ensures IsSubsequence(r, products)
    decreases |products|
  {
    if filter == "all" then
      SubsequenceOfSelf(products);
      products
    else if products == [] then []
    else
      var rest := FilterProducts(products[1..], filter);
      if MatchesCategory(products[0], filter) then [products[0]] + rest else rest
  }

  /** `a` is `b` with some elements left out, order kept. */
  predicate IsSubsequence<T(==)>(a: seq<T>, b: seq<T>)
    decreases |b|
  {
    if a == [] then true
    else if b == [] then false
    else (a[0] == b[0] && IsSubsequence(a[1..], b[1..])) || IsSubsequence(a, b[1..])
  }

  lemma {:induction false} SubsequenceOfSelf<T>(s: seq<T>)
    ensures IsSubsequence(s, s)
    decreases |s|
  {
    if s != [] {
      SubsequenceOfSelf(s[1..]);
    }
  }

  // ---------------------------------------------------------------------
  // Quick add

  /** The cart button on a product card: no quantity, dose "Standard",
      the slug (when there is one) as variant. */
  function QuickAddRequest(p: ListedProduct): (req: AddRequest)
    ensures req.id == p.oid && req.name == p.name && req.price == p.price && req.image == p.imageUrl
    ensures req.variant == (if p.slug == "" then None else Some(p.slug))
    ensures req.quantity.None? && req.dose == "Standard"
  {
    AddRequest(p.oid, p.name, p.price, p.imageUrl, "Standard",
      if p.slug == "" then None else Some(p.slug), None)
  }

  /** Each quick add puts exactly one more unit in the cart. */
  lemma {:induction false} QuickAddAddsOne(items: seq<CartItem>, p: ListedProduct)
    requires UniqueKeys(items)
    ensures TotalItems(AddItem(items, QuickAddRequest(p))) == TotalItems(items) + 1
  {
    AddTotalItems(items, QuickAddRequest(p));
  }
}
