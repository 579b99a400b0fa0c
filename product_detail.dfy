/** The product-detail page: the four-product catalog, the lookup by URL
    id, the quantity counter, the variant selector and the cart line built
    by "Ajouter au panier". Prices are integer cents. */
module ProductDetail {
  import opened Wrappers
  import opened CartContext

  datatype Variant = Variant(id: string, dose: string, price: int)

  datatype Product = Product(
    id: string, name: string, category: string, variants: seq<Variant>, image: string)

  const Catalog: map<string, Product> := map[
    "baobab" := Product("baobab", "Jus de Bouille (Baobab)", "Jus",
      [Variant("baobab-50cl", "50 cl", 300), Variant("baobab-1l", "1 litre", 500)],
      "product-baobab.jpg"),
    "bissap" := Product("bissap", "Jus de Bissap", "Jus",
      [Variant("bissap-50cl", "50 cl", 300), Variant("bissap-1l", "1 litre", 500)],
      "product-bissap.jpg"),
    "moringa" := Product("moringa", "Moringa", "Feuilles & Poudres",
      [Variant("moringa-poudre", "Poudre (100g) - Usage cosmétique", 700),
       Variant("moringa-feuilles", "Feuilles (100g) - Infusions", 700)],
      "product-moringa.jpg"),
    "ginger" := Product("ginger", "Jus de Gingembre", "Jus",
      [Variant("ginger-50cl", "50 cl", 400), Variant("ginger-1l", "1 litre", 700)],
      "product-ginger.jpg")
  ]

  /** Every entry is filed under its own id and offers exactly two
      variants with distinct ids and non-negative prices. */
  predicate WellFormedEntry(key: string, p: Product) {
    && p.id == key
    && |p.variants| == 2
    && p.variants[0].id != p.variants[1].id
    && p.variants[0].price >= 0 && p.variants[1].price >= 0
  }

  lemma CatalogWellFormed()
    ensures Catalog.Keys == {"baobab", "bissap", "moringa", "ginger"}
    ensures forall key :: key in Catalog ==> WellFormedEntry(key, Catalog[key])
  {
  }

  /** `id ? products[id] : undefined`: a missing, empty or unknown id
      finds nothing. */
  function Lookup(id: Option<string>): (r: Option<Product>)
    ensures r.Some? <==> id.Some? && id.value in Catalog
    ensures r.Some? ==> r.value == Catalog[id.value] && r.value.id == id.value
  {
    CatalogWellFormed();
    if id.Some? && id.value != "" && id.value in Catalog then Some(Catalog[id.value]) else None
  }

  datatype Page = NotFound | Detail(product: Product)

  function Render(id: Option<string>): (p: Page)
    ensures p.NotFound? <==> Lookup(id).None?
    ensures p.Detail? ==> id.Some? && id.value in Catalog && p.product == Catalog[id.value]
  {
    match Lookup(id)
    case None => NotFound
    case Some(product) => Detail(product)
  }

  /** The argument `handleAddToCart` passes to `addToCart`. */
  function CartRequestFor(product: Product, variantIndex: nat, quantity: int): (req: AddRequest)
    requires variantIndex < |product.variants|
    ensures req.id == product.id && req.name == product.name && req.image == product.image
    ensures req.price == product.variants[variantIndex].price
    ensures req.dose == product.variants[variantIndex].dose
    ensures req.variant == Some(product.variants[variantIndex].id)
    ensures req.quantity == Some(quantity)
  {
    var v := product.variants[variantIndex];
    AddRequest(product.id, product.name, v.price, product.image, v.dose, Some(v.id), Some(quantity))
  }

  /** The amount on the button: variant price times quantity. */
  function ButtonAmount(product: Product, variantIndex: nat, quantity: int): int
    requires variantIndex < |product.variants|
  {
    product.variants[variantIndex].price * quantity
  }

  /** Adding from the detail page adds exactly the chosen quantity; for a
      line not yet in the cart the price grows by the button's amount. */
  lemma {:induction false} AddFromDetail(items: seq<CartItem>, product: Product, variantIndex: nat, quantity: int)
    requires UniqueKeys(items)
    requires variantIndex < |product.variants| && quantity >= 1
    ensures TotalItems(AddItem(items, CartRequestFor(product, variantIndex, quantity))) == TotalItems(items) + quantity
    ensures !HasKey(items, product.id, Some(product.variants[variantIndex].id)) ==>
      TotalPrice(AddItem(items, CartRequestFor(product, variantIndex, quantity)))
        == TotalPrice(items) + ButtonAmount(product, variantIndex, quantity)
  {
    var req := CartRequestFor(product, variantIndex, quantity);
    AddTotalItems(items, req);
    if !HasKey(items, req.id, req.variant) {
      AddNewTotals(items, req);
    }
  }

  /** The page state: the product shown, the chosen quantity and the index
      of the chosen variant. */
  class ProductDetailPage {
    const product: Product
    var quantity: int
    var selectedVariant: nat

    ghost predicate Valid()
      reads this
    {
      quantity >= 1 && selectedVariant < |product.variants|
    }

    constructor (product: Product)
      requires |product.variants| >= 1
      ensures Valid() && this.product == product
      ensures quantity == 1 && selectedVariant == 0
    {
      this.product := product;
      quantity := 1;
      selectedVariant := 0;
    }

    method IncrementQuantity()
      requires Valid()
      modifies this
      ensures Valid() && quantity == old(quantity) + 1 && selectedVariant == old(selectedVariant)
    {
      quantity := quantity + 1;
    }

    /** `Math.max(1, prev - 1)`. */
    method DecrementQuantity()
      requires Valid()
      modifies this
      ensures Valid() && selectedVariant == old(selectedVariant)
      ensures quantity == if old(quantity) > 1 then old(quantity) - 1 else 1
    {
      quantity := if quantity - 1 > 1 then quantity - 1 else 1;
    }

    /** A variant button; the buttons are rendered from `product.variants`,
        so the index is always one of its positions. */
    method SelectVariant(index: nat)
      requires Valid() && index < |product.variants|
      modifies this
      ensures Valid() && selectedVariant == index && quantity == old(quantity)
    {
      selectedVariant := index;
    }

    function CurrentVariant(): Variant
      reads this
      requires Valid()
    {
      product.variants[selectedVariant]
    }

    /** `handleAddToCart`, performed on the shared cart. */
    method HandleAddToCart(cart: Cart)
      requires Valid() && cart.Valid()
      modifies cart
      ensures cart.Valid()
      ensures cart.items == AddItem(old(cart.items), CartRequestFor(product, selectedVariant, quantity))
      ensures TotalItems(cart.items) == TotalItems(old(cart.items)) + quantity
    {
      AddFromDetail(cart.items, product, selectedVariant, quantity);
      cart.AddToCart(CartRequestFor(product, selectedVariant, quantity));
    }
  }
}
