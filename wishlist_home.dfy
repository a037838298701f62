/** The fashion store's home screen: the product grid's wishlist hearts and the category bar. */
module WishlistHome {

  datatype Product = Product(id: string, title: string, price: string, wishlisted: bool)

  /** `CATEGORIES`, in bar order. */
  const Categories: seq<string> := ["All", "New", "Dresses", "Tops", "Shoes", "Bags"]

  /** `MOCK_PRODUCTS` */
  const MockProducts: seq<Product> := [
    Product("1", "Oversized Wool Blend Coat", "$199.90", false),
    Product("2", "Satin Effect Midi Dress", "$89.90", true),
    Product("3", "High-Waist Cargo Trousers", "$69.90", false)
  ]

  /** `toggleWishlist`'s map: flip the heart of every product with that id. */
  function WithWishlistToggled(products: seq<Product>, productId: string): seq<Product>
  {
    seq(|products|, k requires 0 <= k < |products| =>
      if products[k].id == productId then products[k].(wishlisted := !products[k].wishlisted) else products[k])
  }

  /**
   * Length and order are kept; a product with that id only has its heart
   * flipped; every other product is unchanged.
   */
  lemma ToggleEffect(products: seq<Product>, productId: string)
    ensures |WithWishlistToggled(products, productId)| == |products|
    ensures forall k :: 0 <= k < |products| ==>
      var p, p' := products[k], WithWishlistToggled(products, productId)[k];
      if p.id == productId then p' == p.(wishlisted := !p.wishlisted) else p' == p
  {
  }

  /** Toggling the same id twice restores the list. */
  lemma ToggleTwiceRestores(products: seq<Product>, productId: string)
    ensures WithWishlistToggled(WithWishlistToggled(products, productId), productId) == products
  {
    var twice := WithWishlistToggled(WithWishlistToggled(products, productId), productId);
    assert forall k :: 0 <= k < |products| ==> twice[k] == products[k];
  }

  /** Toggling an id no product has leaves the list unchanged. */
  lemma ToggleUnknownIdentity(products: seq<Product>, productId: string)
    requires forall k :: 0 <= k < |products| ==> products[k].id != productId
    ensures WithWishlistToggled(products, productId) == products
  {
    assert forall k :: 0 <= k < |products| ==> WithWishlistToggled(products, productId)[k] == products[k];
  }

  class HomeScreen {
    var selectedCategory: string
    var products: seq<Product>

    /** Opens on "All" with the mock products, of which only id "2" is wishlisted. */
    constructor ()
      ensures selectedCategory == "All" && products == MockProducts
      ensures forall k :: 0 <= k < |products| ==> (products[k].wishlisted <==> products[k].id == "2")
    {
      selectedCategory := "All";
      products := MockProducts;
    }

    method ToggleWishlist(productId: string)
      modifies this`products
      ensures products == WithWishlistToggled(old(products), productId)
    {
      products := WithWishlistToggled(products, productId);
    }

    /** The category button at position i replaces the selection. */
    method SelectCategory(i: nat)
      requires i < |Categories|
      modifies this`selectedCategory
      ensures selectedCategory == Categories[i]
    {
      selectedCategory := Categories[i];
    }
  }
}
