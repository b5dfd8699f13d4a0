/**
 * The product tile (components/ProductCard.tsx): it keeps no state; each
 * click dispatches exactly one callback to its parent, the heart and bag
 * buttons stopping the click before it reaches the card.
 */
module ProductCard {
  import opened Types
  import opened Seqs
  import App

  datatype Click = CardClick | HeartClick | BagClick

  /** The parent callback a click ends up calling. */
  datatype Callback =
    | Select(product: Product)
    | AddToCart(product: Product)
    | AddToWishlist(id: Id)
    | RemoveFromWishlist(id: Id)

  /** `isWishlisted`: the product's id is on the wishlist. */
  predicate IsWishlisted(product: Product, wishlist: seq<Id>) {
    product.id in wishlist
  }

  /** The one callback a click on the tile calls. */
  function Dispatch(product: Product, wishlist: seq<Id>, click: Click): (c: Callback)
    ensures c.Select? <==> click == CardClick
    ensures click == BagClick ==> c == AddToCart(product)
    ensures click == HeartClick ==> c == RemoveFromWishlist(product.id) || c == AddToWishlist(product.id)
    ensures click == HeartClick ==> (c.RemoveFromWishlist? <==> IsWishlisted(product, wishlist))
  {
    match click
    case CardClick => Select(product)
    case BagClick => AddToCart(product)
    case HeartClick =>
      if product.id in wishlist then RemoveFromWishlist(product.id) else AddToWishlist(product.id)
  }

  /** What the storefront's handlers make of a callback's effect on the wishlist. */
  function WishlistAfter(wishlist: seq<Id>, c: Callback): seq<Id> {
    match c
    case AddToWishlist(id) => App.WishlistAdd(wishlist, id)
    case RemoveFromWishlist(id) => App.WishlistRemove(wishlist, id)
    case _ => wishlist
  }

  /** The wishlist after a heart click on the tile rendered with `wishlist`. */
  function HeartClicked(product: Product, wishlist: seq<Id>): seq<Id> {
    WishlistAfter(wishlist, Dispatch(product, wishlist, HeartClick))
  }

  /** One heart click flips the product's membership and leaves every other id where it was. */
  lemma HeartFlips(product: Product, wishlist: seq<Id>)
    ensures product.id in HeartClicked(product, wishlist) <==> product.id !in wishlist
    ensures forall x :: x != product.id ==> (x in HeartClicked(product, wishlist) <==> x in wishlist)
  {
  }

  /**
   * Two heart clicks restore membership; starting from a product that was not
   * on a duplicate-free wishlist, they restore the wishlist itself.
   */
  lemma HeartTwiceRestores(product: Product, wishlist: seq<Id>)
    requires NoDuplicates(wishlist)
    ensures forall x :: x in HeartClicked(product, HeartClicked(product, wishlist)) <==> x in wishlist
    ensures product.id !in wishlist ==> HeartClicked(product, HeartClicked(product, wishlist)) == wishlist
  {
    HeartFlips(product, wishlist);
    HeartFlips(product, HeartClicked(product, wishlist));
    if product.id !in wishlist {
      App.WishlistRemoveAfterAdd(wishlist, product.id);
    }
  }
}
