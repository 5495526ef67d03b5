/** The wishlist page, `frontend/src/pages/Wishlist.js`: removing by id,
    moving a product to the cart, and clearing. */
module Wishlist {
  import opened Common
  import Cart

  /** `wishlist.filter(item => item.id !== productId)`. */
  function Remove(wishlist: seq<ProductView>, productId: string): seq<ProductView> {
    if wishlist == [] then []
    else (if wishlist[0].id != productId then [wishlist[0]] else []) + Remove(wishlist[1..], productId)
  }

  /** Every entry with that id goes, every other entry stays as often as it
      was there, and the order is kept. */
  lemma {:induction false} RemoveSpec(wishlist: seq<ProductView>, productId: string)
    ensures forall p :: multiset(Remove(wishlist, productId))[p] == if p.id != productId then multiset(wishlist)[p] else 0
    ensures forall p :: p in Remove(wishlist, productId) <==> p in wishlist && p.id != productId
    ensures IsSubsequence(Remove(wishlist, productId), wishlist)
  {
    if wishlist != [] {
      var rest := Remove(wishlist[1..], productId);
      RemoveSpec(wishlist[1..], productId);
      assert wishlist == [wishlist[0]] + wishlist[1..];
      assert multiset(wishlist) == multiset{wishlist[0]} + multiset(wishlist[1..]);
      if wishlist[0].id != productId {
        assert Remove(wishlist, productId)[1..] == rest;
      } else {
        assert Remove(wishlist, productId) == rest;
      }
    }
  }

  /** Removing an id that is not listed leaves the wishlist as it was. */
  lemma {:induction false} RemoveAbsent(wishlist: seq<ProductView>, productId: string)
    requires forall p :: p in wishlist ==> p.id != productId
    ensures Remove(wishlist, productId) == wishlist
  {
    if wishlist != [] {
      RemoveAbsent(wishlist[1..], productId);
      assert [wishlist[0]] + wishlist[1..] == wishlist;
    }
  }

  /** Removing the same id twice is the same as removing it once. */
  lemma RemoveIdempotent(wishlist: seq<ProductView>, productId: string)
    ensures Remove(Remove(wishlist, productId), productId) == Remove(wishlist, productId)
  {
    RemoveSpec(wishlist, productId);
    RemoveAbsent(Remove(wishlist, productId), productId);
  }

  /** The two lists the page holds. */
  datatype Lists = Lists(cart: seq<ProductView>, wishlist: seq<ProductView>)

  /** `moveToCart(product)`: append to the cart, then remove its id from the wishlist. */
  function MoveToCart(lists: Lists, product: ProductView): Lists {
    Lists(lists.cart + [product], Remove(lists.wishlist, product.id))
  }

  /** After a move the product is the cart's last line, the cart total grows by
      its price, and no wishlist entry carries its id any more. */
  lemma MoveToCartSpec(lists: Lists, product: ProductView)
    ensures var after := MoveToCart(lists, product);
      && |after.cart| == |lists.cart| + 1
      && after.cart[..|lists.cart|] == lists.cart
      && after.cart[|lists.cart|] == product
      && Cart.Total(after.cart) == Cart.Total(lists.cart) + product.price
      && (forall p :: p in after.wishlist ==> p.id != product.id && p in lists.wishlist)
  {
    var after := MoveToCart(lists, product);
    Cart.TotalAppend(lists.cart, [product]);
    Cart.TotalSingle(product);
    RemoveSpec(lists.wishlist, product.id);
  }

  /** `clearWishlist()`. */
  function Clear(wishlist: seq<ProductView>): (r: seq<ProductView>)
    ensures |r| == 0
  {
    []
  }
}
