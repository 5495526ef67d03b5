/** The cart page, `frontend/src/pages/Cart.js`: the running total and the
    removal of one line, both computed on a fresh list. */
module Cart {
  import opened Common

  /** `cart.reduce((sum, item) => sum + item.price, 0)`: a left fold from 0. */
  function Total(cart: seq<ProductView>): int
    decreases |cart|
  {
    if cart == [] then 0 else Total(cart[..|cart| - 1]) + cart[|cart| - 1].price
  }

  /** The total of two carts laid end to end is the sum of their totals. */
  lemma {:induction false} TotalAppend(a: seq<ProductView>, b: seq<ProductView>)
    ensures Total(a + b) == Total(a) + Total(b)
    decreases |b|
  {
    if b != [] {
      var n := |b| - 1;
      assert (a + b)[..|a + b| - 1] == a + b[..n];
      assert (a + b)[|a + b| - 1] == b[n];
      TotalAppend(a, b[..n]);
      assert Total(a + b) == Total(a + b[..n]) + b[n].price;
      assert Total(b) == Total(b[..n]) + b[n].price;
    } else {
      assert a + b == a;
    }
  }

  /** The total adds every price once, whatever order the lines are in. */
  lemma {:induction false} TotalIsPriceSum(cart: seq<ProductView>)
    ensures cart != [] ==> Total(cart) == cart[0].price + Total(cart[1..])
    ensures Total([]) == 0
  {
    if cart != [] {
      TotalAppend([cart[0]], cart[1..]);
      assert [cart[0]] + cart[1..] == cart;
      assert Total([cart[0]]) == Total([]) + cart[0].price;
    }
  }

  /** Where `splice(index, 1)` starts: a negative index counts from the end,
      and an index past the end is clamped to the length. */
  function SpliceStart(len: nat, index: int): (s: nat)
    ensures s <= len
    ensures 0 <= index < len ==> s == index
    ensures index >= len ==> s == len
  {
    if index < 0 then (if len + index < 0 then 0 else len + index)
    else if index > len then len
    else index
  }

  /** `removeFromCart(index)`: copy the cart, splice one line out of the copy. */
  function RemoveAt(cart: seq<ProductView>, index: int): (r: seq<ProductView>)
    ensures var s := SpliceStart(|cart|, index);
      if s < |cart| then
        && |r| == |cart| - 1
        && (forall j :: 0 <= j < s ==> r[j] == cart[j])
        && (forall j :: s <= j < |r| ==> r[j] == cart[j + 1])
      else r == cart
  {
    var s := SpliceStart(|cart|, index);
    if s < |cart| then cart[..s] + cart[s + 1..] else cart
  }

  /** Removing line `i` leaves the other lines, in order, and nothing else. */
  lemma RemoveAtShape(cart: seq<ProductView>, i: int)
    requires 0 <= i < |cart|
    ensures RemoveAt(cart, i) == cart[..i] + cart[i + 1..]
  {
  }

  /** The removed line and the remaining lines together are the old cart. */
  lemma RemoveAtMultiset(cart: seq<ProductView>, i: int)
    requires 0 <= i < |cart|
    ensures multiset(RemoveAt(cart, i)) + multiset{cart[i]} == multiset(cart)
  {
    assert cart == cart[..i] + [cart[i]] + cart[i + 1..];
  }

  /** Removing line `i` takes exactly that line's price off the total. */
  lemma RemoveAtTotal(cart: seq<ProductView>, i: int)
    requires 0 <= i < |cart|
    ensures Total(RemoveAt(cart, i)) == Total(cart) - cart[i].price
  {
    RemoveAtShape(cart, i);
    TotalWithout(cart, i);
  }

  lemma TotalWithout(cart: seq<ProductView>, i: nat)
    requires i < |cart|
    ensures Total(cart[..i] + cart[i + 1..]) == Total(cart) - cart[i].price
  {
    var before, x, after := cart[..i], cart[i], cart[i + 1..];
    assert cart == (before + [x]) + after;
    assert cart[..i] + cart[i + 1..] == before + after;
    TotalAround(before, x, after);
  }

  /** One line in the middle of a cart contributes exactly its price. */
  lemma TotalAround(before: seq<ProductView>, x: ProductView, after: seq<ProductView>)
    ensures Total((before + [x]) + after) == Total(before + after) + x.price
  {
    TotalAppend(before + [x], after);
    TotalAppend(before, [x]);
    TotalSingle(x);
    TotalAppend(before, after);
  }

  lemma TotalSingle(x: ProductView)
    ensures Total([x]) == x.price
  {
    assert [x][..0] == [];
  }

  /** An index outside the cart removes nothing. */
  lemma RemoveOutOfRange(cart: seq<ProductView>, i: int)
    requires i >= |cart|
    ensures RemoveAt(cart, i) == cart
  {
  }
}
