/**
 * The cart page (pages/Cart.tsx): the totals it derives from the cart, and the
 * quantity requests its minus and plus buttons hand to the store.
 */
module CartPage {
  import opened Types
  import opened StoreOps

  /** What one entry costs: unit price times quantity. */
  function LineTotal(item: CartItem): int
  {
    item.product.price * item.quantity
  }

  /** `cart.reduce((acc, item) => acc + item.price * item.quantity, 0)`, folded from the left. */
  function Subtotal(cart: seq<CartItem>): int
  {
    if cart == [] then 0 else Subtotal(cart[..|cart| - 1]) + LineTotal(cart[|cart| - 1])
  }

  /** The flat delivery charge. */
  const FlatShipping := 60

  /** The cart page charges delivery only on a positive subtotal. */
  function Shipping(subtotal: int): int
  {
    if subtotal > 0 then FlatShipping else 0
  }

  function CartTotal(cart: seq<CartItem>): int
  {
    Subtotal(cart) + Shipping(Subtotal(cart))
  }

  /** The subtotal of two carts laid end to end is the sum of their subtotals. */
  lemma {:induction false} SubtotalConcat(a: seq<CartItem>, b: seq<CartItem>)
    ensures Subtotal(a + b) == Subtotal(a) + Subtotal(b)
  {
    if b != [] {
      var last := b[|b| - 1];
      assert (a + b)[..|a + b| - 1] == a + b[..|b| - 1];
      SubtotalConcat(a, b[..|b| - 1]);
    } else {
      assert a + b == a;
    }
  }

  /** The subtotal is the sum over entries, whichever end the sum starts from. */
  lemma SubtotalCons(item: CartItem, rest: seq<CartItem>)
    ensures Subtotal([item] + rest) == LineTotal(item) + Subtotal(rest)
  {
    SubtotalConcat([item], rest);
    assert [item][..0] == [];
  }

  /** With no negative price or quantity, the subtotal is not negative. */
  lemma {:induction false} SubtotalNonNegative(cart: seq<CartItem>)
    requires forall i :: 0 <= i < |cart| ==> cart[i].product.price >= 0 && cart[i].quantity >= 0
    ensures Subtotal(cart) >= 0
  {
    if cart != [] {
      var init := cart[..|cart| - 1];
      assert forall i :: 0 <= i < |init| ==> init[i] == cart[i];
      SubtotalNonNegative(init);
    }
  }

  /**
   * The page's total is the subtotal plus 60 when the subtotal is positive and the
   * subtotal alone otherwise; an empty cart totals 0.
   */
  lemma CartTotalSpec(cart: seq<CartItem>)
    ensures Subtotal(cart) > 0 ==> CartTotal(cart) == Subtotal(cart) + 60
    ensures Subtotal(cart) <= 0 ==> CartTotal(cart) == Subtotal(cart)
    ensures cart == [] ==> CartTotal(cart) == 0
  {
  }

  /** Replacing one entry changes the subtotal by the difference of the two line totals. */
  lemma SubtotalReplace(cart: seq<CartItem>, k: nat, item: CartItem)
    requires k < |cart|
    ensures Subtotal(cart[k := item]) == Subtotal(cart) - LineTotal(cart[k]) + LineTotal(item)
  {
    var before, after := cart[..k], cart[k + 1..];
    assert cart == before + [cart[k]] + after;
    assert cart[k := item] == before + [item] + after;
    SubtotalConcat(before + [cart[k]], after);
    SubtotalConcat(before + [item], after);
    SubtotalConcat(before, [cart[k]]);
    SubtotalConcat(before, [item]);
    SubtotalCons(cart[k], []);
    SubtotalCons(item, []);
  }

  /** With distinct ids, bumping the entries with the id of entry `k` bumps entry `k` alone. */
  lemma IncrementIsReplace(cart: seq<CartItem>, k: nat)
    requires DistinctIds(cart) && k < |cart|
    ensures IncrementWhere(cart, cart[k].Id()) == cart[k := cart[k].(quantity := cart[k].quantity + 1)]
  {
    var r := IncrementWhere(cart, cart[k].Id());
    forall i | 0 <= i < |cart| && i != k ensures r[i] == cart[i] {
      assert cart[i].Id() != cart[k].Id();
    }
  }

  /** With distinct ids, an accepted update of entry `k`'s id rewrites entry `k` alone. */
  lemma UpdateIsReplace(cart: seq<CartItem>, k: nat, quantity: int)
    requires DistinctIds(cart) && k < |cart| && quantity >= 1
    ensures UpdateQuantity(cart, cart[k].Id(), quantity) == cart[k := cart[k].(quantity := quantity)]
  {
    var r := UpdateQuantity(cart, cart[k].Id(), quantity);
    forall i | 0 <= i < |cart| && i != k ensures r[i] == cart[i] {
      assert cart[i].Id() != cart[k].Id();
    }
  }

  /** With distinct ids, adding the product of entry `k` bumps entry `k` alone. */
  lemma AddExistingIsReplace(cart: seq<CartItem>, product: Product, k: nat)
    requires DistinctIds(cart) && k < |cart| && cart[k].Id() == product.id
    ensures AddToCart(cart, product) == cart[k := cart[k].(quantity := cart[k].quantity + 1)]
  {
    assert HasItem(cart, product.id);
    IncrementIsReplace(cart, k);
  }

  lemma SubtotalAfterBump(cart: seq<CartItem>, product: Product, k: nat)
    requires DistinctIds(cart) && k < |cart| && cart[k].Id() == product.id
    ensures Subtotal(AddToCart(cart, product)) == Subtotal(cart) + cart[k].product.price
  {
    var bumped := cart[k].(quantity := cart[k].quantity + 1);
    calc {
      Subtotal(AddToCart(cart, product));
      { AddExistingIsReplace(cart, product, k); }
      Subtotal(cart[k := bumped]);
      { SubtotalReplace(cart, k, bumped); }
      Subtotal(cart) - LineTotal(cart[k]) + LineTotal(bumped);
      { LineTotalBump(cart[k]); }
      Subtotal(cart) + cart[k].product.price;
    }
  }

  /** One more unit of an entry costs one more unit price. */
  lemma LineTotalBump(item: CartItem)
    ensures LineTotal(item.(quantity := item.quantity + 1)) == LineTotal(item) + item.product.price
  {
    UnitMore(item.product.price, item.quantity);
  }

  lemma UnitMore(price: int, quantity: int)
    ensures price * (quantity + 1) == price * quantity + price
  {
  }

  lemma SubtotalAfterAppend(cart: seq<CartItem>, product: Product)
    requires !HasItem(cart, product.id)
    ensures Subtotal(AddToCart(cart, product)) == Subtotal(cart) + product.price
  {
    assert AddToCart(cart, product) == cart + [CartItem(product, 1)];
    SubtotalConcat(cart, [CartItem(product, 1)]);
    SubtotalCons(CartItem(product, 1), []);
  }

  /**
   * Adding a product raises the subtotal by one unit price: that of the entry already in
   * the cart, which keeps the price it was added with, or the product's own for a new entry.
   */
  lemma SubtotalAfterAdd(cart: seq<CartItem>, product: Product)
    requires DistinctIds(cart)
    ensures HasItem(cart, product.id) ==>
      forall k :: 0 <= k < |cart| && cart[k].Id() == product.id ==>
        Subtotal(AddToCart(cart, product)) == Subtotal(cart) + cart[k].product.price
    ensures !HasItem(cart, product.id) ==>
      Subtotal(AddToCart(cart, product)) == Subtotal(cart) + product.price
  {
    if HasItem(cart, product.id) {
      forall k | 0 <= k < |cart| && cart[k].Id() == product.id
        ensures Subtotal(AddToCart(cart, product)) == Subtotal(cart) + cart[k].product.price
      {
        SubtotalAfterBump(cart, product, k);
      }
    } else {
      SubtotalAfterAppend(cart, product);
    }
  }

  /** An accepted quantity update changes the subtotal by the unit price times the change. */
  lemma SubtotalAfterUpdate(cart: seq<CartItem>, k: nat, quantity: int)
    requires DistinctIds(cart) && k < |cart| && quantity >= 1
    ensures Subtotal(UpdateQuantity(cart, cart[k].Id(), quantity))
         == Subtotal(cart) + cart[k].product.price * (quantity - cart[k].quantity)
  {
    var updated := cart[k].(quantity := quantity);
    UpdateIsReplace(cart, k, quantity);
    SubtotalReplace(cart, k, updated);
    assert LineTotal(updated) - LineTotal(cart[k]) == cart[k].product.price * (quantity - cart[k].quantity);
  }

  // ---------------------------------------------------------------------------
  // The quantity buttons
  // ---------------------------------------------------------------------------

  /** The minus button: disabled at one unit or fewer, otherwise asks for one unit less. */
  function DecrementRequest(item: CartItem): Option<int>
  {
    if item.quantity <= 1 then None else Some(item.quantity - 1)
  }

  /** The plus button: always asks for one unit more, with no bound against stock. */
  function IncrementRequest(item: CartItem): int
  {
    item.quantity + 1
  }

  /**
   * The cart page never asks for a quantity below one, so the store never silently
   * ignores its requests: minus lowers the entry's count by one, plus raises it by one.
   */
  lemma QuantityButtonsTakeEffect(cart: seq<CartItem>, k: nat)
    requires CartValid(cart) && k < |cart|
    ensures DecrementRequest(cart[k]).None? <==> cart[k].quantity == 1
    ensures DecrementRequest(cart[k]).Some? ==>
      DecrementRequest(cart[k]).value >= 1 &&
      Quantity(UpdateQuantity(cart, cart[k].Id(), DecrementRequest(cart[k]).value), cart[k].Id()) == cart[k].quantity - 1
    ensures IncrementRequest(cart[k]) >= 1
    ensures Quantity(UpdateQuantity(cart, cart[k].Id(), IncrementRequest(cart[k])), cart[k].Id()) == cart[k].quantity + 1
  {
    assert HasItem(cart, cart[k].Id());
    if DecrementRequest(cart[k]).Some? {
      UpdateQuantityQuantity(cart, cart[k].Id(), cart[k].quantity - 1, cart[k].Id());
    }
    UpdateQuantityQuantity(cart, cart[k].Id(), cart[k].quantity + 1, cart[k].Id());
  }
}
