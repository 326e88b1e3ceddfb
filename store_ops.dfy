/**
 * The state transitions of the store (context/StoreContext.tsx) as pure functions
 * from the old slice of state to the new one, with the properties they keep.
 * The store class in module Store applies them to its fields.
 */
module StoreOps {
  import opened Types
  import Seqs

  // ---------------------------------------------------------------------------
  // The cart
  // ---------------------------------------------------------------------------

  /** Some entry of the cart has this product id (`prev.find(item => item.id === id)`). */
  predicate HasItem(cart: seq<CartItem>, id: string)
  {
    exists i :: 0 <= i < |cart| && cart[i].Id() == id
  }

  /** At most one entry per product id. */
  predicate DistinctIds(cart: seq<CartItem>)
  {
    forall i, j :: 0 <= i < j < |cart| ==> cart[i].Id() != cart[j].Id()
  }

  /** Every entry holds at least one unit. */
  predicate PositiveQuantities(cart: seq<CartItem>)
  {
    forall i :: 0 <= i < |cart| ==> cart[i].quantity >= 1
  }

  /** The cart invariant the store keeps. */
  predicate CartValid(cart: seq<CartItem>)
  {
    DistinctIds(cart) && PositiveQuantities(cart)
  }

  /**
   * The cart seen as a bag: how many units of product `id` it holds,
   * summed over every entry with that id.
   */
  function Quantity(cart: seq<CartItem>, id: string): int
  {
    if cart == [] then 0
    else (if cart[0].Id() == id then cart[0].quantity else 0) + Quantity(cart[1..], id)
  }

  /** The entries with id `id` get one more unit; the rest are untouched. */
  function IncrementWhere(cart: seq<CartItem>, id: string): seq<CartItem>
  {
    seq(|cart|, i requires 0 <= i < |cart| =>
      if cart[i].Id() == id then cart[i].(quantity := cart[i].quantity + 1) else cart[i])
  }

  /** `addToCart`: bump an existing entry, or append a new entry holding one unit. */
  function AddToCart(cart: seq<CartItem>, product: Product): seq<CartItem>
  {
    if HasItem(cart, product.id) then IncrementWhere(cart, product.id)
    else cart + [CartItem(product, 1)]
  }

  /** `removeFromCart`: drop every entry with that id. */
  function RemoveFromCart(cart: seq<CartItem>, id: string): seq<CartItem>
  {
    Seqs.Filter(cart, (item: CartItem) => item.Id() != id)
  }

  /** `updateQuantity`: a quantity below one is ignored; otherwise every entry with that id takes it. */
  function UpdateQuantity(cart: seq<CartItem>, id: string, quantity: int): seq<CartItem>
  {
    if quantity < 1 then cart
    else
      seq(|cart|, i requires 0 <= i < |cart| =>
        if cart[i].Id() == id then cart[i].(quantity := quantity) else cart[i])
  }

  lemma {:induction false} QuantityConcat(a: seq<CartItem>, b: seq<CartItem>, id: string)
    ensures Quantity(a + b, id) == Quantity(a, id) + Quantity(b, id)
  {
    if a == [] {
      assert a + b == b;
    } else {
      assert (a + b)[1..] == a[1..] + b;
      QuantityConcat(a[1..], b, id);
    }
  }

  /** A product with no entry contributes nothing to the bag. */
  lemma {:induction false} QuantityAbsent(cart: seq<CartItem>, id: string)
    requires !HasItem(cart, id)
    ensures Quantity(cart, id) == 0
  {
    if cart != [] {
      assert !HasItem(cart[1..], id) by {
        forall i | 0 <= i < |cart[1..]| ensures cart[1..][i].Id() != id {
          assert cart[1..][i] == cart[i + 1];
        }
      }
      QuantityAbsent(cart[1..], id);
    }
  }

  /** With distinct ids, the bag count of a present product is the quantity of its one entry. */
  lemma {:induction false} QuantityAt(cart: seq<CartItem>, k: nat)
    requires DistinctIds(cart) && k < |cart|
    ensures Quantity(cart, cart[k].Id()) == cart[k].quantity
  {
    var id := cart[k].Id();
    if k == 0 {
      assert !HasItem(cart[1..], id) by {
        forall i | 0 <= i < |cart[1..]| ensures cart[1..][i].Id() != id {
          assert cart[1..][i] == cart[i + 1];
        }
      }
      QuantityAbsent(cart[1..], id);
    } else {
      assert cart[1..][k - 1] == cart[k];
      QuantityAt(cart[1..], k - 1);
    }
  }

  /** Adding a product the cart already holds bumps that one entry and nothing else. */
  lemma AddToCartExisting(cart: seq<CartItem>, product: Product, k: nat)
    requires DistinctIds(cart) && k < |cart| && cart[k].Id() == product.id
    ensures |AddToCart(cart, product)| == |cart|
    ensures AddToCart(cart, product)[k] == cart[k].(quantity := cart[k].quantity + 1)
    ensures forall i :: 0 <= i < |cart| && i != k ==> AddToCart(cart, product)[i] == cart[i]
  {
    assert HasItem(cart, product.id);
  }

  /** Adding a product the cart does not hold appends one entry of quantity one at the end. */
  lemma AddToCartAbsent(cart: seq<CartItem>, product: Product)
    requires !HasItem(cart, product.id)
    ensures AddToCart(cart, product) == cart + [CartItem(product, 1)]
  {
  }

  /** Adding the same product twice yields one entry of quantity two, not two entries. */
  lemma AddToCartTwice(cart: seq<CartItem>, product: Product)
    requires !HasItem(cart, product.id)
    ensures AddToCart(AddToCart(cart, product), product) == cart + [CartItem(product, 2)]
  {
    var once := cart + [CartItem(product, 1)];
    assert once[|cart|].Id() == product.id;
    assert HasItem(once, product.id);
    forall i | 0 <= i < |cart| ensures once[i].Id() != product.id {
      assert once[i] == cart[i];
    }
  }

  /** In the bag view, adding raises the product's count by one and leaves every other count alone. */
  lemma {:induction false} AddToCartQuantity(cart: seq<CartItem>, product: Product, id: string)
    requires DistinctIds(cart)
    ensures Quantity(AddToCart(cart, product), id)
         == Quantity(cart, id) + (if id == product.id then 1 else 0)
  {
    if HasItem(cart, product.id) {
      IncrementQuantity(cart, product.id, id);
      var k :| 0 <= k < |cart| && cart[k].Id() == product.id;
      CountOfId(cart, k);
    } else {
      QuantityConcat(cart, [CartItem(product, 1)], id);
      assert [CartItem(product, 1)][1..] == [];
    }
  }

  /** The number of entries carrying an id, which is at most one when ids are distinct. */
  function Entries(cart: seq<CartItem>, id: string): nat
  {
    if cart == [] then 0 else (if cart[0].Id() == id then 1 else 0) + Entries(cart[1..], id)
  }

  lemma {:induction false} CountOfId(cart: seq<CartItem>, k: nat)
    requires DistinctIds(cart) && k < |cart|
    ensures Entries(cart, cart[k].Id()) == 1
  {
    var id := cart[k].Id();
    if k == 0 {
      assert !HasItem(cart[1..], id) by {
        forall i | 0 <= i < |cart[1..]| ensures cart[1..][i].Id() != id {
          assert cart[1..][i] == cart[i + 1];
        }
      }
      NoEntries(cart[1..], id);
    } else {
      assert cart[1..][k - 1] == cart[k];
      CountOfId(cart[1..], k - 1);
    }
  }

  lemma {:induction false} NoEntries(cart: seq<CartItem>, id: string)
    requires !HasItem(cart, id)
    ensures Entries(cart, id) == 0
  {
    if cart != [] {
      assert !HasItem(cart[1..], id) by {
        forall i | 0 <= i < |cart[1..]| ensures cart[1..][i].Id() != id {
          assert cart[1..][i] == cart[i + 1];
        }
      }
      NoEntries(cart[1..], id);
    }
  }

  lemma {:induction false} IncrementQuantity(cart: seq<CartItem>, target: string, id: string)
    ensures Quantity(IncrementWhere(cart, target), id)
         == Quantity(cart, id) + (if id == target then Entries(cart, target) else 0)
  {
    if cart != [] {
      assert IncrementWhere(cart, target)[1..] == IncrementWhere(cart[1..], target);
      IncrementQuantity(cart[1..], target, id);
    }
  }

  /** `addToCart` keeps the cart invariant: ids stay distinct and quantities positive. */
  lemma AddToCartValid(cart: seq<CartItem>, product: Product)
    requires CartValid(cart)
    ensures CartValid(AddToCart(cart, product))
  {
    var r := AddToCart(cart, product);
    if !HasItem(cart, product.id) {
      forall i, j | 0 <= i < j < |r| ensures r[i].Id() != r[j].Id() {
        if j == |cart| {
          assert r[i] == cart[i];
        } else {
          assert r[i] == cart[i] && r[j] == cart[j];
        }
      }
    } else {
      forall i, j | 0 <= i < j < |r| ensures r[i].Id() != r[j].Id() {
        assert r[i].Id() == cart[i].Id() && r[j].Id() == cart[j].Id();
      }
    }
  }

  /** After `removeFromCart` no entry has that id, and the survivors are exactly the other entries. */
  lemma RemoveFromCartSpec(cart: seq<CartItem>, id: string)
    ensures !HasItem(RemoveFromCart(cart, id), id)
    ensures forall i :: 0 <= i < |cart| && cart[i].Id() != id ==> cart[i] in RemoveFromCart(cart, id)
    ensures forall x :: x in RemoveFromCart(cart, id) ==> x in cart
  {
    var r := RemoveFromCart(cart, id);
    forall x | x in r ensures x in cart {
      var i :| 0 <= i < |r| && r[i] == x;
    }
  }

  /** Removing from two concatenated carts removes from each, so relative order is kept. */
  lemma RemoveFromCartConcat(a: seq<CartItem>, b: seq<CartItem>, id: string)
    ensures RemoveFromCart(a + b, id) == RemoveFromCart(a, id) + RemoveFromCart(b, id)
  {
    Seqs.FilterConcat(a, b, (item: CartItem) => item.Id() != id);
  }

  /** Removing an id the cart does not hold leaves the cart as it was. */
  lemma RemoveFromCartAbsent(cart: seq<CartItem>, id: string)
    requires !HasItem(cart, id)
    ensures RemoveFromCart(cart, id) == cart
  {
    Seqs.FilterKeepsAll(cart, (item: CartItem) => item.Id() != id);
  }

  /** In the bag view, removal zeroes the product's count and leaves every other count alone. */
  lemma {:induction false} RemoveFromCartQuantity(cart: seq<CartItem>, target: string, id: string)
    ensures Quantity(RemoveFromCart(cart, target), id) == if id == target then 0 else Quantity(cart, id)
  {
    if cart != [] {
      var keep := (item: CartItem) => item.Id() != target;
      var head := if keep(cart[0]) then [cart[0]] else [];
      assert RemoveFromCart(cart, target) == head + RemoveFromCart(cart[1..], target);
      QuantityConcat(head, RemoveFromCart(cart[1..], target), id);
      RemoveFromCartQuantity(cart[1..], target, id);
      if head != [] {
        assert head[1..] == [];
      }
    }
  }

  /** An entry whose id no later entry shares can stand in front of a cart with distinct ids. */
  lemma ConsDistinct(item: CartItem, rest: seq<CartItem>)
    requires DistinctIds(rest)
    requires forall x :: x in rest ==> x.Id() != item.Id()
    ensures DistinctIds([item] + rest)
  {
    var r := [item] + rest;
    forall i, j | 0 <= i < j < |r| ensures r[i].Id() != r[j].Id() {
      assert r[j] == rest[j - 1];
      if i > 0 {
        assert r[i] == rest[i - 1];
      }
    }
  }

  /** The tail of a valid cart is valid, and none of its entries shares the head's id. */
  lemma TailValid(cart: seq<CartItem>)
    requires CartValid(cart) && cart != []
    ensures CartValid(cart[1..])
    ensures forall x :: x in cart[1..] ==> x.Id() != cart[0].Id()
  {
    var tail := cart[1..];
    forall i, j | 0 <= i < j < |tail| ensures tail[i].Id() != tail[j].Id() {
      assert tail[i] == cart[i + 1] && tail[j] == cart[j + 1];
    }
    forall x | x in tail ensures x.Id() != cart[0].Id() {
      var m :| 0 <= m < |tail| && tail[m] == x;
      assert tail[m] == cart[m + 1];
    }
  }

  /** Every entry of a filtered cart came from the cart, so the invariant carries over. */
  lemma {:induction false} RemoveFromCartValid(cart: seq<CartItem>, id: string)
    requires CartValid(cart)
    ensures CartValid(RemoveFromCart(cart, id))
  {
    if cart != [] {
      var tail := cart[1..];
      TailValid(cart);
      RemoveFromCartValid(tail, id);
      var rest := RemoveFromCart(tail, id);
      if cart[0].Id() != id {
        RemoveFromCartSpec(tail, id);
        ConsDistinct(cart[0], rest);
        assert RemoveFromCart(cart, id) == [cart[0]] + rest;
      } else {
        assert RemoveFromCart(cart, id) == rest;
      }
    }
  }

  /** A quantity below one changes nothing; otherwise only entries with that id take the new quantity. */
  lemma UpdateQuantitySpec(cart: seq<CartItem>, id: string, quantity: int)
    ensures quantity < 1 ==> UpdateQuantity(cart, id, quantity) == cart
    ensures |UpdateQuantity(cart, id, quantity)| == |cart|
    ensures forall i :: 0 <= i < |cart| && cart[i].Id() == id && quantity >= 1 ==>
      UpdateQuantity(cart, id, quantity)[i] == cart[i].(quantity := quantity)
    ensures forall i :: 0 <= i < |cart| && cart[i].Id() != id ==>
      UpdateQuantity(cart, id, quantity)[i] == cart[i]
    ensures !HasItem(cart, id) ==> UpdateQuantity(cart, id, quantity) == cart
  {
  }

  /** In the bag view, an accepted update sets the product's count and leaves every other count alone. */
  lemma {:induction false} UpdateQuantityQuantity(cart: seq<CartItem>, target: string, quantity: int, id: string)
    requires DistinctIds(cart) && HasItem(cart, target) && quantity >= 1
    ensures Quantity(UpdateQuantity(cart, target, quantity), id) == if id == target then quantity else Quantity(cart, id)
  {
    var r := UpdateQuantity(cart, target, quantity);
    var k :| 0 <= k < |cart| && cart[k].Id() == target;
    assert DistinctIds(r) by {
      forall i, j | 0 <= i < j < |r| ensures r[i].Id() != r[j].Id() {
        assert r[i].Id() == cart[i].Id() && r[j].Id() == cart[j].Id();
      }
    }
    if id == target {
      QuantityAt(r, k);
    } else {
      SameEntriesElsewhere(cart, r, id);
    }
  }

  /** Two carts that agree on every entry carrying `id` give `id` the same count. */
  lemma {:induction false} SameEntriesElsewhere(a: seq<CartItem>, b: seq<CartItem>, id: string)
    requires |a| == |b|
    requires forall i :: 0 <= i < |a| ==> a[i].Id() == b[i].Id()
    requires forall i :: 0 <= i < |a| && a[i].Id() == id ==> a[i] == b[i]
    ensures Quantity(a, id) == Quantity(b, id)
  {
    if a != [] {
      SameEntriesElsewhere(a[1..], b[1..], id);
    }
  }

  /** `updateQuantity` keeps the cart invariant: it never writes a quantity below one. */
  lemma UpdateQuantityValid(cart: seq<CartItem>, id: string, quantity: int)
    requires CartValid(cart)
    ensures CartValid(UpdateQuantity(cart, id, quantity))
  {
    var r := UpdateQuantity(cart, id, quantity);
    forall i, j | 0 <= i < j < |r| ensures r[i].Id() != r[j].Id() {
      assert r[i].Id() == cart[i].Id() && r[j].Id() == cart[j].Id();
    }
  }

  // ---------------------------------------------------------------------------
  // The user
  // ---------------------------------------------------------------------------

  const AdminName := "Admin User"
  const CustomerName := "Rahim Ahmed"
  const PlaceholderPhone := "01700000000"
  const PlaceholderAddress := "Dhaka, Bangladesh"

  /** `login`: a synthesised user whose id is the clock reading `now`; no credential is checked. */
  function NewUser(email: string, role: Role, now: string): (u: User)
    ensures u.id == now && u.email == email && u.role == role
    ensures role == Admin ==> u.name == AdminName
    ensures role == Customer ==> u.name == CustomerName
    ensures u.phone == PlaceholderPhone && u.address == Some(PlaceholderAddress)
  {
    User(now, if role == Admin then AdminName else CustomerName, email, PlaceholderPhone, role, Some(PlaceholderAddress))
  }

  // ---------------------------------------------------------------------------
  // Orders
  // ---------------------------------------------------------------------------

  /** Cash on delivery is unpaid at placement; either mobile wallet counts as paid. */
  function DerivedPaymentStatus(pm: PaymentMethod): PaymentStatus
  {
    if pm == COD then Unpaid else Paid
  }

  /** The order id `placeOrder` builds from the clock reading `now`. */
  function OrderId(now: string): (id: string)
    ensures |id| == |now| + 4 && id[..4] == "ORD-" && id[4..] == now
  {
    "ORD-" + now
  }

  /** The order `placeOrder` makes of a draft: id and date from the clock, status Pending, payment status from the method. */
  function NewOrder(draft: OrderDraft, now: string, date: string): Order
  {
    Order(OrderId(now), draft.userId, draft.items, draft.total, Pending, draft.paymentMethod,
          DerivedPaymentStatus(draft.paymentMethod), date, draft.shippingAddress, draft.transactionId)
  }

  /** The draft part of an order: everything but id, date, status and payment status. */
  function DraftOf(order: Order): OrderDraft
  {
    OrderDraft(order.userId, order.items, order.total, order.paymentMethod, order.shippingAddress, order.transactionId)
  }

  /** `placeOrder` on the order list: the new order goes in front. */
  function PlaceOrder(orders: seq<Order>, draft: OrderDraft, now: string, date: string): seq<Order>
  {
    [NewOrder(draft, now, date)] + orders
  }

  /** `updateOrderStatus`: every order with that id takes the status; nothing else changes. */
  function SetOrderStatus(orders: seq<Order>, id: string, status: OrderStatus): seq<Order>
  {
    seq(|orders|, i requires 0 <= i < |orders| =>
      if orders[i].id == id then orders[i].(status := status) else orders[i])
  }

  /**
   * `placeOrder` prepends exactly one order: it is Pending, unpaid exactly when the method is
   * cash on delivery, carries the draft unchanged, and the earlier orders follow in their order.
   */
  lemma PlaceOrderSpec(orders: seq<Order>, draft: OrderDraft, now: string, date: string)
    ensures |PlaceOrder(orders, draft, now, date)| == |orders| + 1
    ensures PlaceOrder(orders, draft, now, date)[0].status == Pending
    ensures PlaceOrder(orders, draft, now, date)[0].paymentStatus == Unpaid <==> draft.paymentMethod == COD
    ensures DraftOf(PlaceOrder(orders, draft, now, date)[0]) == draft
    ensures PlaceOrder(orders, draft, now, date)[1..] == orders
  {
  }

  /** `updateOrderStatus` rewrites only the status field of orders with that id. */
  lemma SetOrderStatusSpec(orders: seq<Order>, id: string, status: OrderStatus)
    ensures |SetOrderStatus(orders, id, status)| == |orders|
    ensures forall i :: 0 <= i < |orders| ==>
      SetOrderStatus(orders, id, status)[i].(status := orders[i].status) == orders[i]
    ensures forall i :: 0 <= i < |orders| ==>
      SetOrderStatus(orders, id, status)[i].status == if orders[i].id == id then status else orders[i].status
    ensures (forall i :: 0 <= i < |orders| ==> orders[i].id != id) ==> SetOrderStatus(orders, id, status) == orders
  {
  }

  // ---------------------------------------------------------------------------
  // The catalogue
  // ---------------------------------------------------------------------------

  /** `addProduct`: the new product goes in front. */
  function AddProduct(products: seq<Product>, product: Product): seq<Product>
  {
    [product] + products
  }

  /** `deleteProduct`: drop every product with that id. */
  function DeleteProduct(products: seq<Product>, id: string): seq<Product>
  {
    Seqs.Filter(products, (p: Product) => p.id != id)
  }

  /**
   * After `deleteProduct` no product has that id, every other product survives, the
   * survivors keep their order, and an absent id leaves the catalogue as it was.
   */
  lemma DeleteProductSpec(products: seq<Product>, id: string)
    ensures forall i :: 0 <= i < |DeleteProduct(products, id)| ==> DeleteProduct(products, id)[i].id != id
    ensures forall i :: 0 <= i < |products| && products[i].id != id ==> products[i] in DeleteProduct(products, id)
    ensures (forall i :: 0 <= i < |products| ==> products[i].id != id) ==> DeleteProduct(products, id) == products
    ensures forall a, b :: a + b == products ==> DeleteProduct(products, id) == DeleteProduct(a, id) + DeleteProduct(b, id)
    ensures |DeleteProduct(products, id)| == |products| <==> forall i :: 0 <= i < |products| ==> products[i].id != id
  {
    var keep := (p: Product) => p.id != id;
    Seqs.FilterLength(products, keep);
    assert (forall i :: 0 <= i < |products| ==> keep(products[i])) <==> (forall i :: 0 <= i < |products| ==> products[i].id != id);
    forall i | 0 <= i < |DeleteProduct(products, id)| ensures DeleteProduct(products, id)[i].id != id {
      assert keep(DeleteProduct(products, id)[i]);
    }
    if forall i :: 0 <= i < |products| ==> products[i].id != id {
      Seqs.FilterKeepsAll(products, keep);
    }
    forall a, b | a + b == products ensures DeleteProduct(products, id) == DeleteProduct(a, id) + DeleteProduct(b, id) {
      Seqs.FilterConcat(a, b, keep);
    }
  }
}
