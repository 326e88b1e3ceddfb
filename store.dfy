/**
 * The store provider (context/StoreContext.tsx): the shared state of the storefront
 * and the operations the pages call. Each operation replaces one or two fields with
 * a value computed by the pure transitions of module StoreOps.
 */
module Store {
  import opened Types
  import opened StoreOps

  class StoreProvider {
    var products: seq<Product>
    var cart: seq<CartItem>
    var user: Option<User>
    var orders: seq<Order>

    /** The object invariant: the cart holds at most one entry per product and none empty. */
    ghost predicate Valid()
      reads this
    {
      CartValid(cart)
    }

    /** The provider starts with the initial catalogue, an empty cart, no user and no orders. */
    constructor (initialProducts: seq<Product>)
      ensures Valid()
      ensures products == initialProducts && cart == [] && user == None && orders == []
    {
      products := initialProducts;
      cart := [];
      user := None;
      orders := [];
    }

    method AddToCart(product: Product)
      requires Valid()
      modifies this`cart
      ensures Valid()
      ensures cart == StoreOps.AddToCart(old(cart), product)
      ensures forall id :: Quantity(cart, id) == Quantity(old(cart), id) + (if id == product.id then 1 else 0)
    {
      AddToCartValid(cart, product);
      forall id ensures Quantity(StoreOps.AddToCart(cart, product), id) == Quantity(cart, id) + (if id == product.id then 1 else 0) {
        AddToCartQuantity(cart, product, id);
      }
      cart := StoreOps.AddToCart(cart, product);
    }

    method RemoveFromCart(productId: string)
      requires Valid()
      modifies this`cart
      ensures Valid()
      ensures cart == StoreOps.RemoveFromCart(old(cart), productId)
      ensures !HasItem(cart, productId)
      ensures forall id :: id != productId ==> Quantity(cart, id) == Quantity(old(cart), id)
    {
      RemoveFromCartValid(cart, productId);
      RemoveFromCartSpec(cart, productId);
      forall id | id != productId ensures Quantity(StoreOps.RemoveFromCart(cart, productId), id) == Quantity(cart, id) {
        RemoveFromCartQuantity(cart, productId, id);
      }
      cart := StoreOps.RemoveFromCart(cart, productId);
    }

    method UpdateQuantity(productId: string, quantity: int)
      requires Valid()
      modifies this`cart
      ensures Valid()
      ensures cart == StoreOps.UpdateQuantity(old(cart), productId, quantity)
      ensures quantity < 1 || !HasItem(old(cart), productId) ==> cart == old(cart)
      ensures quantity >= 1 && HasItem(old(cart), productId) ==> Quantity(cart, productId) == quantity
    {
      UpdateQuantityValid(cart, productId, quantity);
      UpdateQuantitySpec(cart, productId, quantity);
      if quantity >= 1 && HasItem(cart, productId) {
        UpdateQuantityQuantity(cart, productId, quantity, productId);
      }
      if quantity < 1 {
        return;
      }
      cart := StoreOps.UpdateQuantity(cart, productId, quantity);
    }

    method ClearCart()
      modifies this`cart
      ensures Valid() && cart == []
    {
      cart := [];
    }

    /** `login`: overwrite any current user with a synthesised one; `now` stands for the clock. */
    method Login(email: string, role: Role, now: string)
      modifies this`user
      ensures user == Some(NewUser(email, role, now))
    {
      user := Some(NewUser(email, role, now));
    }

    method Logout()
      modifies this`user
      ensures user == None
    {
      user := None;
    }

    /**
     * `placeOrder`: prepend the order made of the draft, then empty the cart.
     * `now` and `date` stand for the clock readings the order id and date are made of.
     */
    method PlaceOrder(draft: OrderDraft, now: string, date: string)
      requires Valid()
      modifies this`orders, this`cart
      ensures Valid()
      ensures orders == StoreOps.PlaceOrder(old(orders), draft, now, date)
      ensures orders[0].status == Pending && DraftOf(orders[0]) == draft
      ensures orders[0].paymentStatus == (if draft.paymentMethod == COD then Unpaid else Paid)
      ensures orders[1..] == old(orders)
      ensures cart == []
    {
      PlaceOrderSpec(orders, draft, now, date);
      orders := StoreOps.PlaceOrder(orders, draft, now, date);
      ClearCart();
    }

    method UpdateOrderStatus(orderId: string, status: OrderStatus)
      modifies this`orders
      ensures orders == SetOrderStatus(old(orders), orderId, status)
      ensures |orders| == |old(orders)|
      ensures forall i :: 0 <= i < |orders| ==> orders[i].(status := old(orders)[i].status) == old(orders)[i]
    {
      SetOrderStatusSpec(orders, orderId, status);
      orders := SetOrderStatus(orders, orderId, status);
    }

    method AddProduct(product: Product)
      modifies this`products
      ensures products == [product] + old(products)
    {
      products := StoreOps.AddProduct(products, product);
    }

    method DeleteProduct(id: string)
      modifies this`products
      ensures products == StoreOps.DeleteProduct(old(products), id)
      ensures forall i :: 0 <= i < |products| ==> products[i].id != id
      ensures (forall i :: 0 <= i < |old(products)| ==> old(products)[i].id != id) ==> products == old(products)
    {
      DeleteProductSpec(products, id);
      products := StoreOps.DeleteProduct(products, id);
    }
  }
}
