/**
 * The checkout page (pages/Checkout.tsx): its totals, the order draft it hands to the
 * store, and the submit and payment handlers with the page state they set.
 */
module Checkout {
  import opened Types
  import opened StoreOps
  import CartPage
  import Store

  /** Checkout always charges the flat delivery fee, even on a zero subtotal. */
  function CheckoutTotal(cart: seq<CartItem>): int
  {
    CartPage.Subtotal(cart) + CartPage.FlatShipping
  }

  /** Checkout and the cart page agree on a positive subtotal; otherwise checkout charges 60 more. */
  lemma CheckoutTotalVersusCartTotal(cart: seq<CartItem>)
    ensures CheckoutTotal(cart) == CartPage.Subtotal(cart) + 60
    ensures CartPage.Subtotal(cart) > 0 ==> CheckoutTotal(cart) == CartPage.CartTotal(cart)
    ensures CartPage.Subtotal(cart) <= 0 ==> CheckoutTotal(cart) == CartPage.CartTotal(cart) + 60
  {
  }

  /** The delivery and payment form. */
  datatype CheckoutForm = CheckoutForm(
    name: string,
    phone: string,
    address: string,
    city: string,
    paymentMethod: PaymentMethod)

  /** `x || ''` on an optional string: the string when set, otherwise empty. */
  function OrEmpty(s: Option<string>): string
  {
    if s.Some? then s.value else ""
  }

  /** The form as the page first fills it: from the current user, city Dhaka, paying by bKash. */
  function InitialForm(user: Option<User>): (f: CheckoutForm)
    ensures user.None? ==> f.name == "" && f.phone == "" && f.address == ""
    ensures user.Some? ==> f.name == user.value.name && f.phone == user.value.phone && f.address == OrEmpty(user.value.address)
    ensures f.city == "Dhaka" && f.paymentMethod == BKash
  {
    if user.Some? then CheckoutForm(user.value.name, user.value.phone, OrEmpty(user.value.address), "Dhaka", BKash)
    else CheckoutForm("", "", "", "Dhaka", BKash)
  }

  /** `user?.id || 'guest'`: an absent user, or one with an empty id, orders as guest. */
  function UserIdOrGuest(user: Option<User>): string
  {
    if user.Some? && user.value.id != "" then user.value.id else "guest"
  }

  /** The transaction id built from the clock reading `now`. */
  function TransactionId(now: string): string
  {
    "TXN-" + now
  }

  /** `handlePlaceOrder`'s draft: the cart, the checkout total, and a transaction id only when paid. */
  function BuildDraft(user: Option<User>, cart: seq<CartItem>, form: CheckoutForm, status: PaymentStatus, now: string): OrderDraft
  {
    OrderDraft(
      UserIdOrGuest(user),
      cart,
      CheckoutTotal(cart),
      form.paymentMethod,
      form.address + ", " + form.city,
      if status == Paid then Some(TransactionId(now)) else None)
  }

  /**
   * The order the store makes from a checkout draft carries the current cart, the checkout
   * total, the user's id or "guest", and the address followed by ", " and the city. Its
   * payment status comes from the method alone; its transaction id from the status the
   * handler passed.
   */
  lemma CheckoutOrderConsistent(orders: seq<Order>, user: Option<User>, cart: seq<CartItem>,
                                form: CheckoutForm, status: PaymentStatus, now: string, txnNow: string, date: string)
    ensures var o := StoreOps.PlaceOrder(orders, BuildDraft(user, cart, form, status, txnNow), now, date)[0];
      && o.items == cart
      && o.total == CartPage.Subtotal(cart) + 60
      && (user.Some? && user.value.id != "" ==> o.userId == user.value.id)
      && (user.None? || user.value.id == "" ==> o.userId == "guest")
      && o.shippingAddress == form.address + ", " + form.city
      && (o.paymentStatus == Unpaid <==> form.paymentMethod == COD)
      && (o.transactionId.Some? <==> status == Paid)
      && (status == Paid ==> o.transactionId == Some(TransactionId(txnNow)))
  {
    PlaceOrderSpec(orders, BuildDraft(user, cart, form, status, txnNow), now, date);
  }

  /**
   * The handlers pass a literal status: `handleSubmit` passes Unpaid on cash on delivery, the
   * payment modal passes Paid. The store keeps that status, and the order has a transaction
   * id exactly when it is marked paid, precisely when the literal agrees with the method.
   */
  lemma HandlerStatusAgreesWithStore(orders: seq<Order>, user: Option<User>, cart: seq<CartItem>,
                                     form: CheckoutForm, status: PaymentStatus, now: string, txnNow: string, date: string)
    ensures var o := StoreOps.PlaceOrder(orders, BuildDraft(user, cart, form, status, txnNow), now, date)[0];
      && (o.paymentStatus == status <==> (status == Paid <==> form.paymentMethod != COD))
      && ((o.transactionId.Some? <==> o.paymentStatus == Paid) <==> (status == Paid <==> form.paymentMethod != COD))
  {
    PlaceOrderSpec(orders, BuildDraft(user, cart, form, status, txnNow), now, date);
  }

  /**
   * Cash on delivery chosen while the payment modal is open: the radio buttons behind the
   * overlay still take keyboard input. The modal then files through the Paid path, and the
   * store marks the order Unpaid although it carries a transaction id.
   */
  lemma CodBehindModalExample(orders: seq<Order>, user: Option<User>, cart: seq<CartItem>,
                              form: CheckoutForm, now: string, txnNow: string, date: string)
    requires form.paymentMethod == COD
    ensures var o := StoreOps.PlaceOrder(orders, BuildDraft(user, cart, form, Paid, txnNow), now, date)[0];
      o.paymentStatus == Unpaid && o.transactionId == Some("TXN-" + txnNow)
  {
    PlaceOrderSpec(orders, BuildDraft(user, cart, form, Paid, txnNow), now, date);
  }

  /**
   * Two units at 1250 paid cash on delivery: the order totals 2560, is unpaid and has no
   * transaction id.
   */
  lemma CodOrderExample(orders: seq<Order>, product: Product, user: Option<User>, form: CheckoutForm,
                        now: string, txnNow: string, date: string)
    requires product.price == 1250 && form.paymentMethod == COD
    ensures var o := StoreOps.PlaceOrder(orders, BuildDraft(user, [CartItem(product, 2)], form, Unpaid, txnNow), now, date)[0];
      o.total == 2560 && o.paymentStatus == Unpaid && o.transactionId == None
  {
    CartPage.SubtotalCons(CartItem(product, 2), []);
  }

  /** The checkout page's state: the form, the payment modal and its PIN. */
  class CheckoutPage {
    const store: Store.StoreProvider
    var form: CheckoutForm
    var isProcessing: bool
    var showPaymentModal: bool
    var paymentPin: string

    ghost predicate Valid()
      reads this, store
    {
      store.Valid()
    }

    constructor (store: Store.StoreProvider)
      requires store.Valid()
      ensures this.store == store && Valid()
      ensures form == InitialForm(store.user)
      ensures !isProcessing && !showPaymentModal && paymentPin == ""
    {
      this.store := store;
      form := InitialForm(store.user);
      isProcessing := false;
      showPaymentModal := false;
      paymentPin := "";
    }

    /** The radio buttons; the modal's overlay does not keep keyboard input from them. */
    method SelectPaymentMethod(pm: PaymentMethod)
      requires Valid()
      modifies this`form
      ensures Valid() && form == old(form).(paymentMethod := pm)
    {
      form := form.(paymentMethod := pm);
    }

    /** The name, phone, address and city inputs; only address and city reach the order. */
    method EditDeliveryDetails(name: string, phone: string, address: string, city: string)
      requires Valid()
      modifies this`form
      ensures Valid() && form == old(form).(name := name, phone := phone, address := address, city := city)
    {
      form := form.(name := name, phone := phone, address := address, city := city);
    }

    /** `handlePlaceOrder`: hand the draft to the store, which files the order and empties the cart. */
    method HandlePlaceOrder(status: PaymentStatus, now: string, txnNow: string, date: string)
      requires Valid()
      modifies store`orders, store`cart
      ensures Valid()
      ensures store.orders == StoreOps.PlaceOrder(old(store.orders), BuildDraft(store.user, old(store.cart), form, status, txnNow), now, date)
      ensures store.cart == []
    {
      var draft := BuildDraft(store.user, store.cart, form, status, txnNow);
      store.PlaceOrder(draft, now, date);
    }

    /**
     * `handleSubmit`: cash on delivery files the order at once as unpaid; a wallet payment
     * opens the payment modal and files nothing yet. The browser submits the form only with
     * name, phone and address filled in.
     */
    method HandleSubmit(now: string, txnNow: string, date: string)
      requires Valid() && form.name != "" && form.phone != "" && form.address != ""
      modifies this`showPaymentModal, store`orders, store`cart
      ensures Valid()
      ensures form.paymentMethod == COD ==>
        store.orders == StoreOps.PlaceOrder(old(store.orders), BuildDraft(store.user, old(store.cart), form, Unpaid, txnNow), now, date)
        && store.cart == [] && store.orders[0].paymentStatus == Unpaid && store.orders[0].transactionId == None
        && showPaymentModal == old(showPaymentModal)
      ensures form.paymentMethod != COD ==>
        showPaymentModal && store.orders == old(store.orders) && store.cart == old(store.cart)
    {
      if form.paymentMethod == COD {
        HandlePlaceOrder(Unpaid, now, txnNow, date);
      } else {
        showPaymentModal := true;
      }
    }

    /** The PIN input of the payment modal. */
    method EditPin(pin: string)
      modifies this`paymentPin
      ensures paymentPin == pin
    {
      paymentPin := pin;
    }

    /** The modal's close and cancel buttons. */
    method CancelPayment()
      requires Valid()
      modifies this`showPaymentModal
      ensures Valid() && !showPaymentModal
    {
      showPaymentModal := false;
    }

    /**
     * `handlePaymentSubmit` with its two-second delay run to the end: the button is enabled
     * only inside the open modal with a PIN typed; the order is filed through the Paid path,
     * with a transaction id, and the modal closes. The store still marks it by the method.
     */
    method HandlePaymentSubmit(now: string, txnNow: string, date: string)
      requires Valid() && showPaymentModal && paymentPin != ""
      modifies this`isProcessing, this`showPaymentModal, store`orders, store`cart
      ensures Valid() && !isProcessing && !showPaymentModal
      ensures store.orders == StoreOps.PlaceOrder(old(store.orders), BuildDraft(store.user, old(store.cart), form, Paid, txnNow), now, date)
      ensures store.cart == []
      ensures store.orders[0].paymentStatus == DerivedPaymentStatus(form.paymentMethod)
      ensures store.orders[0].transactionId == Some(TransactionId(txnNow))
    {
      // isProcessing is true only while the delay runs; the delay is collapsed here.
      isProcessing := false;
      showPaymentModal := false;
      HandlePlaceOrder(Paid, now, txnNow, date);
    }
  }
}
