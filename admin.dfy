/**
 * The admin dashboard (pages/AdminDashboard.tsx): its sales figures, the add-product
 * form with its guard, and the order-status selector.
 */
module Admin {
  import opened Types
  import opened StoreOps
  import Store

  // ---------------------------------------------------------------------------
  // Dashboard figures
  // ---------------------------------------------------------------------------

  /** `orders.reduce((acc, order) => acc + order.total, 0)`, folded from the left. */
  function TotalSales(orders: seq<Order>): int
  {
    if orders == [] then 0 else TotalSales(orders[..|orders| - 1]) + orders[|orders| - 1].total
  }

  function TotalOrders(orders: seq<Order>): nat
  {
    |orders|
  }

  lemma {:induction false} TotalSalesConcat(a: seq<Order>, b: seq<Order>)
    ensures TotalSales(a + b) == TotalSales(a) + TotalSales(b)
  {
    if b != [] {
      assert (a + b)[..|a + b| - 1] == a + b[..|b| - 1];
      TotalSalesConcat(a, b[..|b| - 1]);
    } else {
      assert a + b == a;
    }
  }

  /** Placing an order adds one to the order count and the order's total to the sales. */
  lemma TotalsAfterPlaceOrder(orders: seq<Order>, draft: OrderDraft, now: string, date: string)
    ensures TotalOrders(StoreOps.PlaceOrder(orders, draft, now, date)) == TotalOrders(orders) + 1
    ensures TotalSales(StoreOps.PlaceOrder(orders, draft, now, date)) == TotalSales(orders) + draft.total
  {
    var o := NewOrder(draft, now, date);
    TotalSalesConcat([o], orders);
    assert [o][..0] == [];
  }

  /** A status change moves no money: sales and count stay as they were. */
  lemma {:induction false} TotalsAfterStatusChange(orders: seq<Order>, id: string, status: OrderStatus)
    ensures TotalOrders(SetOrderStatus(orders, id, status)) == TotalOrders(orders)
    ensures TotalSales(SetOrderStatus(orders, id, status)) == TotalSales(orders)
  {
    if orders != [] {
      var n := |orders| - 1;
      assert SetOrderStatus(orders, id, status)[..n] == SetOrderStatus(orders[..n], id, status);
      TotalsAfterStatusChange(orders[..n], id, status);
    }
  }

  /** With no negative order total the sales figure is not negative. */
  lemma {:induction false} TotalSalesNonNegative(orders: seq<Order>)
    requires forall i :: 0 <= i < |orders| ==> orders[i].total >= 0
    ensures TotalSales(orders) >= 0
  {
    if orders != [] {
      var init := orders[..|orders| - 1];
      assert forall i :: 0 <= i < |init| ==> init[i] == orders[i];
      TotalSalesNonNegative(init);
    }
  }

  // ---------------------------------------------------------------------------
  // The add-product form
  // ---------------------------------------------------------------------------

  /**
   * The form's partial product. A field is None until its input is first edited; the
   * category is always set, since both the initial and the reset form hold one.
   */
  datatype ProductForm = ProductForm(
    name: Option<string>,
    price: Option<int>,
    stock: Option<int>,
    category: Category,
    image: Option<string>,
    description: Option<string>,
    rating: Option<real>,
    reviews: Option<int>)

  /** The form on first opening: Panjabi, ten in stock, rating five, no reviews. */
  function InitialProductForm(): ProductForm
  {
    ProductForm(None, None, Some(10), Panjabi, None, None, Some(5.0), Some(0))
  }

  /** The form after a successful add: the category alone. */
  function ResetProductForm(): ProductForm
  {
    ProductForm(None, None, None, Panjabi, None, None, None, None)
  }

  /** One input's change handler writing its field. */
  datatype FormEdit =
    | EditName(name: string)
    | EditPrice(price: int)
    | EditStock(stock: int)
    | EditCategory(category: Category)
    | EditImage(image: string)
    | EditDescription(description: string)

  function ApplyEdit(form: ProductForm, edit: FormEdit): ProductForm
  {
    match edit
    case EditName(v) => form.(name := Some(v))
    case EditPrice(v) => form.(price := Some(v))
    case EditStock(v) => form.(stock := Some(v))
    case EditCategory(v) => form.(category := v)
    case EditImage(v) => form.(image := Some(v))
    case EditDescription(v) => form.(description := Some(v))
  }

  /** A text field is truthy when set and not empty. */
  predicate TruthyText(s: Option<string>)
  {
    s.Some? && s.value != ""
  }

  /** The guard: name, price and image truthy; a price of zero is falsy, a negative one is not. */
  predicate FormComplete(form: ProductForm)
  {
    TruthyText(form.name) && form.price.Some? && form.price.value != 0 && TruthyText(form.image)
  }

  /**
   * The product built from a complete form: a fresh id from the clock reading `now`,
   * the form's fields, and the rating and review count forced to zero.
   */
  function ProductFromForm(form: ProductForm, now: string): (p: Product)
    requires FormComplete(form)
    ensures p.rating == 0.0 && p.reviews == 0
  {
    Product(now, form.name.value, form.price.value, None, form.category, form.image.value,
            if form.description.Some? then form.description.value else "",
            if form.stock.Some? then form.stock.value else 0,
            0.0, 0, false)
  }

  /** The catalogue after pressing save: one product more in front when the form is complete, else as it was. */
  function AddFromForm(products: seq<Product>, form: ProductForm, now: string): seq<Product>
  {
    if FormComplete(form) then AddProduct(products, ProductFromForm(form, now)) else products
  }

  /**
   * Pressing save grows the catalogue exactly when name, price and image are all truthy;
   * the new product then stands first, keeps the typed name, price, image and category,
   * and has rating and review count zero whatever the form held.
   */
  lemma AddFromFormSpec(products: seq<Product>, form: ProductForm, now: string)
    ensures |AddFromForm(products, form, now)| == |products| + 1 <==> FormComplete(form)
    ensures !FormComplete(form) ==> AddFromForm(products, form, now) == products
    ensures FormComplete(form) ==>
      var p := AddFromForm(products, form, now)[0];
      && AddFromForm(products, form, now)[1..] == products
      && p.id == now && Some(p.name) == form.name && Some(p.price) == form.price
      && Some(p.image) == form.image && p.category == form.category
      && p.rating == 0.0 && p.reviews == 0
  {
  }

  /** Neither form the page installs by itself passes the guard; only typing fills it. */
  lemma PresetFormsIncomplete()
    ensures !FormComplete(InitialProductForm()) && !FormComplete(ResetProductForm())
  {
  }

  /** Typing a name, then a non-zero price, then an image, after any other edits, completes the form. */
  lemma TypedFormIsComplete(form: ProductForm, name: string, price: int, image: string)
    requires name != "" && price != 0 && image != ""
    ensures FormComplete(ApplyEdit(ApplyEdit(ApplyEdit(form, EditName(name)), EditPrice(price)), EditImage(image)))
  {
  }

  // ---------------------------------------------------------------------------
  // The order-status selector
  // ---------------------------------------------------------------------------

  /** The statuses the selector offers: Cancelled is not among them. */
  const StatusChoices: seq<OrderStatus> := [Pending, Processing, Shipped, Delivered]

  /** A status chosen on this page never cancels an order that was not cancelled before. */
  lemma SelectorNeverCancels(orders: seq<Order>, id: string, status: OrderStatus)
    requires status in StatusChoices
    ensures forall i :: 0 <= i < |orders| && SetOrderStatus(orders, id, status)[i].status == Cancelled ==>
      orders[i].status == Cancelled
  {
    assert status != Cancelled;
  }

  /** The dashboard's own state: whether the add modal is open and what its form holds. */
  class AdminDashboard {
    const store: Store.StoreProvider
    var showAddModal: bool
    var newProduct: ProductForm

    constructor (store: Store.StoreProvider)
      ensures this.store == store && !showAddModal && newProduct == InitialProductForm()
    {
      this.store := store;
      showAddModal := false;
      newProduct := InitialProductForm();
    }

    method OpenAddModal()
      modifies this`showAddModal
      ensures showAddModal
    {
      showAddModal := true;
    }

    method CloseAddModal()
      modifies this`showAddModal
      ensures !showAddModal
    {
      showAddModal := false;
    }

    method Edit(edit: FormEdit)
      modifies this`newProduct
      ensures newProduct == ApplyEdit(old(newProduct), edit)
    {
      newProduct := ApplyEdit(newProduct, edit);
    }

    /**
     * `handleAddProduct`: with a complete form, put the new product in front of the
     * catalogue, close the modal and reset the form to the category alone; otherwise
     * change nothing and leave the modal open.
     */
    method HandleAddProduct(now: string)
      modifies this`showAddModal, this`newProduct, store`products
      ensures store.products == AddFromForm(old(store.products), old(newProduct), now)
      ensures FormComplete(old(newProduct)) ==> !showAddModal && newProduct == ResetProductForm()
      ensures !FormComplete(old(newProduct)) ==>
        showAddModal == old(showAddModal) && newProduct == old(newProduct) && store.products == old(store.products)
    {
      if FormComplete(newProduct) {
        store.AddProduct(ProductFromForm(newProduct, now));
        showAddModal := false;
        newProduct := ResetProductForm();
      }
    }

    /** The row's status selector; the browser only ever hands it one of the offered statuses. */
    method SelectOrderStatus(orderId: string, status: OrderStatus)
      requires status in StatusChoices
      modifies store`orders
      ensures store.orders == SetOrderStatus(old(store.orders), orderId, status)
      ensures forall i :: 0 <= i < |store.orders| && store.orders[i].status == Cancelled ==> old(store.orders)[i].status == Cancelled
      ensures TotalSales(store.orders) == TotalSales(old(store.orders))
    {
      SelectorNeverCancels(store.orders, orderId, status);
      TotalsAfterStatusChange(store.orders, orderId, status);
      store.UpdateOrderStatus(orderId, status);
    }

    /** The row's delete button. */
    method DeleteClicked(id: string)
      modifies store`products
      ensures store.products == DeleteProduct(old(store.products), id)
    {
      store.DeleteProduct(id);
    }
  }
}
