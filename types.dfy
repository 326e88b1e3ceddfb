/** The storefront's records: catalogue products, cart entries, users and orders. */
module Types {

  /** An optional field (`?:` in the record declarations) or a nullable value. */
  datatype Option<T> = None | Some(value: T)

  /** The six catalogue categories; each has its own display label, so equal labels mean equal categories. */
  datatype Category = Panjabi | Saree | Electronics | Mobile | Watch | Beauty

  /** The three orderings the catalogue page offers. */
  datatype SortOption = Newest | PriceLowHigh | PriceHighLow

  /** A catalogue product. `isNew` is false where the record leaves it undefined. */
  datatype Product = Product(
    id: string,
    name: string,
    price: int,
    originalPrice: Option<int>,
    category: Category,
    image: string,
    description: string,
    stock: int,
    rating: real,
    reviews: int,
    isNew: bool)

  /** A cart entry: the product as it was added, plus how many of it. */
  datatype CartItem = CartItem(product: Product, quantity: int)
  {
    /** A cart entry is keyed by the id of the product it extends. */
    function Id(): string { product.id }
  }

  datatype Role = Admin | Customer

  datatype User = User(
    id: string,
    name: string,
    email: string,
    phone: string,
    role: Role,
    address: Option<string>)

  datatype OrderStatus = Pending | Processing | Shipped | Delivered | Cancelled

  datatype PaymentMethod = BKash | Nagad | COD

  datatype PaymentStatus = Paid | Unpaid

  /** What a caller hands to `placeOrder`: an order without id, date, status and payment status. */
  datatype OrderDraft = OrderDraft(
    userId: string,
    items: seq<CartItem>,
    total: int,
    paymentMethod: PaymentMethod,
    shippingAddress: string,
    transactionId: Option<string>)

  datatype Order = Order(
    id: string,
    userId: string,
    items: seq<CartItem>,
    total: int,
    status: OrderStatus,
    paymentMethod: PaymentMethod,
    paymentStatus: PaymentStatus,
    date: string,
    shippingAddress: string,
    transactionId: Option<string>)
}
