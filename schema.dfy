/** The tables of the store, their enumerations and their column defaults
    (schemas/index.ts). Every table becomes a datatype of rows; a nullable
    column becomes an Option. Timestamps are integers (milliseconds). */
module Schema {
  import opened Wrappers

  type Id = string

  // ---------------------------------------------------------------- enums

  datatype UserRole = Admin | Customer

  datatype OrderStatus = Pending | Processing | Shipped | Delivered | Cancelled

  datatype PaymentMethod = Cod | Stripe | Paypal

  datatype PayStatus = PayFailed | PaySuccess

  /** The label PostgreSQL stores for each order status. */
  function StatusLabel(s: OrderStatus): string {
    match s
    case Pending => "Pending"
    case Processing => "Processing"
    case Shipped => "Shipped"
    case Delivered => "Delivered"
    case Cancelled => "Cancelled"
  }

  /** The enum column accepts exactly the five labels; any other text is
      refused by the database. */
  function ParseStatus(x: string): (r: Option<OrderStatus>)
    ensures r.Some? <==> x in {"Pending", "Processing", "Shipped", "Delivered", "Cancelled"}
    ensures r.Some? ==> StatusLabel(r.value) == x
  {
    if x == "Pending" then Some(Pending)
    else if x == "Processing" then Some(Processing)
    else if x == "Shipped" then Some(Shipped)
    else if x == "Delivered" then Some(Delivered)
    else if x == "Cancelled" then Some(Cancelled)
    else None
  }

  function MethodLabel(m: PaymentMethod): string {
    match m
    case Cod => "cod"
    case Stripe => "stripe"
    case Paypal => "paypal"
  }

  function ParseMethod(x: string): (r: Option<PaymentMethod>)
    ensures r.Some? <==> x in {"cod", "stripe", "paypal"}
    ensures r.Some? ==> MethodLabel(r.value) == x
  {
    if x == "cod" then Some(Cod)
    else if x == "stripe" then Some(Stripe)
    else if x == "paypal" then Some(Paypal)
    else None
  }

  function PayStatusLabel(p: PayStatus): string {
    match p
    case PayFailed => "Failed"
    case PaySuccess => "Success"
  }

  function ParsePayStatus(x: string): (r: Option<PayStatus>)
    ensures r.Some? <==> x in {"Failed", "Success"}
    ensures r.Some? ==> PayStatusLabel(r.value) == x
  {
    if x == "Failed" then Some(PayFailed)
    else if x == "Success" then Some(PaySuccess)
    else None
  }

  /** Parsing a label gives back the value it labels, for all three enums. */
  lemma LabelsRoundTrip(s: OrderStatus, m: PaymentMethod, p: PayStatus)
    ensures ParseStatus(StatusLabel(s)) == Some(s)
    ensures ParseMethod(MethodLabel(m)) == Some(m)
    ensures ParsePayStatus(PayStatusLabel(p)) == Some(p)
  {
  }

  // ----------------------------------------------------------------- rows

  datatype User = User(
    id: Id, fullName: string, email: string, dateOfBirth: string, gender: string,
    role: UserRole, photoUrl: string, createdAt: int, password: string,
    emailVerified: bool, lockoutEnd: bool)

  datatype Address = Address(
    id: Id, fullName: string, fullAddress: string, phoneNumber: string,
    specificAddress: string, isDefault: bool, userId: Id)

  datatype OtpRow = OtpRow(id: Id, token: string, expiryDate: int, otp: string, userId: Id)

  datatype Category = Category(id: Id, name: string, imageUrl: string)

  datatype Food = Food(
    id: Id, name: string, description: string, costPrice: real, sellingPrice: real,
    soldCount: int, isActive: bool, timeEstimate: int, totalRating: real,
    averageRating: real, images: seq<string>, categoryId: Id)

  datatype OptionGroup = OptionGroup(
    id: Id, name: string, required: bool, multiple: bool, freeLimit: int,
    sequence: int, foodId: Id)

  datatype ItemOption = ItemOption(
    id: Id, optionName: string, additionalPrice: real, sequence: int, optionGroupId: Id)

  datatype Cart = Cart(id: Id, userId: Id)

  datatype CartItem = CartItem(id: Id, foodId: Id, shoppingCartId: Id, quantity: int)

  /** A selected option of a cart item; both references are nullable columns. */
  datatype CartItemOption = CartItemOption(
    shoppingCartItemId: Id, optionGroupId: Option<Id>, optionId: Option<Id>)

  datatype Order = Order(
    id: Id, userId: Id, specificAddress: string, fullAddress: string,
    fullName: string, phoneNumber: string, orderDate: int,
    currentStatus: OrderStatus, shippingFee: Option<real>, payStatus: PayStatus,
    paymentMethod: PaymentMethod, total: real, subTotal: real)

  datatype HistoryRow = HistoryRow(orderId: Id, status: OrderStatus, changedAt: int)

  datatype OrderItem = OrderItem(
    id: Id, orderId: Id, menuItemId: Id, menuItemName: string, quantity: int,
    unitPrice: real, costPrice: real, avatar: string, isRated: bool,
    optionsPrice: real, totalPrice: real)

  /** The snapshot of one selected option, copied at order time. */
  datatype OrderItemOption = OrderItemOption(
    orderItemId: Id, optionGroupName: string, optionItemName: string, additionalPrice: real)

  datatype Payment = Payment(
    orderId: Id, userId: Id, amount: real, paymentMethod: PaymentMethod,
    status: PayStatus, paidAt: int, transactionId: string)

  datatype RevenueSummary = RevenueSummary(totalRevenue: real, totalCost: real, totalProfit: real)

  datatype Rating = Rating(
    id: Id, userId: Id, content: string, rating: real, createdAt: int, foodId: Id,
    images: seq<string>, optionItemNames: seq<string>)

  // -------------------------------------------------------------- defaults

  /** A users row as inserted without role, photo or flags. */
  function NewUser(id: Id, fullName: string, email: string, dateOfBirth: string,
                   gender: string, password: string, now: int): (u: User)
    ensures u.role == Customer && u.photoUrl == ""
    ensures !u.emailVerified && !u.lockoutEnd
    ensures u.id == id && u.email == email && u.password == password
  {
    User(id, fullName, email, dateOfBirth, gender, Customer, "", now, password, false, false)
  }

  /** A foods row as inserted from a create request: nothing sold, active,
      no ratings; the time estimate falls back to 30 minutes. */
  function NewFood(id: Id, name: string, description: string, costPrice: real,
                   sellingPrice: real, timeEstimate: Option<int>, images: seq<string>,
                   categoryId: Id): (f: Food)
    ensures f.soldCount == 0 && f.isActive
    ensures f.totalRating == 0.0 && f.averageRating == 0.0
    ensures f.timeEstimate == (if timeEstimate.Some? then timeEstimate.value else 30)
    ensures f.id == id && f.categoryId == categoryId && f.images == images
  {
    Food(id, name, description, costPrice, sellingPrice, 0, true,
         timeEstimate.GetOr(30), 0.0, 0.0, images, categoryId)
  }

  /** An orders row as first inserted: totals at their defaults (0) and the
      pay status at its default (Failed). */
  function NewOrder(id: Id, userId: Id, a: Address, orderDate: int,
                    shippingFee: Option<real>, paymentMethod: PaymentMethod): (o: Order)
    ensures o.payStatus == PayFailed && o.total == 0.0 && o.subTotal == 0.0
    ensures o.currentStatus == Pending
    ensures o.fullName == a.fullName && o.phoneNumber == a.phoneNumber
    ensures o.fullAddress == a.fullAddress && o.specificAddress == a.specificAddress
  {
    Order(id, userId, a.specificAddress, a.fullAddress, a.fullName, a.phoneNumber,
          orderDate, Pending, shippingFee, PayFailed, paymentMethod, 0.0, 0.0)
  }

  /** An order_items row inserted without option price, total or rating:
      the three defaults (0, 0, not rated). */
  function DefaultOrderItem(id: Id, orderId: Id, menuItemId: Id, quantity: int,
                            unitPrice: real, costPrice: real): (i: OrderItem)
    ensures !i.isRated && i.optionsPrice == 0.0 && i.totalPrice == 0.0
    ensures i.menuItemName == "" && i.avatar == ""
  {
    OrderItem(id, orderId, menuItemId, "", quantity, unitPrice, costPrice, "", false, 0.0, 0.0)
  }

  /** A payments row inserted without status or transaction id. */
  function DefaultPayment(orderId: Id, userId: Id, amount: real,
                          paymentMethod: PaymentMethod, paidAt: int): (p: Payment)
    ensures p.status == PayFailed && p.transactionId == ""
    ensures p.amount == amount && p.orderId == orderId
  {
    Payment(orderId, userId, amount, paymentMethod, PayFailed, paidAt, "")
  }
}
