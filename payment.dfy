/** The Stripe checkout (services/payment.service.ts): an order becomes a list
    of priced lines in integer cents, plus a shipping line when the order
    charges shipping; once the gateway has opened a session, a pending
    payment row records its id. The gateway is a parameter. */
module Payments {
  import opened Wrappers
  import opened Schema
  import opened Text
  import opened Tables
  import Orders

  /** Math.round: the nearest integer, a half rounding up. */
  function Round(x: real): (n: int)
    ensures n as real - 0.5 <= x < n as real + 0.5
  {
    (x + 0.5).Floor
  }

  /** An amount in dollars as a whole number of cents. */
  function Cents(x: real): (n: int)
    ensures n as real - 0.5 <= x * 100.0 < n as real + 0.5
  {
    Round(x * 100.0)
  }

  datatype LineItem = LineItem(
    unitAmount: int, currency: string, name: string,
    description: Option<string>, images: seq<string>, quantity: int)

  /** The line's option surcharge spread over its units; nothing for an
      empty line. */
  function UnitOptionsPrice(item: Orders.ItemView): (r: real)
    ensures item.quantity > 0 ==> r * item.quantity as real == item.optionsPrice
    ensures item.quantity <= 0 ==> r == 0.0
  {
    if item.quantity > 0 then item.optionsPrice / item.quantity as real else 0.0
  }

  function OptionNames(options: seq<OrderItemOption>): (r: seq<string>)
    ensures |r| == |options|
    ensures forall i :: 0 <= i < |options| ==> r[i] == options[i].optionItemName
  {
    if options == [] then []
    else OptionNames(options[..|options| - 1]) + [options[|options| - 1].optionItemName]
  }

  /** getOptionsDescription: nothing for a line without options, otherwise
      the option names after "Options: ", separated by ", ". */
  function OptionsDescription(options: seq<OrderItemOption>): (r: string)
    ensures r == "" <==> options == []
    ensures options != [] ==> |r| >= 9 && r[..9] == "Options: " && r[9..] == Join(OptionNames(options), ", ")
  {
    if options == [] then "" else "Options: " + Join(OptionNames(options), ", ")
  }

  /** The checkout line of one order line. */
  function ItemLine(item: Orders.ItemView): LineItem {
    LineItem(Cents(item.unitPrice + UnitOptionsPrice(item)), "usd", item.menuItemName,
             Some(OptionsDescription(item.options)),
             if item.avatar != "" then [item.avatar] else [], item.quantity)
  }

  function ItemLines(items: seq<Orders.ItemView>): (r: seq<LineItem>)
    ensures |r| == |items|
    ensures forall i :: 0 <= i < |items| ==> r[i] == ItemLine(items[i])
  {
    if items == [] then [] else ItemLines(items[..|items| - 1]) + [ItemLine(items[|items| - 1])]
  }

  /** The shipping line: one unit of the fee. */
  function ShippingLine(fee: real): LineItem {
    LineItem(Cents(fee), "usd", "Shipping Fee", None, [], 1)
  }

  /** A missing fee and a zero fee are both falsy: only a positive fee is
      charged. */
  predicate ChargesShipping(fee: Option<real>) {
    fee.Some? && fee.value > 0.0
  }

  function CheckoutLines(d: Orders.OrderDetail): seq<LineItem> {
    ItemLines(d.items) + (if ChargesShipping(d.order.shippingFee) then [ShippingLine(d.order.shippingFee.value)] else [])
  }

  /** One line per order line, in order, and after them exactly one
      "Shipping Fee" line of quantity 1 when the order charges shipping. */
  lemma CheckoutLinesShape(d: Orders.OrderDetail)
    ensures |CheckoutLines(d)| == |d.items| + (if ChargesShipping(d.order.shippingFee) then 1 else 0)
    ensures forall i :: 0 <= i < |d.items| ==>
      && CheckoutLines(d)[i].quantity == d.items[i].quantity
      && CheckoutLines(d)[i].name == d.items[i].menuItemName
      && CheckoutLines(d)[i].unitAmount == Cents(d.items[i].unitPrice + UnitOptionsPrice(d.items[i]))
    ensures ChargesShipping(d.order.shippingFee) ==>
      && CheckoutLines(d)[|d.items|].name == "Shipping Fee"
      && CheckoutLines(d)[|d.items|].quantity == 1
      && CheckoutLines(d)[|d.items|].unitAmount == Cents(d.order.shippingFee.value)
  {
  }

  /** For an order line whose total is its unit price times its quantity
      plus its option surcharge, the checkout charges per unit the line's
      total divided by its quantity, rounded to the cent: the surcharge is
      spread over the units, so it is paid once in all. */
  lemma ItemLineChargesLineTotal(item: Orders.ItemView)
    requires item.quantity > 0
    requires item.totalPrice == item.unitPrice * item.quantity as real + item.optionsPrice
    ensures ItemLine(item).unitAmount == Cents(item.totalPrice / item.quantity as real)
  {
    var q := item.quantity as real;
    PerUnit(item.unitPrice, item.optionsPrice, q);
    var x := item.unitPrice + UnitOptionsPrice(item);
    assert UnitOptionsPrice(item) == item.optionsPrice / q;
    assert x == item.totalPrice / q;
    assert ItemLine(item).unitAmount == Cents(x);
  }

  lemma PerUnit(p: real, o: real, q: real)
    requires q > 0.0
    ensures p + o / q == (p * q + o) / q
  {
  }

  // ------------------------------------------------------------- session

  /** STRIPE_SUCCESS_URL / STRIPE_CANCEL_URL: an unset or empty variable
      falls back to the local default. */
  function Setting(env: Option<string>, default: string): (r: string)
    ensures env.Some? && env.value != "" ==> r == env.value
    ensures env.None? || env.value == "" ==> r == default
  {
    if env.Some? && env.value != "" then env.value else default
  }

  datatype Settings = Settings(successUrl: string, cancelUrl: string)

  function SettingsOf(successEnv: Option<string>, cancelEnv: Option<string>): Settings {
    Settings(Setting(successEnv, "http://localhost:3000/success"),
             Setting(cancelEnv, "http://localhost:3000/cancel"))
  }

  datatype SessionRequest = SessionRequest(
    paymentMethodTypes: seq<string>, lineItems: seq<LineItem>, mode: string,
    successUrl: string, cancelUrl: string, clientReferenceId: Id,
    customerEmail: string, metadata: map<string, string>)

  /** What the gateway answers: the session's id and its payment page. */
  datatype Session = Session(id: string, url: string)

  datatype PayResponse = PayResponse(payUrl: string)

  function SessionFor(d: Orders.OrderDetail, email: string, s: Settings, lines: seq<LineItem>): (r: SessionRequest)
    ensures r.clientReferenceId == d.order.id && "OrderId" in r.metadata && r.metadata["OrderId"] == d.order.id
    ensures r.customerEmail == email && "UserEmail" in r.metadata && r.metadata["UserEmail"] == email
    ensures r.lineItems == lines && r.mode == "payment"
  {
    SessionRequest(["card"], lines, "payment",
                   s.successUrl + "?session_id={CHECKOUT_SESSION_ID}",
                   s.cancelUrl + "?order_id=" + d.order.id,
                   d.order.id, email,
                   map["OrderId" := d.order.id, "UserEmail" := email])
  }

  /** The pending payment row of a session: transaction id, order total and
      method stripe; status Failed until the payment is confirmed. */
  function InitPaymentRow(transactionId: string, o: Order, amount: real, now: int): (p: Payment)
    ensures p.transactionId == transactionId && p.amount == amount
    ensures p.orderId == o.id && p.userId == o.userId
    ensures p.paymentMethod == Stripe && p.status == PayFailed
  {
    var p := DefaultPayment(o.id, o.userId, amount, Stripe, now);
    p.(transactionId := transactionId)
  }

  /** createInitPayment: an unknown order fails with "Order not found" and
      writes nothing; otherwise one payment row is appended. */
  method CreateInitPayment(db: Database, transactionId: string, orderId: Id, amount: real, now: int)
    returns (out: Outcome)
    modifies db`payments
    ensures out.Failed? <==> OrderWithId(db.orders, orderId).None?
    ensures out.Failed? ==> out.msg == "Order not found" && db.payments == old(db.payments)
    ensures out.Done? ==>
      db.payments == old(db.payments) + [InitPaymentRow(transactionId, OrderWithId(db.orders, orderId).value, amount, now)]
  {
    var order := OrderWithId(db.orders, orderId);
    if order.None? {
      return Failed("Order not found");
    }
    db.payments := db.payments + [InitPaymentRow(transactionId, order.value, amount, now)];
    return Done;
  }

  /** createPayment: builds the lines in a loop, opens the session through
      `gateway`, then records the pending payment. A gateway failure is
      rethrown before anything is written. */
  method CreatePayment(db: Database, d: Orders.OrderDetail, email: string, s: Settings,
                       gateway: SessionRequest -> Result<Session>, now: int)
    returns (r: Result<PayResponse>, request: SessionRequest)
    modifies db`payments
    ensures request == SessionFor(d, email, s, CheckoutLines(d))
    ensures gateway(request).Err? ==> r == Err(gateway(request).msg) && db.payments == old(db.payments)
    ensures gateway(request).Ok? && OrderWithId(db.orders, d.order.id).None? ==>
      r == Err("Order not found") && db.payments == old(db.payments)
    ensures gateway(request).Ok? && OrderWithId(db.orders, d.order.id).Some? ==>
      && r == Ok(PayResponse(gateway(request).value.url))
      && db.payments == old(db.payments) +
           [InitPaymentRow(gateway(request).value.id, OrderWithId(db.orders, d.order.id).value, d.order.total, now)]
  {
    var lines: seq<LineItem> := [];
    var k := 0;
    while k < |d.items|
      invariant 0 <= k <= |d.items|
      invariant lines == ItemLines(d.items[..k])
    {
      assert d.items[..k + 1][..k] == d.items[..k];
      lines := lines + [ItemLine(d.items[k])];
      k := k + 1;
    }
    assert d.items[..k] == d.items;
    if ChargesShipping(d.order.shippingFee) {
      lines := lines + [ShippingLine(d.order.shippingFee.value)];
    }
    request := SessionFor(d, email, s, lines);
    var session := gateway(request);
    if session.Err? {
      return Err(session.msg), request;
    }
    var out := CreateInitPayment(db, session.value.id, d.order.id, d.order.total, now);
    if out.Failed? {
      return Err(out.msg), request;
    }
    r := Ok(PayResponse(session.value.url));
  }
}
