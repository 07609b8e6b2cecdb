/** The order schemas (validation/order.ts): placing an order, and the
    customer's order-list filter. The rounding that `precision(2)` applies to
    a number is not modelled; a number passes it unchanged. */
module OrderRules {
  import opened Wrappers
  import opened Text
  import opened Schema
  import opened Joi
  import Orders

  datatype ChoiceBody = ChoiceBody(optionGroupId: Option<string>, optionItemId: Option<string>)

  datatype ItemBody = ItemBody(
    menuItemId: Option<string>, quantity: Option<int>, unitPrice: Option<real>,
    orderItemsOptions: Option<seq<ChoiceBody>>)

  datatype OrderBody = OrderBody(
    addressId: Option<string>, shippingFee: Option<real>, paymentMethod: Option<string>,
    orderItems: Option<seq<ItemBody>>)

  predicate ChoiceAccepted(c: ChoiceBody, f: Formats) {
    FormatKey(c.optionGroupId, true, f.uuid) && FormatKey(c.optionItemId, true, f.uuid)
  }

  /** orderItemRequestSchema: the option list is required and may be empty. */
  predicate ItemAccepted(it: ItemBody, f: Formats) {
    && FormatKey(it.menuItemId, true, f.uuid)
    && IntKey(it.quantity, true, 1, None)
    && NumberKey(it.unitPrice, true, 0.0)
    && it.orderItemsOptions.Some?
    && forall i :: 0 <= i < |it.orderItemsOptions.value| ==> ChoiceAccepted(it.orderItemsOptions.value[i], f)
  }

  /** The payment methods the schema lists. */
  predicate KnownMethod(m: string) {
    m == "stripe" || m == "cod" || m == "paypal"
  }

  /** orderRequestSchema: an address, a fee of at least 0, one of the three
      payment methods, and at least one line. */
  predicate OrderAccepted(b: OrderBody, f: Formats) {
    && FormatKey(b.addressId, true, f.uuid)
    && NumberKey(b.shippingFee, true, 0.0)
    && b.paymentMethod.Some? && KnownMethod(b.paymentMethod.value)
    && b.orderItems.Some? && |b.orderItems.value| >= 1
    && forall i :: 0 <= i < |b.orderItems.value| ==> ItemAccepted(b.orderItems.value[i], f)
  }

  function ChoiceOf(c: ChoiceBody, f: Formats): Orders.OptionChoice
    requires ChoiceAccepted(c, f)
  {
    Orders.OptionChoice(c.optionGroupId.value, c.optionItemId.value)
  }

  function ItemOf(it: ItemBody, f: Formats): (r: Orders.ItemRequest)
    requires ItemAccepted(it, f)
    ensures r.quantity >= 1 && |r.options| == |it.orderItemsOptions.value|
  {
    var cs := it.orderItemsOptions.value;
    Orders.ItemRequest(it.menuItemId.value, it.quantity.value, it.unitPrice.value,
      seq(|cs|, i requires 0 <= i < |cs| && ChoiceAccepted(cs[i], f) => ChoiceOf(cs[i], f)))
  }

  /** The request the order service receives once the body passes; the
      method's text becomes the method it names. */
  function OrderRequestOf(b: OrderBody, f: Formats): (r: Orders.OrderRequest)
    requires OrderAccepted(b, f)
    ensures |r.items| == |b.orderItems.value|
    ensures forall i :: 0 <= i < |r.items| ==> r.items[i] == ItemOf(b.orderItems.value[i], f)
  {
    var its := b.orderItems.value;
    var m := ParseMethod(b.paymentMethod.value);
    var pm := if m.Some? then m.value else Cod;
    Orders.OrderRequest(b.addressId.value, b.shippingFee, pm,
      seq(|its|, i requires 0 <= i < |its| && ItemAccepted(its[i], f) => ItemOf(its[i], f)))
  }

  /** An accepted order has at least one line, every line at least one
      unit, a fee of at least 0, and names its payment method exactly: the
      method's label is the text sent. */
  lemma AcceptedOrderShape(b: OrderBody, f: Formats)
    requires OrderAccepted(b, f)
    ensures var r := OrderRequestOf(b, f);
      && |r.items| >= 1
      && (forall i :: 0 <= i < |r.items| ==> r.items[i].quantity >= 1)
      && r.shippingFee.Some? && r.shippingFee.value >= 0.0
      && MethodLabel(r.paymentMethod) == b.paymentMethod.value
  {
    var m := b.paymentMethod.value;
    assert ParseMethod(m).Some? by {
      if m == "cod" {
        LabelsRoundTrip(Pending, Cod, PayFailed);
      } else if m == "stripe" {
        LabelsRoundTrip(Pending, Stripe, PayFailed);
      } else {
        LabelsRoundTrip(Pending, Paypal, PayFailed);
      }
    }
    var r := OrderRequestOf(b, f);
    forall i | 0 <= i < |r.items| ensures r.items[i].quantity >= 1 {
      assert r.items[i] == ItemOf(b.orderItems.value[i], f);
    }
  }

  /** A method the schema does not list, such as "card" or "COD", is
      refused. */
  lemma UnknownMethodRefused(b: OrderBody, f: Formats)
    requires b.paymentMethod == Some("card") || b.paymentMethod == Some("COD")
    ensures !OrderAccepted(b, f)
  {
    assert "COD"[0] != "cod"[0];
  }

  // ------------------------------------------------------------ list filter

  datatype FilterBody = FilterBody(
    page: Option<int>, limit: Option<int>, status: Option<string>, sort: Option<string>,
    keyword: Option<string>)

  /** userOrderFilterSchema: page at least 0, limit from 1 to 100, and a
      keyword of at most 100 characters once trimmed, which may be empty. */
  predicate FilterAccepted(b: FilterBody) {
    && IntKey(b.page, false, 0, None)
    && IntKey(b.limit, false, 1, Some(100))
    && (b.status.None? || StringOk(b.status.value, false, false, 0, None))
    && (b.sort.None? || StringOk(b.sort.value, false, false, 0, None))
    && (b.keyword.None? || StringOk(b.keyword.value, true, true, 0, Some(100)))
  }

  /** The service receives the query as sent: the schema's defaults (page
      1, limit 3) are computed but not handed on. */
  function FilterOf(b: FilterBody): Orders.UserOrderFilter {
    Orders.UserOrderFilter(b.status, b.keyword, b.sort, b.page, b.limit)
  }

  /** An accepted filter gives a page of 1 to 100 orders starting at a
      row that is not negative; without a page the service starts at page
      0, not at the schema's default 1. */
  lemma AcceptedFilterPaging(userId: Id, b: FilterBody)
    requires FilterAccepted(b)
    ensures var p := Orders.UserOrderQuery(userId, FilterOf(b)).paging;
      && 0 <= p.page && 1 <= p.limit <= 100 && 0 <= p.offset
      && (b.page.None? ==> p.page == 0)
      && (b.limit.None? ==> p.limit == 3)
      && (b.limit.Some? ==> p.limit == b.limit.value)
  {
    var p := Orders.UserOrderQuery(userId, FilterOf(b)).paging;
    assert p == Orders.PagingOf(b.page, b.limit, 3);
    assert 0 <= p.page * p.limit;
  }

  /** The keyword bound is on the trimmed text: surrounding spaces do not
      count against the 100 characters. */
  lemma KeywordBoundIsTrimmed(b: FilterBody)
    requires FilterAccepted(b) && b.keyword.Some?
    ensures |Trim(b.keyword.value)| <= 100
  {
  }
}
