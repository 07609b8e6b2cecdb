/** Orders (services/order.service.ts): placing an order from a request,
    moving it through its statuses with the delivery side effects, loading
    it, and mapping the list filters to queries. */
module Orders {
  import opened Wrappers
  import opened Schema
  import opened Rows
  import opened Text
  import opened Tables
  import Revenue
  import Menu = Food

  // ------------------------------------------------------------- requests

  datatype OptionChoice = OptionChoice(optionGroupId: Id, optionItemId: Id)

  /** One requested line. The client's unit price is carried but never read. */
  datatype ItemRequest = ItemRequest(menuItemId: Id, quantity: int, unitPrice: real, options: seq<OptionChoice>)

  datatype OrderRequest = OrderRequest(
    addressId: Id, shippingFee: Option<real>, paymentMethod: PaymentMethod, items: seq<ItemRequest>)

  // -------------------------------------------------------------- pricing

  /** The copy of a selected option kept with an order line. */
  datatype Snapshot = Snapshot(groupName: string, optionName: string, price: real)

  /** One selected option looked up: its group, then the option itself. */
  function ResolveChoice(c: OptionChoice, groups: seq<OptionGroup>, options: seq<ItemOption>): Result<Snapshot> {
    match GroupWithId(groups, c.optionGroupId)
    case None => Err("Cannot find option group with id: " + c.optionGroupId)
    case Some(g) =>
      match OptionWithId(options, c.optionItemId)
      case None => Err("Cannot find item option with id: " + c.optionItemId)
      case Some(o) => Ok(Snapshot(g.name, o.optionName, o.additionalPrice))
  }

  /** All selected options of a line, in request order, or the error of the
      first one that cannot be found. */
  function ResolveAll(cs: seq<OptionChoice>, groups: seq<OptionGroup>, options: seq<ItemOption>)
    : (r: Result<seq<Snapshot>>)
    ensures r.Ok? ==> |r.value| == |cs|
  {
    if cs == [] then Ok([])
    else
      var prev := ResolveAll(cs[..|cs| - 1], groups, options);
      if prev.Err? then prev
      else match ResolveChoice(cs[|cs| - 1], groups, options)
        case Err(m) => Err(m)
        case Ok(s) => Ok(prev.value + [s])
  }

  /** The position of the first option that cannot be found, or the number
      of options when all can. */
  function FirstUnresolved(cs: seq<OptionChoice>, groups: seq<OptionGroup>, options: seq<ItemOption>): (k: nat)
    ensures k <= |cs|
    ensures forall j :: 0 <= j < k ==> ResolveChoice(cs[j], groups, options).Ok?
    ensures k < |cs| ==> ResolveChoice(cs[k], groups, options).Err?
  {
    if cs == [] then 0
    else
      var k := FirstUnresolved(cs[..|cs| - 1], groups, options);
      assert forall j :: 0 <= j < |cs| - 1 ==> cs[..|cs| - 1][j] == cs[j];
      if k < |cs| - 1 || ResolveChoice(cs[|cs| - 1], groups, options).Err? then k else |cs|
  }

  /** The options resolve exactly when none is missing, and otherwise the
      error is that of the first missing one. */
  lemma {:induction false} ResolveAllFails(cs: seq<OptionChoice>, groups: seq<OptionGroup>, options: seq<ItemOption>)
    ensures ResolveAll(cs, groups, options).Ok? <==> FirstUnresolved(cs, groups, options) == |cs|
    ensures ResolveAll(cs, groups, options).Err? ==>
      ResolveChoice(cs[FirstUnresolved(cs, groups, options)], groups, options) == Err(ResolveAll(cs, groups, options).msg)
  {
    if cs != [] {
      var init := cs[..|cs| - 1];
      ResolveAllFails(init, groups, options);
      var k := FirstUnresolved(init, groups, options);
      if k < |init| {
        assert init[k] == cs[k];
      }
    }
  }

  /** When the options resolve, the snapshots are the options' own, in
      request order. */
  lemma {:induction false} ResolveAllPointwise(cs: seq<OptionChoice>, groups: seq<OptionGroup>, options: seq<ItemOption>)
    requires ResolveAll(cs, groups, options).Ok?
    ensures forall j :: 0 <= j < |cs| ==>
      ResolveChoice(cs[j], groups, options) == Ok(ResolveAll(cs, groups, options).value[j])
  {
    if cs != [] {
      var init := cs[..|cs| - 1];
      ResolveAllPointwise(init, groups, options);
      var r, prev := ResolveAll(cs, groups, options).value, ResolveAll(init, groups, options).value;
      var last := ResolveChoice(cs[|cs| - 1], groups, options);
      assert last.Ok? && r == prev + [last.value];
      forall j | 0 <= j < |cs| ensures ResolveChoice(cs[j], groups, options) == Ok(r[j]) {
        if j < |init| {
          assert ResolveChoice(init[j], groups, options) == Ok(prev[j]);
          assert cs[j] == init[j] && r[j] == prev[j];
        } else {
          assert j == |cs| - 1 && r[j] == last.value;
        }
      }
    }
  }

  /** Once an option is missing, the options after it are not looked up. */
  lemma {:induction false} ResolveAllStops(cs: seq<OptionChoice>, k: nat, groups: seq<OptionGroup>, options: seq<ItemOption>)
    requires k <= |cs| && ResolveAll(cs[..k], groups, options).Err?
    ensures ResolveAll(cs, groups, options) == ResolveAll(cs[..k], groups, options)
    decreases |cs| - k
  {
    if k == |cs| {
      assert cs[..k] == cs;
    } else {
      var init := cs[..|cs| - 1];
      assert init[..k] == cs[..k];
      ResolveAllStops(init, k, groups, options);
    }
  }

  function SumPrices(s: seq<Snapshot>): real {
    if s == [] then 0.0 else SumPrices(s[..|s| - 1]) + s[|s| - 1].price
  }

  /** A line priced from the menu: the unit price is the item's selling
      price, the options are charged once per line. */
  datatype PricedLine = PricedLine(food: Food, quantity: int, snapshots: seq<Snapshot>, optionsPrice: real, totalPrice: real)

  /** The total of a line: the menu price times the quantity, plus the
      option surcharges once. */
  function LineTotal(price: real, quantity: int, optionsPrice: real): real {
    price * quantity as real + optionsPrice
  }

  function PriceLine(it: ItemRequest, foods: seq<Food>, groups: seq<OptionGroup>, options: seq<ItemOption>)
    : (r: Result<PricedLine>)
    ensures r.Ok? ==>
      && r.value.food.id == it.menuItemId && r.value.quantity == it.quantity
      && ResolveAll(it.options, groups, options) == Ok(r.value.snapshots)
      && r.value.optionsPrice == SumPrices(r.value.snapshots)
      && r.value.totalPrice == LineTotal(r.value.food.sellingPrice, it.quantity, r.value.optionsPrice)
    ensures FoodWithId(foods, it.menuItemId).None? ==> r == Err("Cannot find food with id: " + it.menuItemId)
  {
    match FoodWithId(foods, it.menuItemId)
    case None => Err("Cannot find food with id: " + it.menuItemId)
    case Some(f) =>
      match ResolveAll(it.options, groups, options)
      case Err(m) => Err(m)
      case Ok(s) =>
        var optionsPrice := SumPrices(s);
        Ok(PricedLine(f, it.quantity, s, optionsPrice, LineTotal(f.sellingPrice, it.quantity, optionsPrice)))
  }

  /** The lines priced in request order up to the first failure, and that
      failure's message if there is one. */
  function PriceAll(items: seq<ItemRequest>, foods: seq<Food>, groups: seq<OptionGroup>, options: seq<ItemOption>)
    : (r: (seq<PricedLine>, Option<string>))
    ensures |r.0| <= |items|
    ensures r.1.None? <==> |r.0| == |items|
  {
    if items == [] then ([], None)
    else
      var prev := PriceAll(items[..|items| - 1], foods, groups, options);
      if prev.1.Some? then prev
      else match PriceLine(items[|items| - 1], foods, groups, options)
        case Err(m) => (prev.0, Some(m))
        case Ok(l) => (prev.0 + [l], None)
  }

  /** The priced lines are those of the requested lines in order, and the
      error is that of the first line that cannot be priced. */
  lemma {:induction false} PriceAllLines(items: seq<ItemRequest>, foods: seq<Food>,
                                         groups: seq<OptionGroup>, options: seq<ItemOption>)
    ensures var r := PriceAll(items, foods, groups, options);
      && (forall k :: 0 <= k < |r.0| ==> PriceLine(items[k], foods, groups, options) == Ok(r.0[k]))
      && (r.1.Some? ==> PriceLine(items[|r.0|], foods, groups, options) == Err(r.1.value))
  {
    if items != [] {
      var init := items[..|items| - 1];
      PriceAllLines(init, foods, groups, options);
      var prev := PriceAll(init, foods, groups, options);
      var r := PriceAll(items, foods, groups, options);
      forall k | 0 <= k < |prev.0| ensures PriceLine(items[k], foods, groups, options) == Ok(prev.0[k]) {
        assert init[k] == items[k];
      }
      if prev.1.Some? {
        assert r == prev;
        assert init[|prev.0|] == items[|prev.0|];
      } else {
        assert |prev.0| == |init| == |items| - 1;
      }
    }
  }

  lemma PriceAllSnoc(items: seq<ItemRequest>, k: nat, foods: seq<Food>, groups: seq<OptionGroup>, options: seq<ItemOption>)
    requires k < |items| && PriceAll(items[..k], foods, groups, options).1.None?
    ensures PriceAll(items[..k + 1], foods, groups, options) ==
      match PriceLine(items[k], foods, groups, options)
      case Err(m) => (PriceAll(items[..k], foods, groups, options).0, Some(m))
      case Ok(l) => (PriceAll(items[..k], foods, groups, options).0 + [l], None)
  {
    assert items[..k + 1][..k] == items[..k];
  }

  /** Once a line fails, the lines after it are not looked at. */
  lemma {:induction false} PriceAllStops(items: seq<ItemRequest>, k: nat, foods: seq<Food>,
                                         groups: seq<OptionGroup>, options: seq<ItemOption>)
    requires k <= |items| && PriceAll(items[..k], foods, groups, options).1.Some?
    ensures PriceAll(items, foods, groups, options) == PriceAll(items[..k], foods, groups, options)
    decreases |items| - k
  {
    if k == |items| {
      assert items[..k] == items;
    } else {
      var init := items[..|items| - 1];
      assert init[..k] == items[..k];
      PriceAllStops(init, k, foods, groups, options);
    }
  }

  /** The client's unit prices play no part in pricing: requests that differ
      only there price identically. */
  lemma {:induction false} PricingIgnoresClientPrice(a: seq<ItemRequest>, b: seq<ItemRequest>, foods: seq<Food>,
                                                     groups: seq<OptionGroup>, options: seq<ItemOption>)
    requires |a| == |b|
    requires forall k :: 0 <= k < |a| ==> a[k].(unitPrice := 0.0) == b[k].(unitPrice := 0.0)
    ensures PriceAll(a, foods, groups, options) == PriceAll(b, foods, groups, options)
  {
    if a != [] {
      var n := |a| - 1;
      assert a[n].menuItemId == b[n].menuItemId && a[n].quantity == b[n].quantity && a[n].options == b[n].options;
      assert PriceLine(a[n], foods, groups, options) == PriceLine(b[n], foods, groups, options);
      PricingIgnoresClientPrice(a[..n], b[..n], foods, groups, options);
    }
  }

  function SubTotal(lines: seq<PricedLine>): real {
    if lines == [] then 0.0 else SubTotal(lines[..|lines| - 1]) + lines[|lines| - 1].totalPrice
  }

  /** `request.shippingFee || 0`. */
  function ShippingFee(fee: Option<real>): real {
    if fee.Some? then fee.value else 0.0
  }

  function Avatar(images: seq<string>): string {
    if |images| > 0 then images[0] else ""
  }

  /** The order_items row of a priced line: isRated is left to its default. */
  function ItemRow(id: Id, orderId: Id, l: PricedLine): OrderItem {
    DefaultOrderItem(id, orderId, l.food.id, l.quantity, l.food.sellingPrice, l.food.costPrice)
      .(menuItemName := l.food.name, avatar := Avatar(l.food.images),
        optionsPrice := l.optionsPrice, totalPrice := l.totalPrice)
  }

  /** The order_items rows of the priced lines, the k-th under `itemId(k)`. */
  function ItemRows(orderId: Id, lines: seq<PricedLine>, itemId: nat -> Id): (r: seq<OrderItem>)
    ensures |r| == |lines|
  {
    if lines == [] then []
    else ItemRows(orderId, lines[..|lines| - 1], itemId) + [ItemRow(itemId(|lines| - 1), orderId, lines[|lines| - 1])]
  }

  function SnapshotRow(itemId: Id, s: Snapshot): OrderItemOption {
    OrderItemOption(itemId, s.groupName, s.optionName, s.price)
  }

  /** The order_item_options rows of one line's snapshots. */
  function SnapshotRowsOf(itemId: Id, s: seq<Snapshot>): (r: seq<OrderItemOption>)
    ensures |r| == |s|
  {
    if s == [] then [] else SnapshotRowsOf(itemId, s[..|s| - 1]) + [SnapshotRow(itemId, s[|s| - 1])]
  }

  /** The option snapshots of all lines: each line's, in request order, under
      that line's id. */
  function SnapshotRows(lines: seq<PricedLine>, itemId: nat -> Id): seq<OrderItemOption> {
    if lines == [] then []
    else SnapshotRows(lines[..|lines| - 1], itemId) +
         SnapshotRowsOf(itemId(|lines| - 1), lines[|lines| - 1].snapshots)
  }

  /** The order row once its totals are written. */
  function Placed(base: Order, subTotal: real, fee: real): (o: Order)
    ensures o.total == o.subTotal + fee && o.subTotal == subTotal
    ensures o.currentStatus == base.currentStatus && o.payStatus == base.payStatus
  {
    base.(subTotal := subTotal, total := subTotal + fee, shippingFee := Some(fee))
  }

  /** `update orders set subTotal, total, shippingFee where id = ...`. */
  function WriteTotals(orders: seq<Order>, id: Id, subTotal: real, fee: real): (r: seq<Order>)
    ensures |r| == |orders|
    ensures forall i :: 0 <= i < |orders| ==>
      r[i] == if orders[i].id == id then Placed(orders[i], subTotal, fee) else orders[i]
  {
    Update(orders, (o: Order) => o.id == id, (o: Order) => Placed(o, subTotal, fee))
  }

  /** With a fresh id, the totals land on the order just inserted only. */
  lemma WriteTotalsFresh(orders: seq<Order>, base: Order, subTotal: real, fee: real)
    requires OrderWithId(orders, base.id).None?
    ensures WriteTotals(orders + [base], base.id, subTotal, fee) == orders + [Placed(base, subTotal, fee)]
  {
    var r := WriteTotals(orders + [base], base.id, subTotal, fee);
    forall k | 0 <= k < |r| ensures r[k] == (orders + [Placed(base, subTotal, fee)])[k] {
      if k < |orders| {
        assert (orders + [base])[k] == orders[k];
      }
    }
  }

  // ---------------------------------------------------------------- views

  /** An order line as returned to clients: every column but the cost price,
      with its option snapshots. */
  datatype ItemView = ItemView(
    id: Id, orderId: Id, menuItemId: Id, menuItemName: string, quantity: int, unitPrice: real,
    avatar: string, isRated: bool, optionsPrice: real, totalPrice: real, options: seq<OrderItemOption>)

  datatype OrderDetail = OrderDetail(order: Order, history: seq<HistoryRow>, items: seq<ItemView>)

  /** The view of a line carries the line's columns and exactly the option
      snapshots recorded for it. */
  function ViewOf(it: OrderItem, options: seq<OrderItemOption>): (v: ItemView)
    ensures v.id == it.id && v.orderId == it.orderId && v.menuItemId == it.menuItemId
    ensures v.quantity == it.quantity && v.unitPrice == it.unitPrice && v.totalPrice == it.totalPrice
    ensures forall o :: o in v.options <==> o in options && o.orderItemId == it.id
  {
    ItemView(it.id, it.orderId, it.menuItemId, it.menuItemName, it.quantity, it.unitPrice, it.avatar,
             it.isRated, it.optionsPrice, it.totalPrice, OptionsOfItem(options, it.id))
  }

  /** The cost price never reaches the client: lines that differ only in
      their cost look the same. */
  lemma ViewHidesCost(a: OrderItem, b: OrderItem, options: seq<OrderItemOption>)
    requires a.(costPrice := 0.0) == b.(costPrice := 0.0)
    ensures ViewOf(a, options) == ViewOf(b, options)
  {
    assert a.id == b.id;
  }

  /** getOrderById: the order with its status history and its lines. */
  function LoadOrder(orders: seq<Order>, history: seq<HistoryRow>, items: seq<OrderItem>,
                     options: seq<OrderItemOption>, id: Id): (r: Result<OrderDetail>)
    ensures r.Err? <==> OrderWithId(orders, id).None?
    ensures r.Err? ==> r.msg == "Cannot find order"
    ensures r.Ok? ==>
      && r.value.order == OrderWithId(orders, id).value && r.value.order.id == id
      && r.value.history == HistoryOfOrder(history, id)
      && |r.value.items| == |ItemsOfOrder(items, id)|
      && forall k :: 0 <= k < |r.value.items| ==>
           r.value.items[k] == ViewOf(ItemsOfOrder(items, id)[k], options) && r.value.items[k].orderId == id
  {
    match OrderWithId(orders, id)
    case None => Err("Cannot find order")
    case Some(o) =>
      var lines := ItemsOfOrder(items, id);
      assert forall k :: 0 <= k < |lines| ==> lines[k] in lines;
      Ok(OrderDetail(o, HistoryOfOrder(history, id),
                     seq(|lines|, k requires 0 <= k < |lines| => ViewOf(lines[k], options))))
  }

  // --------------------------------------------------------------- create

  /** One selected option looked up. */
  method ResolveOne(groups: seq<OptionGroup>, options: seq<ItemOption>, c: OptionChoice) returns (r: Result<Snapshot>)
    ensures r == ResolveChoice(c, groups, options)
  {
    var g := GroupWithId(groups, c.optionGroupId);
    if g.None? {
      return Err("Cannot find option group with id: " + c.optionGroupId);
    }
    var o := OptionWithId(options, c.optionItemId);
    if o.None? {
      return Err("Cannot find item option with id: " + c.optionItemId);
    }
    r := Ok(Snapshot(g.value.name, o.value.optionName, o.value.additionalPrice));
  }

  lemma ResolveAllSnoc(cs: seq<OptionChoice>, k: nat, groups: seq<OptionGroup>, options: seq<ItemOption>)
    requires k < |cs| && ResolveAll(cs[..k], groups, options).Ok?
    ensures ResolveAll(cs[..k + 1], groups, options) ==
      match ResolveChoice(cs[k], groups, options)
      case Err(m) => Err(m)
      case Ok(s) => Ok(ResolveAll(cs[..k], groups, options).value + [s])
  {
    assert cs[..k + 1][..k] == cs[..k];
  }

  lemma SumPricesSnoc(acc: seq<Snapshot>, s: Snapshot)
    ensures SumPrices(acc + [s]) == SumPrices(acc) + s.price
  {
    assert (acc + [s])[..|acc|] == acc;
  }

  /** One step of the lookup loop: a missing option ends the lookup with
      its error, and a found one extends the snapshots and their total. */
  lemma ResolveStep(cs: seq<OptionChoice>, k: nat, groups: seq<OptionGroup>, options: seq<ItemOption>,
                    acc: seq<Snapshot>, one: Result<Snapshot>)
    requires k < |cs| && ResolveAll(cs[..k], groups, options) == Ok(acc)
    requires one == ResolveChoice(cs[k], groups, options)
    ensures one.Err? ==> ResolveAll(cs, groups, options) == Err(one.msg)
    ensures one.Ok? ==> ResolveAll(cs[..k + 1], groups, options) == Ok(acc + [one.value])
    ensures one.Ok? ==> SumPrices(acc + [one.value]) == SumPrices(acc) + one.value.price
  {
    ResolveAllSnoc(cs, k, groups, options);
    if one.Err? {
      ResolveAllStops(cs, k + 1, groups, options);
    } else {
      SumPricesSnoc(acc, one.value);
    }
  }

  /** The selected options of one line, looked up one by one while their
      prices are added up. */
  method ResolveOptions(groups: seq<OptionGroup>, options: seq<ItemOption>, cs: seq<OptionChoice>)
    returns (r: Result<seq<Snapshot>>, optionsPrice: real)
    ensures r == ResolveAll(cs, groups, options)
    ensures r.Ok? ==> optionsPrice == SumPrices(r.value)
  {
    var acc: seq<Snapshot> := [];
    optionsPrice := 0.0;
    var k := 0;
    while k < |cs|
      invariant 0 <= k <= |cs|
      invariant ResolveAll(cs[..k], groups, options) == Ok(acc)
      invariant optionsPrice == SumPrices(acc)
    {
      var one := ResolveOne(groups, options, cs[k]);
      ResolveStep(cs, k, groups, options, acc, one);
      if one.Err? {
        return Err(one.msg), optionsPrice;
      }
      optionsPrice := optionsPrice + one.value.price;
      acc := acc + [one.value];
      k := k + 1;
    }
    assert cs[..k] == cs;
    r := Ok(acc);
  }

  /** The option snapshot rows of one line. */
  method InsertSnapshots(db: Database, itemId: Id, s: seq<Snapshot>)
    modifies db`orderItemOptions
    ensures db.orderItemOptions == old(db.orderItemOptions) + SnapshotRowsOf(itemId, s)
  {
    var k := 0;
    while k < |s|
      invariant 0 <= k <= |s|
      invariant db.orderItemOptions == old(db.orderItemOptions) + SnapshotRowsOf(itemId, s[..k])
    {
      assert s[..k + 1][..k] == s[..k];
      db.orderItemOptions := db.orderItemOptions + [SnapshotRow(itemId, s[k])];
      k := k + 1;
    }
    assert s[..k] == s;
  }

  /** One line priced: its menu item, then its options. */
  method PriceOne(foods: seq<Food>, groups: seq<OptionGroup>, options: seq<ItemOption>, it: ItemRequest)
    returns (r: Result<PricedLine>)
    ensures r == PriceLine(it, foods, groups, options)
  {
    var food := FoodWithId(foods, it.menuItemId);
    if food.None? {
      return Err("Cannot find food with id: " + it.menuItemId);
    }
    var snaps, optionsPrice := ResolveOptions(groups, options, it.options);
    if snaps.Err? {
      return Err(snaps.msg);
    }
    var f := food.value;
    r := Ok(PricedLine(f, it.quantity, snaps.value, optionsPrice, LineTotal(f.sellingPrice, it.quantity, optionsPrice)));
  }

  lemma AppendAssoc<T>(a: seq<T>, b: seq<T>, c: seq<T>)
    ensures a + b + c == a + (b + c)
  {
  }

  /** One more priced line adds its row, its snapshot rows and its total. */
  lemma LinesSnoc(orderId: Id, acc: seq<PricedLine>, line: PricedLine, itemId: nat -> Id)
    ensures ItemRows(orderId, acc + [line], itemId) == ItemRows(orderId, acc, itemId) + [ItemRow(itemId(|acc|), orderId, line)]
    ensures SnapshotRows(acc + [line], itemId) == SnapshotRows(acc, itemId) + SnapshotRowsOf(itemId(|acc|), line.snapshots)
    ensures SubTotal(acc + [line]) == SubTotal(acc) + line.totalPrice
  {
    assert (acc + [line])[..|acc|] == acc;
  }

  /** One priced line written: its row, then its option snapshots. */
  method WriteLine(db: Database, orderId: Id, id: Id, line: PricedLine)
    modifies db`orderItems, db`orderItemOptions
    ensures db.orderItems == old(db.orderItems) + [ItemRow(id, orderId, line)]
    ensures db.orderItemOptions == old(db.orderItemOptions) + SnapshotRowsOf(id, line.snapshots)
  {
    db.orderItems := db.orderItems + [ItemRow(id, orderId, line)];
    InsertSnapshots(db, id, line.snapshots);
  }

  method InsertLines(db: Database, orderId: Id, items: seq<ItemRequest>, itemId: nat -> Id)
    returns (subTotal: real, err: Option<string>)
    modifies db`orderItems, db`orderItemOptions
    ensures var priced := PriceAll(items, db.foods, db.optionGroups, db.itemOptions);
      && err == priced.1
      && subTotal == SubTotal(priced.0)
      && db.orderItems == old(db.orderItems) + ItemRows(orderId, priced.0, itemId)
      && db.orderItemOptions == old(db.orderItemOptions) + SnapshotRows(priced.0, itemId)
  {
    var foods, groups, options := db.foods, db.optionGroups, db.itemOptions;
    var acc: seq<PricedLine> := [];
    subTotal := 0.0;
    var k := 0;
    while k < |items|
      invariant 0 <= k <= |items| && |acc| == k
      invariant db.foods == foods && db.optionGroups == groups && db.itemOptions == options
      invariant PriceAll(items[..k], foods, groups, options) == (acc, None)
      invariant subTotal == SubTotal(acc)
      invariant db.orderItems == old(db.orderItems) + ItemRows(orderId, acc, itemId)
      invariant db.orderItemOptions == old(db.orderItemOptions) + SnapshotRows(acc, itemId)
    {
      PriceAllSnoc(items, k, foods, groups, options);
      var priced := PriceOne(foods, groups, options, items[k]);
      if priced.Err? {
        PriceAllStops(items, k + 1, foods, groups, options);
        return subTotal, Some(priced.msg);
      }
      var line := priced.value;
      LinesSnoc(orderId, acc, line, itemId);
      AppendAssoc(old(db.orderItems), ItemRows(orderId, acc, itemId), [ItemRow(itemId(k), orderId, line)]);
      AppendAssoc(old(db.orderItemOptions), SnapshotRows(acc, itemId), SnapshotRowsOf(itemId(k), line.snapshots));
      WriteLine(db, orderId, itemId(k), line);
      subTotal := subTotal + line.totalPrice;
      acc := acc + [line];
      k := k + 1;
    }
    assert items[..k] == items;
    err := None;
  }

  /** The part of createOrder after the checks: the order row with its
      defaults, the lines, then the totals and the first status row. */
  method Place(db: Database, req: OrderRequest, userId: Id, a: Address, orderId: Id, itemId: nat -> Id, now: int)
    returns (r: Result<OrderDetail>)
    requires OrderWithId(db.orders, orderId).None?
    modifies db`orders, db`orderItems, db`orderItemOptions, db`history
    ensures var base := NewOrder(orderId, userId, a, now, req.shippingFee, req.paymentMethod);
      var priced := PriceAll(req.items, db.foods, db.optionGroups, db.itemOptions);
      && db.orderItems == old(db.orderItems) + ItemRows(orderId, priced.0, itemId)
      && db.orderItemOptions == old(db.orderItemOptions) + SnapshotRows(priced.0, itemId)
      && (priced.1.Some? ==>
            r == Err(priced.1.value) && db.orders == old(db.orders) + [base] && db.history == old(db.history))
      && (priced.1.None? ==>
            && db.orders == old(db.orders) + [Placed(base, SubTotal(priced.0), ShippingFee(req.shippingFee))]
            && db.history == old(db.history) + [HistoryRow(orderId, Pending, now)]
            && r == LoadOrder(db.orders, db.history, db.orderItems, db.orderItemOptions, orderId))
  {
    var base := NewOrder(orderId, userId, a, now, req.shippingFee, req.paymentMethod);
    db.orders := db.orders + [base];
    var subTotal, err := InsertLines(db, orderId, req.items, itemId);
    if err.Some? {
      return Err(err.value);
    }
    var fee := ShippingFee(req.shippingFee);
    WriteTotalsFresh(old(db.orders), base, subTotal, fee);
    db.orders := WriteTotals(db.orders, orderId, subTotal, fee);
    db.history := db.history + [HistoryRow(orderId, Pending, now)];
    r := LoadOrder(db.orders, db.history, db.orderItems, db.orderItemOptions, orderId);
  }

  /** createOrder. The customer and the address are checked first; the order
      row is then written with its defaults before any line is priced, so a
      line that fails leaves that row (and the lines before it) behind.
      `orderId`, `itemId` and `now` are what the database generates. */
  method CreateOrder(db: Database, req: OrderRequest, email: string, orderId: Id, itemId: nat -> Id, now: int)
    returns (r: Result<OrderDetail>)
    requires OrderWithId(db.orders, orderId).None?
    modifies db`orders, db`orderItems, db`orderItemOptions, db`history
    ensures UserWithEmail(db.users, email).None? ==> r == Err("User not found") && unchanged(db)
    ensures UserWithEmail(db.users, email).Some? && AddressWithId(db.addresses, req.addressId).None? ==>
      r == Err("Address not found") && unchanged(db)
    ensures UserWithEmail(db.users, email).Some? && AddressWithId(db.addresses, req.addressId).Some? ==>
      var base := NewOrder(orderId, UserWithEmail(db.users, email).value.id,
                           AddressWithId(db.addresses, req.addressId).value, now, req.shippingFee, req.paymentMethod);
      var priced := PriceAll(req.items, db.foods, db.optionGroups, db.itemOptions);
      && db.orderItems == old(db.orderItems) + ItemRows(orderId, priced.0, itemId)
      && db.orderItemOptions == old(db.orderItemOptions) + SnapshotRows(priced.0, itemId)
      && (priced.1.Some? ==>
            r == Err(priced.1.value) && db.orders == old(db.orders) + [base] && db.history == old(db.history))
      && (priced.1.None? ==>
            && db.orders == old(db.orders) + [Placed(base, SubTotal(priced.0), ShippingFee(req.shippingFee))]
            && db.history == old(db.history) + [HistoryRow(orderId, Pending, now)]
            && r == LoadOrder(db.orders, db.history, db.orderItems, db.orderItemOptions, orderId))
  {
    var user := UserWithEmail(db.users, email);
    if user.None? {
      return Err("User not found");
    }
    var address := AddressWithId(db.addresses, req.addressId);
    if address.None? {
      return Err("Address not found");
    }
    r := Place(db, req, user.value.id, address.value, orderId, itemId, now);
  }

  /** A placed order: Pending, unpaid, with the address's contact fields, a
      total that is its lines' totals plus the shipping fee (none counting as
      0), and one history row. */
  lemma PlacedOrderShape(base: Order, lines: seq<PricedLine>, fee: Option<real>, orderId: Id,
                         userId: Id, a: Address, now: int, m: PaymentMethod)
    requires base == NewOrder(orderId, userId, a, now, fee, m)
    ensures var o := Placed(base, SubTotal(lines), ShippingFee(fee));
      && o.currentStatus == Pending && o.payStatus == PayFailed
      && o.fullName == a.fullName && o.phoneNumber == a.phoneNumber
      && o.fullAddress == a.fullAddress && o.specificAddress == a.specificAddress
      && o.total == SubTotal(lines) + (if fee.Some? then fee.value else 0.0)
  {
  }

  /** Option surcharges are charged once per line, not per unit: doubling
      a line's quantity adds one more menu price per unit and no surcharge. */
  lemma OptionsChargedOncePerLine(it: ItemRequest, foods: seq<Food>,
                                  groups: seq<OptionGroup>, options: seq<ItemOption>)
    requires PriceLine(it, foods, groups, options).Ok?
    ensures PriceLine(it.(quantity := 2 * it.quantity), foods, groups, options).Ok?
    ensures var l := PriceLine(it, foods, groups, options).value;
      var l2 := PriceLine(it.(quantity := 2 * it.quantity), foods, groups, options).value;
      l2.optionsPrice == l.optionsPrice &&
      l2.totalPrice - l.totalPrice == LineTotal(l.food.sellingPrice, it.quantity, 0.0)
  {
    var l := PriceLine(it, foods, groups, options).value;
    var p, q := l.food.sellingPrice, it.quantity as real;
    assert (2 * it.quantity) as real == 2.0 * q;
    assert p * (2.0 * q) == 2.0 * (p * q);
  }

  // --------------------------------------------------------- status change

  /** The order rows with status `s` written on those with id `id`. */
  function SetStatus(orders: seq<Order>, id: Id, s: OrderStatus): (r: seq<Order>)
    ensures |r| == |orders|
    ensures forall k :: 0 <= k < |orders| ==>
      r[k] == if orders[k].id == id then orders[k].(currentStatus := s) else orders[k]
  {
    Update(orders, (o: Order) => o.id == id, (o: Order) => o.(currentStatus := s))
  }

  /** The foods table after the sales of every line, one line at a time. */
  function SoldAll(foods: seq<Food>, items: seq<OrderItem>): (r: seq<Food>)
    ensures |r| == |foods|
    ensures forall k :: 0 <= k < |foods| ==> r[k].id == foods[k].id
  {
    if items == [] then foods
    else Menu.AddSold(SoldAll(foods, items[..|items| - 1]), items[|items| - 1].menuItemId, items[|items| - 1].quantity)
  }

  /** The units of item `x` the lines sell. */
  function QuantityOf(items: seq<OrderItem>, x: Id): int {
    if items == [] then 0
    else QuantityOf(items[..|items| - 1], x) + (if items[|items| - 1].menuItemId == x then items[|items| - 1].quantity else 0)
  }

  /** Delivering an order adds to each item's sold count exactly the units
      its lines sell. */
  lemma {:induction false} SoldAllCounts(foods: seq<Food>, items: seq<OrderItem>, x: Id)
    requires FoodWithId(foods, x).Some?
    ensures FoodWithId(SoldAll(foods, items), x).Some?
    ensures FoodWithId(SoldAll(foods, items), x).value.soldCount ==
            FoodWithId(foods, x).value.soldCount + QuantityOf(items, x)
  {
    if items != [] {
      var init := items[..|items| - 1];
      var last := items[|items| - 1];
      SoldAllCounts(foods, init, x);
      Menu.AddSoldCounts(SoldAll(foods, init), last.menuItemId, last.quantity, x);
    }
  }

  /** Nothing stops an order from being delivered twice: the second time
      adds the same units again. */
  lemma RepeatedDeliveryCountsTwice(foods: seq<Food>, items: seq<OrderItem>, x: Id)
    requires FoodWithId(foods, x).Some?
    ensures FoodWithId(SoldAll(SoldAll(foods, items), items), x).Some?
    ensures FoodWithId(SoldAll(SoldAll(foods, items), items), x).value.soldCount ==
            FoodWithId(foods, x).value.soldCount + 2 * QuantityOf(items, x)
  {
    SoldAllCounts(foods, items, x);
    SoldAllCounts(SoldAll(foods, items), items, x);
  }

  /** The cache keys of the items whose sold count changes. */
  function SoldKeys(foods: seq<Food>, items: seq<OrderItem>): set<string> {
    set k | 0 <= k < |items| && FoodWithId(foods, items[k].menuItemId).Some? :: Menu.FoodKey(items[k].menuItemId)
  }

  /** Sales change no item's id, so the same items are found after them. */
  lemma SoldAllFinds(foods: seq<Food>, items: seq<OrderItem>, x: Id)
    ensures FoodWithId(SoldAll(foods, items), x).None? <==> FoodWithId(foods, x).None?
  {
  }

  lemma SoldKeysSnoc(foods: seq<Food>, items: seq<OrderItem>, it: OrderItem)
    ensures SoldKeys(foods, items + [it]) ==
      SoldKeys(foods, items) + (if FoodWithId(foods, it.menuItemId).Some? then {Menu.FoodKey(it.menuItemId)} else {})
  {
    var s := items + [it];
    assert forall k :: 0 <= k < |items| ==> s[k] == items[k];
    assert s[|items|] == it;
  }

  lemma MapMinusTwice<K, V>(m: map<K, V>, a: set<K>, b: set<K>)
    ensures m - a - b == m - (a + b)
  {
  }

  /** One step of the sales loop: the next line's sale extends the sales
      so far, finds its item exactly when the original table has it, and
      drops that item's cached view. */
  lemma SalesStep(foods: seq<Food>, items: seq<OrderItem>, k: nat, entries: map<string, CacheValue>)
    requires k < |items|
    ensures Menu.AddSold(SoldAll(foods, items[..k]), items[k].menuItemId, items[k].quantity) ==
            SoldAll(foods, items[..k + 1])
    ensures FoodWithId(SoldAll(foods, items[..k]), items[k].menuItemId).None? <==>
            FoodWithId(foods, items[k].menuItemId).None?
    ensures FoodWithId(foods, items[k].menuItemId).Some? ==>
      entries - SoldKeys(foods, items[..k]) - {Menu.FoodKey(items[k].menuItemId)} ==
      entries - SoldKeys(foods, items[..k + 1])
    ensures FoodWithId(foods, items[k].menuItemId).None? ==>
      entries - SoldKeys(foods, items[..k]) == entries - SoldKeys(foods, items[..k + 1])
  {
    var it := items[k];
    assert items[..k + 1] == items[..k] + [it];
    assert items[..k + 1][..k] == items[..k];
    SoldAllFinds(foods, items[..k], it.menuItemId);
    SoldKeysSnoc(foods, items[..k], it);
    MapMinusTwice(entries, SoldKeys(foods, items[..k]),
                  if FoodWithId(foods, it.menuItemId).Some? then {Menu.FoodKey(it.menuItemId)} else {});
  }

  /** The sales loop of a delivery: updateSoldCount for each line, its
      failures ignored. */
  method RecordSales(db: Database, cache: Redis, items: seq<OrderItem>)
    modifies db`foods, cache`entries
    ensures db.foods == SoldAll(old(db.foods), items)
    ensures cache.entries == old(cache.entries) - SoldKeys(old(db.foods), items)
  {
    ghost var foods := db.foods;
    var k := 0;
    while k < |items|
      invariant 0 <= k <= |items|
      invariant db.foods == SoldAll(foods, items[..k])
      invariant cache.entries == old(cache.entries) - SoldKeys(foods, items[..k])
    {
      var it := items[k];
      SalesStep(foods, items, k, old(cache.entries));
      var _ := Menu.UpdateSoldCount(db, cache, it.menuItemId, it.quantity);
      k := k + 1;
    }
    assert items[..k] == items;
  }

  /** How many ledger rows get written before the insert at `failAt` fails. */
  function Written(n: nat, failAt: Option<nat>): nat {
    if failAt.Some? && failAt.value < n then failAt.value else n
  }

  /** The new status on the order row and in its history. */
  method WriteStatus(db: Database, id: Id, s: OrderStatus, now: int)
    modifies db`orders, db`history
    ensures db.orders == SetStatus(old(db.orders), id, s)
    ensures db.history == old(db.history) + [HistoryRow(id, s, now)]
  {
    db.orders := SetStatus(db.orders, id, s);
    db.history := db.history + [HistoryRow(id, s, now)];
  }

  /** The side effects of a delivery: the ledger rows, then the sold
      counts. Neither reports its failure. */
  method Deliver(db: Database, cache: Redis, items: seq<OrderItem>, revenueFailAt: Option<nat>)
    modifies db`revenue, db`foods, cache`entries
    ensures db.revenue == old(db.revenue) + Revenue.RevenueRows(items[..Written(|items|, revenueFailAt)])
    ensures db.foods == SoldAll(old(db.foods), items)
    ensures cache.entries == old(cache.entries) - SoldKeys(old(db.foods), items)
  {
    var _ := Revenue.AddRevenueFromOrder(db, items, revenueFailAt);
    assert Written(|items|, revenueFailAt) == |items| ==> items[..|items|] == items;
    RecordSales(db, cache, items);
  }

  /** The text PostgreSQL rejects a non-label status with. */
  function InvalidStatus(status: string): string {
    "invalid input value for enum order_status: \"" + status + "\""
  }

  /** updateOrderStatus. The status text is stored as given, so a text that
      is not one of the five labels is refused by the database before any
      write. Delivery (the text lower-cased equals "delivered", which among
      the labels only "Delivered" does) also writes the ledger rows and the
      sold counts; their failures do not reach the caller. `revenueFailAt` is the line whose ledger insert fails, if any. */
  method UpdateOrderStatus(db: Database, cache: Redis, id: Id, status: string, now: int,
                           revenueFailAt: Option<nat>) returns (r: Result<OrderDetail>)
    modifies db`orders, db`history, db`revenue, db`foods, cache`entries
    ensures OrderWithId(old(db.orders), id).None? ==>
      r == Err("Order not found") && unchanged(db) && cache.entries == old(cache.entries)
    ensures OrderWithId(old(db.orders), id).Some? && ParseStatus(status).None? ==>
      r == Err(InvalidStatus(status)) && unchanged(db) && cache.entries == old(cache.entries)
    ensures OrderWithId(old(db.orders), id).Some? && ParseStatus(status).Some? ==>
      var s := ParseStatus(status).value;
      var items := ItemsOfOrder(old(db.orderItems), id);
      && db.orders == SetStatus(old(db.orders), id, s)
      && db.history == old(db.history) + [HistoryRow(id, s, now)]
      && (s == Delivered ==>
            && db.revenue == old(db.revenue) + Revenue.RevenueRows(items[..Written(|items|, revenueFailAt)])
            && db.foods == SoldAll(old(db.foods), items)
            && cache.entries == old(cache.entries) - SoldKeys(old(db.foods), items))
      && (s != Delivered ==>
            db.revenue == old(db.revenue) && db.foods == old(db.foods) && cache.entries == old(cache.entries))
      && r == LoadOrder(db.orders, db.history, db.orderItems, db.orderItemOptions, id)
  {
    if OrderWithId(db.orders, id).None? {
      return Err("Order not found");
    }
    var items := ItemsOfOrder(db.orderItems, id);
    var parsed := ParseStatus(status);
    if parsed.None? {
      return Err(InvalidStatus(status));
    }
    ApplyStatus(db, cache, id, status, parsed.value, items, now, revenueFailAt);
    r := LoadOrder(db.orders, db.history, db.orderItems, db.orderItemOptions, id);
  }

  /** The writes of an accepted status change: the status and its history
      row, and on delivery the ledger rows and sold counts of `items`. */
  method ApplyStatus(db: Database, cache: Redis, id: Id, status: string, s: OrderStatus,
                     items: seq<OrderItem>, now: int, revenueFailAt: Option<nat>)
    requires ParseStatus(status) == Some(s)
    modifies db`orders, db`history, db`revenue, db`foods, cache`entries
    ensures db.orders == SetStatus(old(db.orders), id, s)
    ensures db.history == old(db.history) + [HistoryRow(id, s, now)]
    ensures s == Delivered ==>
      && db.revenue == old(db.revenue) + Revenue.RevenueRows(items[..Written(|items|, revenueFailAt)])
      && db.foods == SoldAll(old(db.foods), items)
      && cache.entries == old(cache.entries) - SoldKeys(old(db.foods), items)
    ensures s != Delivered ==>
      db.revenue == old(db.revenue) && db.foods == old(db.foods) && cache.entries == old(cache.entries)
  {
    DeliveredLabelOnly(s);
    WriteStatus(db, id, s, now);
    if Lower(status) == "delivered" {
      Deliver(db, cache, items, revenueFailAt);
    }
  }

  /** A status change shows in the loaded order: the row now carries the
      new status, every other column as before, and its history ends with
      the new entry. */
  lemma StatusChangeVisible(orders: seq<Order>, history: seq<HistoryRow>, items: seq<OrderItem>,
                            options: seq<OrderItemOption>, id: Id, s: OrderStatus, now: int)
    requires OrderWithId(orders, id).Some?
    ensures var r := LoadOrder(SetStatus(orders, id, s), history + [HistoryRow(id, s, now)], items, options, id);
      && r.Ok?
      && r.value.order == OrderWithId(orders, id).value.(currentStatus := s)
      && r.value.history == HistoryOfOrder(history, id) + [HistoryRow(id, s, now)]
  {
    var o := OrderWithId(orders, id).value;
    var after := SetStatus(orders, id, s);
    var row := HistoryRow(id, s, now);
    var i :| 0 <= i < |orders| && orders[i] == o && forall j :: 0 <= j < i ==> orders[j].id != id;
    forall j | 0 <= j < i ensures after[j].id != id {
      assert after[j] == orders[j];
    }
    assert after[i] == o.(currentStatus := s);
    OrderAtFirstMatch(after, id, i);
    HistoryOfAppend(history, [row], id);
    assert HistoryOfOrder([row], id) == [row] by {
      assert row in HistoryOfOrder([row], id);
    }
    var r := LoadOrder(after, history + [row], items, options, id);
    assert r.Ok? && r.value.order == after[i];
  }

  /** The row at `i` is the one found for `id` when it is the first with that id. */
  lemma OrderAtFirstMatch(orders: seq<Order>, id: Id, i: nat)
    requires i < |orders| && orders[i].id == id
    requires forall j :: 0 <= j < i ==> orders[j].id != id
    ensures OrderWithId(orders, id) == Some(orders[i])
  {
    var found := OrderWithId(orders, id);
    var k :| 0 <= k < |orders| && orders[k] == found.value && forall j :: 0 <= j < k ==> orders[j].id != id;
    assert orders[k].id == id;
    assert k == i;
  }

  /** Among the five labels, only "Delivered" lower-cases to "delivered". */
  lemma DeliveredLabelOnly(s: OrderStatus)
    ensures Lower(StatusLabel(s)) == "delivered" <==> s == Delivered
  {
    if s == Delivered {
      assert Lower("Delivered") == "delivered";
    } else {
      assert Lower(StatusLabel(s))[0] == LowerChar(StatusLabel(s)[0]) != 'd';
    }
  }

  /** Although the comparison ignores case, only the exact label "Delivered"
      both passes the enum column and triggers the delivery effects. */
  lemma DeliveredTriggerIsExactLabel(status: string)
    ensures (ParseStatus(status).Some? && Lower(status) == "delivered") <==> status == "Delivered"
  {
    assert ParseStatus("Delivered") == Some(Delivered);
    if ParseStatus(status).Some? {
      DeliveredLabelOnly(ParseStatus(status).value);
    }
  }

  // ---------------------------------------------------------- list queries

  datatype OrderColumn = FullName | PhoneNumber | FullAddress | SpecificAddress | OrderDate | Total | CurrentStatus

  datatype Direction = Asc | Desc

  datatype OrderCondition =
    | UserIs(userId: Id)
    | StatusIs(status: string)
    | StatusIn(labels: seq<string>)
    | MethodIs(paymentMethod: string)
    | AnyLike(columns: seq<OrderColumn>, pattern: string)
    | DateBetween(fromDate: string, toDate: string)
    | WithinLastDays(days: nat)

  datatype Paging = Paging(page: int, limit: int, offset: int)

  datatype OrderQuery = OrderQuery(conditions: seq<OrderCondition>, orderBy: (OrderColumn, Direction), paging: Paging)

  datatype UserOrderFilter = UserOrderFilter(
    status: Option<string>, keyword: Option<string>, sort: Option<string>, page: Option<int>, limit: Option<int>)

  datatype AdminOrderFilter = AdminOrderFilter(
    keyword: Option<string>, orderStatuses: Option<seq<string>>, paymentMethod: Option<string>,
    fromDate: Option<string>, toDate: Option<string>, sort: Option<string>, page: Option<int>, limit: Option<int>)

  /** `x || d` on an optional number: a missing value or 0 gives `d`. */
  function OrDefault(x: Option<int>, d: int): int {
    if x.Some? && x.value != 0 then x.value else d
  }

  function PagingOf(page: Option<int>, limit: Option<int>, defaultLimit: int): Paging {
    var p := OrDefault(page, 0);
    var l := OrDefault(limit, defaultLimit);
    Paging(p, l, p * l)
  }

  /** A keyword is used when its trimmed text is not empty. */
  predicate UsableKeyword(k: Option<string>) {
    k.Some? && Trim(k.value) != ""
  }

  /** The user's keyword pattern as the code builds it: only `%` and `_` are
      escaped, so a backslash in the keyword escapes the character after it. */
  function UserKeywordPatternAsWritten(keyword: string): string {
    ContainsPattern(Escape(Trim(keyword), {'%', '_'}))
  }

  /** The keyword "\" asks for orders containing a backslash, but the pattern
      built from it matches the values that end in "%". */
  lemma BackslashKeywordMisread()
    ensures LikeTokens(UserKeywordPatternAsWritten("\\")) == [AnyRun, Lit('%')]
    ensures LikeTokens(UserKeywordPatternAsWritten("\\")) != [AnyRun] + Literal("\\") + [AnyRun]
  {
    assert Trim("\\") == "\\";
    assert Escape("\\", {'%', '_'}) == "\\";
    assert UserKeywordPatternAsWritten("\\") == "%\\%";
    assert LikeTokens("%\\%") == [AnyRun] + LikeTokens("\\%");
    assert LikeTokens("\\%") == [Lit('%')] + LikeTokens([]);
  }

  /** The user's keyword pattern with the backslash escaped as well: it
      matches the trimmed keyword literally, anywhere in the value. */
  function UserKeywordPattern(keyword: string): (p: string)
    ensures LikeTokens(p) == [AnyRun] + Literal(Trim(keyword)) + [AnyRun]
  {
    ContainsPatternIsLiteral(Trim(keyword));
    ContainsPattern(Escape(Trim(keyword), LikeSpecials))
  }

  /** Without a backslash in the keyword the two patterns agree, so the
      keyword as written is then matched literally, anywhere in the value. */
  lemma KeywordWithoutBackslashIsLiteral(keyword: string)
    requires '\\' !in keyword
    ensures UserKeywordPatternAsWritten(keyword) == UserKeywordPattern(keyword)
    ensures LikeTokens(UserKeywordPatternAsWritten(keyword)) == [AnyRun] + Literal(Trim(keyword)) + [AnyRun]
  {
    TrimKeepsOut(keyword, '\\');
    EscapeAgrees(Trim(keyword));
  }

  /** A character absent from a text is absent from the text trimmed. */
  lemma TrimKeepsOut(s: string, c: char)
    requires c !in s
    ensures c !in Trim(s)
  {
    var a := TrimStart(s);
    forall k | 0 <= k < |a| ensures a[k] != c {
      assert a[k] == s[|s| - |a| + k];
    }
    var r := TrimEnd(a);
    forall k | 0 <= k < |r| ensures r[k] != c {
      assert r[k] == a[k];
    }
  }

  /** Escaping `%` and `_` alone is escaping all three specials when the
      text holds no backslash. */
  lemma {:induction false} EscapeAgrees(s: string)
    requires '\\' !in s
    ensures Escape(s, {'%', '_'}) == Escape(s, LikeSpecials)
  {
    if s != [] {
      assert s[0] in s;
      assert forall c :: c in s[1..] ==> c in s;
      EscapeAgrees(s[1..]);
    }
  }

  function UserSort(sort: Option<string>): (OrderColumn, Direction) {
    if sort == Some("newest") then (OrderDate, Desc)
    else if sort == Some("oldest") then (OrderDate, Asc)
    else if sort == Some("highest") then (Total, Desc)
    else if sort == Some("lowest") then (Total, Asc)
    else (OrderDate, Asc)
  }

  /** getUserOrder's query: always the caller's orders; a status unless it is
      "All"; the keyword over name, phone and both address columns. */
  function UserOrderQuery(userId: Id, f: UserOrderFilter): OrderQuery {
    var status := if f.status.Some? && f.status.value != "All" then [StatusIs(f.status.value)] else [];
    var keyword := if UsableKeyword(f.keyword) then
                     [AnyLike([FullName, PhoneNumber, FullAddress, SpecificAddress], UserKeywordPatternAsWritten(f.keyword.value))]
                   else [];
    OrderQuery([UserIs(userId)] + status + keyword, UserSort(f.sort), PagingOf(f.page, f.limit, 3))
  }

  /** The user listing always filters by owner, ignores the status "All",
      defaults to page 0 of 3, and its offset is page × limit. */
  lemma UserOrderQueryShape(userId: Id, f: UserOrderFilter)
    ensures var q := UserOrderQuery(userId, f);
      && q.conditions[0] == UserIs(userId)
      && (f.status == Some("All") || f.status.None? ==> forall c :: c in q.conditions ==> !c.StatusIs?)
      && (f.page.None? ==> q.paging.page == 0)
      && (f.limit.None? ==> q.paging.limit == 3)
      && q.paging.offset == q.paging.page * q.paging.limit
      && (UsableKeyword(f.keyword) ==>
            q.conditions[|q.conditions| - 1] ==
              AnyLike([FullName, PhoneNumber, FullAddress, SpecificAddress], UserKeywordPatternAsWritten(f.keyword.value)))
      && (!UsableKeyword(f.keyword) ==> forall c :: c in q.conditions ==> !c.AnyLike?)
  {
  }

  function AdminSort(sort: Option<string>): (OrderColumn, Direction) {
    if sort == Some("orderDate_asc") then (OrderDate, Asc)
    else if sort == Some("orderDate_desc") then (OrderDate, Desc)
    else if sort == Some("total_asc") then (Total, Asc)
    else if sort == Some("total_desc") then (Total, Desc)
    else if sort == Some("currentStatus_asc") then (CurrentStatus, Asc)
    else if sort == Some("currentStatus_desc") then (CurrentStatus, Desc)
    else (OrderDate, Desc)
  }

  /** getAllOrders' query. The keyword is trimmed but not escaped; without
      both dates only the last 60 days are listed. */
  function AdminOrderQuery(f: AdminOrderFilter): OrderQuery {
    OrderQuery(AdminFilters(f) + [AdminDates(f)], AdminSort(f.sort), PagingOf(f.page, f.limit, 10))
  }

  /** The admin listing's keyword, status and payment conditions. */
  function AdminFilters(f: AdminOrderFilter): (r: seq<OrderCondition>)
    ensures forall i :: 0 <= i < |r| ==> !r[i].DateBetween? && !r[i].WithinLastDays?
  {
    var keyword := AdminKeyword(f);
    var statuses := AdminStatuses(f);
    var payment := AdminPayment(f);
    var r := keyword + statuses + payment;
    assert forall i :: 0 <= i < |r| ==> r[i].AnyLike? || r[i].StatusIn? || r[i].MethodIs? by {
      forall i | 0 <= i < |r| ensures r[i].AnyLike? || r[i].StatusIn? || r[i].MethodIs? {
        if i < |keyword| { assert r[i] == keyword[i]; }
        else if i < |keyword| + |statuses| { assert r[i] == statuses[i - |keyword|]; }
        else { assert r[i] == payment[i - |keyword| - |statuses|]; }
      }
    }
    r
  }

  /** The trimmed, unescaped keyword search over name, phone and address. */
  function AdminKeyword(f: AdminOrderFilter): (r: seq<OrderCondition>)
    ensures forall i :: 0 <= i < |r| ==> r[i].AnyLike?
  {
    if UsableKeyword(f.keyword) then
      [AnyLike([FullName, PhoneNumber, FullAddress], ContainsPattern(Trim(f.keyword.value)))]
    else []
  }

  /** The status filter, applied only to a non-empty list. */
  function AdminStatuses(f: AdminOrderFilter): (r: seq<OrderCondition>)
    ensures forall i :: 0 <= i < |r| ==> r[i].StatusIn?
  {
    if f.orderStatuses.Some? && |f.orderStatuses.value| > 0 then [StatusIn(f.orderStatuses.value)] else []
  }

  /** The payment method filter. */
  function AdminPayment(f: AdminOrderFilter): (r: seq<OrderCondition>)
    ensures forall i :: 0 <= i < |r| ==> r[i].MethodIs?
  {
    if UsableKeyword(f.paymentMethod) then [MethodIs(f.paymentMethod.value)] else []
  }

  /** The admin listing's date condition. */
  function AdminDates(f: AdminOrderFilter): OrderCondition {
    if f.fromDate.Some? && f.fromDate.value != "" && f.toDate.Some? && f.toDate.value != "" then
      DateBetween(f.fromDate.value, f.toDate.value)
    else WithinLastDays(60)
  }

  /** The admin listing always restricts the dates, with one condition
      only: to the range given when both ends are, to the last 60 days
      otherwise. */
  lemma AdminOrderQueryDates(f: AdminOrderFilter)
    ensures var cs := AdminOrderQuery(f).conditions;
      var bothGiven := f.fromDate.Some? && f.fromDate.value != "" && f.toDate.Some? && f.toDate.value != "";
      && cs != []
      && (bothGiven ==> cs[|cs| - 1] == DateBetween(f.fromDate.value, f.toDate.value))
      && (!bothGiven ==> cs[|cs| - 1] == WithinLastDays(60))
      && forall i :: 0 <= i < |cs| - 1 ==> !cs[i].DateBetween? && !cs[i].WithinLastDays?
  {
    var cs := AdminOrderQuery(f).conditions;
    var pre := AdminFilters(f);
    assert cs == pre + [AdminDates(f)];
    forall i | 0 <= i < |cs| - 1 ensures !cs[i].DateBetween? && !cs[i].WithinLastDays? {
      assert cs[i] == pre[i];
    }
  }

  /** The admin listing defaults to page 0 of 10 sorted by newest first,
      and its offset is page × limit. */
  lemma AdminOrderQueryDefaults(f: AdminOrderFilter)
    ensures var q := AdminOrderQuery(f);
      && (f.page.None? ==> q.paging.page == 0)
      && (f.limit.None? ==> q.paging.limit == 10)
      && (f.sort.None? ==> q.orderBy == (OrderDate, Desc))
      && q.paging.offset == q.paging.page * q.paging.limit
  {
  }
}
