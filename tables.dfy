/** The state the services share: the relational store (one sequence of
    rows per table, in insertion order), the key-value cache and the outbox
    of the mailer. Lookups below are the `findFirst` queries the services
    issue. */
module Tables {
  import opened Wrappers
  import opened Schema
  import opened Rows

  class Database {
    var users: seq<User>
    var addresses: seq<Address>
    var otps: seq<OtpRow>
    var categories: seq<Category>
    var foods: seq<Food>
    var optionGroups: seq<OptionGroup>
    var itemOptions: seq<ItemOption>
    var carts: seq<Cart>
    var cartItems: seq<CartItem>
    var cartItemOptions: seq<CartItemOption>
    var orders: seq<Order>
    var history: seq<HistoryRow>
    var orderItems: seq<OrderItem>
    var orderItemOptions: seq<OrderItemOption>
    var payments: seq<Payment>
    var revenue: seq<RevenueSummary>
    var ratings: seq<Rating>

    constructor ()
      ensures users == [] && addresses == [] && otps == [] && categories == []
      ensures foods == [] && optionGroups == [] && itemOptions == []
      ensures carts == [] && cartItems == [] && cartItemOptions == []
      ensures orders == [] && history == [] && orderItems == [] && orderItemOptions == []
      ensures payments == [] && revenue == [] && ratings == []
    {
      users, addresses, otps, categories := [], [], [], [];
      foods, optionGroups, itemOptions := [], [], [];
      carts, cartItems, cartItemOptions := [], [], [];
      orders, history, orderItems, orderItemOptions := [], [], [], [];
      payments, revenue, ratings := [], [], [];
    }
  }

  /** An option group with its options, ordered by `sequence`. */
  datatype GroupDetail = GroupDetail(group: OptionGroup, options: seq<ItemOption>)

  /** A menu item with its category and option groups, as getFoodById loads it. */
  datatype FoodDetail = FoodDetail(food: Food, category: Option<Category>, groups: seq<GroupDetail>)

  /** What the cache holds under a key. */
  datatype CacheValue =
    | FoodValue(detail: FoodDetail)
    | CategoriesValue(list: seq<Category>)
    | TokenValue(text: string, ttlSeconds: int)

  class Redis {
    var entries: map<string, CacheValue>

    constructor ()
      ensures entries == map[]
    {
      entries := map[];
    }
  }

  datatype Mail = Mail(to: string, subject: string, template: string, otp: string)

  /** Mail handed to the transport, in sending order. */
  class Mailer {
    var sent: seq<Mail>

    constructor ()
      ensures sent == []
    {
      sent := [];
    }
  }

  /** The failure of a delete that PostgreSQL refuses because another
      table still needs the row: a reference with no delete rule, or a
      "set null" rule on a column that cannot be null. */
  const DeleteRefused := "delete refused: the row is still referenced"

  // -------------------------------------------------------------- lookups

  function UserWithId(users: seq<User>, id: Id): (r: Option<User>)
    ensures r.Some? ==> r.value in users && r.value.id == id
    ensures r.None? <==> forall i :: 0 <= i < |users| ==> users[i].id != id
  {
    First(users, (u: User) => u.id == id)
  }

  function UserWithEmail(users: seq<User>, email: string): (r: Option<User>)
    ensures r.Some? ==> r.value in users && r.value.email == email
    ensures r.None? <==> forall i :: 0 <= i < |users| ==> users[i].email != email
  {
    First(users, (u: User) => u.email == email)
  }

  function AddressWithId(addresses: seq<Address>, id: Id): (r: Option<Address>)
    ensures r.Some? ==> r.value in addresses && r.value.id == id
    ensures r.None? <==> forall i :: 0 <= i < |addresses| ==> addresses[i].id != id
  {
    First(addresses, (a: Address) => a.id == id)
  }

  function FoodWithId(foods: seq<Food>, id: Id): (r: Option<Food>)
    ensures r.Some? ==> r.value in foods && r.value.id == id
    ensures r.None? <==> forall i :: 0 <= i < |foods| ==> foods[i].id != id
    ensures r.Some? ==> exists i :: 0 <= i < |foods| && foods[i] == r.value &&
                                    forall j :: 0 <= j < i ==> foods[j].id != id
  {
    First(foods, (f: Food) => f.id == id)
  }

  function CategoryWithId(categories: seq<Category>, id: Id): (r: Option<Category>)
    ensures r.Some? ==> r.value in categories && r.value.id == id
    ensures r.None? <==> forall i :: 0 <= i < |categories| ==> categories[i].id != id
  {
    First(categories, (c: Category) => c.id == id)
  }

  function GroupWithId(groups: seq<OptionGroup>, id: Id): (r: Option<OptionGroup>)
    ensures r.Some? ==> r.value in groups && r.value.id == id
    ensures r.None? <==> forall i :: 0 <= i < |groups| ==> groups[i].id != id
  {
    First(groups, (g: OptionGroup) => g.id == id)
  }

  function OptionWithId(options: seq<ItemOption>, id: Id): (r: Option<ItemOption>)
    ensures r.Some? ==> r.value in options && r.value.id == id
    ensures r.None? <==> forall i :: 0 <= i < |options| ==> options[i].id != id
  {
    First(options, (o: ItemOption) => o.id == id)
  }

  function OrderWithId(orders: seq<Order>, id: Id): (r: Option<Order>)
    ensures r.Some? ==> r.value in orders && r.value.id == id
    ensures r.None? <==> forall i :: 0 <= i < |orders| ==> orders[i].id != id
    ensures r.Some? ==> exists i :: 0 <= i < |orders| && orders[i] == r.value &&
                                    forall j :: 0 <= j < i ==> orders[j].id != id
  {
    First(orders, (o: Order) => o.id == id)
  }

  function OrderItemWithId(items: seq<OrderItem>, id: Id): (r: Option<OrderItem>)
    ensures r.Some? ==> r.value in items && r.value.id == id
    ensures r.None? <==> forall i :: 0 <= i < |items| ==> items[i].id != id
  {
    First(items, (it: OrderItem) => it.id == id)
  }

  function CartOfUser(carts: seq<Cart>, userId: Id): (r: Option<Cart>)
    ensures r.Some? ==> r.value in carts && r.value.userId == userId
    ensures r.None? <==> forall i :: 0 <= i < |carts| ==> carts[i].userId != userId
  {
    First(carts, (c: Cart) => c.userId == userId)
  }

  function OtpWithToken(otps: seq<OtpRow>, token: string): (r: Option<OtpRow>)
    ensures r.Some? ==> r.value in otps && r.value.token == token
    ensures r.None? <==> forall i :: 0 <= i < |otps| ==> otps[i].token != token
  {
    First(otps, (o: OtpRow) => o.token == token)
  }

  /** The lines of an order, in insertion order. */
  function ItemsOfOrder(items: seq<OrderItem>, orderId: Id): (r: seq<OrderItem>)
    ensures forall x :: x in r <==> x in items && x.orderId == orderId
  {
    Keep(items, (it: OrderItem) => it.orderId == orderId)
  }

  function HistoryOfOrder(history: seq<HistoryRow>, orderId: Id): (r: seq<HistoryRow>)
    ensures forall x :: x in r <==> x in history && x.orderId == orderId
  {
    Keep(history, (h: HistoryRow) => h.orderId == orderId)
  }

  function OptionsOfItem(options: seq<OrderItemOption>, itemId: Id): (r: seq<OrderItemOption>)
    ensures forall x :: x in r <==> x in options && x.orderItemId == itemId
  {
    Keep(options, (o: OrderItemOption) => o.orderItemId == itemId)
  }

  /** Appending status rows appends to the history of an order exactly the
      appended rows that belong to it. */
  lemma HistoryOfAppend(h: seq<HistoryRow>, extra: seq<HistoryRow>, orderId: Id)
    ensures HistoryOfOrder(h + extra, orderId) == HistoryOfOrder(h, orderId) + HistoryOfOrder(extra, orderId)
  {
    KeepAppend(h, extra, (r: HistoryRow) => r.orderId == orderId);
  }
}
