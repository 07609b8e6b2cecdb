/** The shopping cart (services/shoppingCart.service.ts): one cart per
    user, its items, the options chosen for each item, and the priced view
    of the cart with the chosen options grouped by option group. */
module ShoppingCart {
  import opened Wrappers
  import opened Schema
  import opened Rows
  import opened Text
  import opened Tables

  // ------------------------------------------------------------- requests

  /** The options chosen in one option group. */
  datatype GroupChoice = GroupChoice(optionGroupId: Id, optionIds: seq<Id>)

  datatype CartRequest = CartRequest(menuItemId: Id, quantity: int, options: seq<GroupChoice>)

  function CartItemWithId(items: seq<CartItem>, id: Id): (r: Option<CartItem>)
    ensures r.Some? ==> r.value in items && r.value.id == id
    ensures r.None? <==> forall i :: 0 <= i < |items| ==> items[i].id != id
  {
    First(items, (c: CartItem) => c.id == id)
  }

  // ---------------------------------------------------------- add to cart

  /** The requested option ids that name no option, in request order and
      with repetitions kept. */
  function InvalidOptions(ids: seq<Id>, options: seq<ItemOption>): (r: seq<Id>)
    ensures forall x :: x in r <==> x in ids && OptionWithId(options, x).None?
  {
    Keep(ids, (x: Id) => OptionWithId(options, x).None?)
  }

  /** The query builder's refusal of an insert given no rows. */
  const NoRowsToInsert := "values() must be called with at least one value"

  /** Why a group choice is refused: its group is unknown, or some of its
      option ids are; or it has no option ids, and the insert of its option
      rows is then given an empty list, which the query builder refuses. */
  function ChoiceError(groups: seq<OptionGroup>, options: seq<ItemOption>, c: GroupChoice): (r: Option<string>)
    ensures r.None? <==>
      && GroupWithId(groups, c.optionGroupId).Some?
      && (forall x :: x in c.optionIds ==> OptionWithId(options, x).Some?)
      && c.optionIds != []
    ensures c.optionIds == [] && GroupWithId(groups, c.optionGroupId).Some? ==> r == Some(NoRowsToInsert)
  {
    if GroupWithId(groups, c.optionGroupId).None? then Some("Option group " + c.optionGroupId + " not found")
    else
      var bad := InvalidOptions(c.optionIds, options);
      if bad != [] then
        assert bad[0] in bad;
        Some("Invalid options: " + Join(bad, ", "))
      else if c.optionIds == [] then Some(NoRowsToInsert)
      else None
  }

  /** The option rows written for an accepted choice: one per requested id. */
  function ChoiceRows(itemId: Id, c: GroupChoice): (r: seq<CartItemOption>)
    ensures |r| == |c.optionIds|
    ensures forall i :: 0 <= i < |r| ==>
      r[i] == CartItemOption(itemId, Some(c.optionGroupId), Some(c.optionIds[i]))
  {
    ChoiceRowsOf(itemId, c.optionGroupId, c.optionIds)
  }

  function ChoiceRowsOf(itemId: Id, gid: Id, ids: seq<Id>): (r: seq<CartItemOption>)
    ensures |r| == |ids|
    ensures forall i :: 0 <= i < |r| ==> r[i] == CartItemOption(itemId, Some(gid), Some(ids[i]))
  {
    if ids == [] then []
    else ChoiceRowsOf(itemId, gid, ids[..|ids| - 1]) + [CartItemOption(itemId, Some(gid), Some(ids[|ids| - 1]))]
  }

  /** The option rows written for the choices, one choice after another,
      and the error of the first refused choice, after which nothing more is
      written. */
  function WriteChoices(groups: seq<OptionGroup>, options: seq<ItemOption>, itemId: Id,
                        cs: seq<GroupChoice>): (r: (seq<CartItemOption>, Option<string>))
  {
    if cs == [] then ([], None)
    else
      var prev := WriteChoices(groups, options, itemId, cs[..|cs| - 1]);
      if prev.1.Some? then prev
      else match ChoiceError(groups, options, cs[|cs| - 1])
        case Some(e) => (prev.0, Some(e))
        case None => (prev.0 + ChoiceRows(itemId, cs[|cs| - 1]), None)
  }

  /** The choices are all written exactly when every one of them names a
      known group and known options. */
  lemma {:induction false} WriteChoicesAccepts(groups: seq<OptionGroup>, options: seq<ItemOption>,
                                               itemId: Id, cs: seq<GroupChoice>)
    ensures WriteChoices(groups, options, itemId, cs).1.None? <==>
      forall i :: 0 <= i < |cs| ==> ChoiceError(groups, options, cs[i]).None?
  {
    if cs != [] {
      var init := cs[..|cs| - 1];
      WriteChoicesAccepts(groups, options, itemId, init);
      var prev := WriteChoices(groups, options, itemId, init);
      if prev.1.Some? {
        var i :| 0 <= i < |init| && ChoiceError(groups, options, init[i]).Some?;
        assert cs[i] == init[i];
      } else {
        forall i | 0 <= i < |cs| - 1 ensures ChoiceError(groups, options, cs[i]).None? {
          assert init[i] == cs[i];
        }
      }
    }
  }

  /** A row that belongs to item `itemId` and names an existing group and
      an existing option. */
  predicate ValidRow(groups: seq<OptionGroup>, options: seq<ItemOption>, itemId: Id, row: CartItemOption) {
    && row.shoppingCartItemId == itemId
    && row.optionGroupId.Some? && GroupWithId(groups, row.optionGroupId.value).Some?
    && row.optionId.Some? && OptionWithId(options, row.optionId.value).Some?
  }

  /** Every option row written belongs to the new item and names an existing
      group and an existing option. */
  lemma {:induction false} WriteChoicesValid(groups: seq<OptionGroup>, options: seq<ItemOption>,
                                             itemId: Id, cs: seq<GroupChoice>)
    ensures forall row :: row in WriteChoices(groups, options, itemId, cs).0 ==>
      ValidRow(groups, options, itemId, row)
  {
    if cs != [] {
      var init := cs[..|cs| - 1];
      var last := cs[|cs| - 1];
      WriteChoicesValid(groups, options, itemId, init);
      var prev := WriteChoices(groups, options, itemId, init);
      if prev.1.None? && ChoiceError(groups, options, last).None? {
        var rows := ChoiceRows(itemId, last);
        forall row | row in rows ensures ValidRow(groups, options, itemId, row) {
          var i :| 0 <= i < |rows| && rows[i] == row;
          assert last.optionIds[i] in last.optionIds;
        }
      }
    }
  }

  lemma WriteChoicesSnoc(groups: seq<OptionGroup>, options: seq<ItemOption>, itemId: Id,
                         cs: seq<GroupChoice>, k: nat)
    requires k < |cs|
    requires WriteChoices(groups, options, itemId, cs[..k]).1.None?
    requires ChoiceError(groups, options, cs[k]).None?
    ensures WriteChoices(groups, options, itemId, cs[..k + 1]) ==
      (WriteChoices(groups, options, itemId, cs[..k]).0 + ChoiceRows(itemId, cs[k]), None)
  {
    assert cs[..k + 1][..k] == cs[..k];
  }

  /** Once a choice is refused, the later choices change nothing. */
  lemma {:induction false} WriteChoicesStops(groups: seq<OptionGroup>, options: seq<ItemOption>,
                                             itemId: Id, cs: seq<GroupChoice>, k: nat)
    requires k < |cs|
    requires WriteChoices(groups, options, itemId, cs[..k]).1.None?
    requires ChoiceError(groups, options, cs[k]).Some?
    ensures WriteChoices(groups, options, itemId, cs) ==
      (WriteChoices(groups, options, itemId, cs[..k]).0, ChoiceError(groups, options, cs[k]))
    decreases |cs|
  {
    if |cs| == k + 1 {
      assert cs[..|cs| - 1] == cs[..k];
    } else {
      var init := cs[..|cs| - 1];
      assert init[..k] == cs[..k];
      WriteChoicesStops(groups, options, itemId, init, k);
    }
  }

  /** The id of the user's cart after the add: the existing one, or the one
      just created. */
  function CartIdAfter(carts: seq<Cart>, userId: Id, cartId: Id): Id {
    if CartOfUser(carts, userId).Some? then CartOfUser(carts, userId).value.id else cartId
  }

  /** addToCartHandler. `cartId` and `itemId` are the ids the database
      generates for a new cart and the new item. The cart exists before the
      item is checked, and the item row before its options are checked, so
      a refused option leaves both behind. */
  method AddToCart(db: Database, email: string, req: CartRequest, cartId: Id, itemId: Id)
    returns (r: Result<CartItem>)
    modifies db`carts, db`cartItems, db`cartItemOptions
    ensures UserWithEmail(db.users, email).None? ==>
      r == Err("User not found") && unchanged(db`carts, db`cartItems, db`cartItemOptions)
    ensures UserWithEmail(db.users, email).Some? ==>
      var uid := UserWithEmail(db.users, email).value.id;
      && db.carts == old(db.carts) + (if CartOfUser(old(db.carts), uid).None? then [Cart(cartId, uid)] else [])
      && (FoodWithId(db.foods, req.menuItemId).None? ==>
            r == Err("Food item not found") && unchanged(db`cartItems, db`cartItemOptions))
      && (FoodWithId(db.foods, req.menuItemId).Some? ==>
            var item := CartItem(itemId, req.menuItemId, CartIdAfter(old(db.carts), uid, cartId), req.quantity);
            var w := WriteChoices(db.optionGroups, db.itemOptions, itemId, req.options);
            && db.cartItems == old(db.cartItems) + [item]
            && db.cartItemOptions == old(db.cartItemOptions) + w.0
            && r == (if w.1.None? then Ok(item) else Err(w.1.value)))
  {
    var user := UserWithEmail(db.users, email);
    if user.None? {
      return Err("User not found");
    }
    var uid := user.value.id;
    var cart := CartOfUser(db.carts, uid);
    var theCartId := CartIdAfter(db.carts, uid, cartId);
    ghost var carts := db.carts + (if cart.None? then [Cart(cartId, uid)] else []);
    if cart.None? {
      db.carts := db.carts + [Cart(cartId, uid)];
    }
    assert db.carts == carts;
    if FoodWithId(db.foods, req.menuItemId).None? {
      return Err("Food item not found");
    }
    var item := CartItem(itemId, req.menuItemId, theCartId, req.quantity);
    ghost var items := db.cartItems + [item];
    db.cartItems := db.cartItems + [item];
    var err := InsertChoices(db, itemId, req.options);
    assert db.carts == carts && db.cartItems == items;
    r := if err.None? then Ok(item) else Err(err.value);
  }

  /** The loop over the group choices of addToCartHandler. */
  method InsertChoices(db: Database, itemId: Id, cs: seq<GroupChoice>) returns (err: Option<string>)
    modifies db`cartItemOptions
    ensures var w := WriteChoices(db.optionGroups, db.itemOptions, itemId, cs);
            db.cartItemOptions == old(db.cartItemOptions) + w.0 && err == w.1
  {
    var groups, options := db.optionGroups, db.itemOptions;
    var k := 0;
    while k < |cs|
      invariant 0 <= k <= |cs|
      invariant db.optionGroups == groups && db.itemOptions == options
      invariant WriteChoices(groups, options, itemId, cs[..k]).1.None?
      invariant db.cartItemOptions == old(db.cartItemOptions) + WriteChoices(groups, options, itemId, cs[..k]).0
    {
      var c := cs[k];
      var e := ChoiceError(groups, options, c);
      if e.Some? {
        WriteChoicesStops(groups, options, itemId, cs, k);
        return e;
      }
      WriteChoicesSnoc(groups, options, itemId, cs, k);
      AppendAssoc(old(db.cartItemOptions), WriteChoices(groups, options, itemId, cs[..k]).0, ChoiceRows(itemId, c));
      db.cartItemOptions := db.cartItemOptions + ChoiceRows(itemId, c);
      k := k + 1;
    }
    assert cs[..k] == cs;
    return None;
  }

  lemma AppendAssoc<T>(a: seq<T>, b: seq<T>, c: seq<T>)
    ensures a + b + c == a + (b + c)
  {
  }

  // ------------------------------------------------- quantity and removal

  /** Every item with the id gets the new quantity; nothing else changes. */
  function SetQuantity(items: seq<CartItem>, id: Id, quantity: int): (r: seq<CartItem>)
    ensures |r| == |items|
    ensures forall i :: 0 <= i < |items| ==>
      && r[i].id == items[i].id && r[i].foodId == items[i].foodId
      && r[i].shoppingCartId == items[i].shoppingCartId
      && r[i].quantity == (if items[i].id == id then quantity else items[i].quantity)
  {
    Update(items, (c: CartItem) => c.id == id, (c: CartItem) => c.(quantity := quantity))
  }

  /** updateQuantity: the first updated row is returned; no row means
      "Item not found in cart". */
  method UpdateQuantity(db: Database, id: Id, quantity: int) returns (r: Result<CartItem>)
    modifies db`cartItems
    ensures db.cartItems == SetQuantity(old(db.cartItems), id, quantity)
    ensures r.Err? <==> CartItemWithId(old(db.cartItems), id).None?
    ensures r.Err? ==> r.msg == "Item not found in cart"
    ensures r.Ok? ==> r.value == CartItemWithId(old(db.cartItems), id).value.(quantity := quantity)
  {
    var found := CartItemWithId(db.cartItems, id);
    db.cartItems := SetQuantity(db.cartItems, id, quantity);
    if found.None? {
      return Err("Item not found in cart");
    }
    return Ok(found.value.(quantity := quantity));
  }

  function WithoutItem(items: seq<CartItem>, id: Id): (r: seq<CartItem>)
    ensures forall x :: x in r <==> x in items && x.id != id
  {
    Keep(items, (c: CartItem) => c.id != id)
  }

  function WithoutOptionsOf(rows: seq<CartItemOption>, id: Id): (r: seq<CartItemOption>)
    ensures forall x :: x in r <==> x in rows && x.shoppingCartItemId != id
  {
    Keep(rows, (o: CartItemOption) => o.shoppingCartItemId != id)
  }

  /** removeItem: deletes the item, then its option rows; an unknown id
      deletes nothing and still succeeds. */
  method RemoveItem(db: Database, id: Id) returns (message: string)
    modifies db`cartItems, db`cartItemOptions
    ensures db.cartItems == WithoutItem(old(db.cartItems), id)
    ensures db.cartItemOptions == WithoutOptionsOf(old(db.cartItemOptions), id)
    ensures message == "Item removed from cart successfully"
  {
    db.cartItems := WithoutItem(db.cartItems, id);
    db.cartItemOptions := WithoutOptionsOf(db.cartItemOptions, id);
    message := "Item removed from cart successfully";
  }

  // ------------------------------------------------------------ cart view

  /** A chosen option with its group and option rows loaded; either may be
      missing, since both references are nullable. */
  datatype Loaded = Loaded(group: Option<OptionGroup>, option: Option<ItemOption>)

  datatype Selected = Selected(id: Option<Id>, optionName: string, additionalPrice: real)

  datatype GroupView = GroupView(id: Id, name: string, selectedOptions: seq<Selected>)

  /** A menu item as the cart loads it: every column but the cost price. */
  datatype MenuItemView = MenuItemView(
    id: Id, name: string, description: string, sellingPrice: real,
    soldCount: int, isActive: bool, timeEstimate: int, totalRating: real,
    averageRating: real, images: seq<string>, categoryId: Id)

  function MenuItemOf(f: Food): (v: MenuItemView)
    ensures v.id == f.id && v.name == f.name && v.description == f.description
    ensures v.sellingPrice == f.sellingPrice && v.soldCount == f.soldCount && v.isActive == f.isActive
    ensures v.timeEstimate == f.timeEstimate && v.totalRating == f.totalRating
    ensures v.averageRating == f.averageRating && v.images == f.images && v.categoryId == f.categoryId
  {
    MenuItemView(f.id, f.name, f.description, f.sellingPrice, f.soldCount, f.isActive,
                 f.timeEstimate, f.totalRating, f.averageRating, f.images, f.categoryId)
  }

  /** The cost price never reaches the customer: menu items that differ
      only in their cost look the same in the cart. */
  lemma MenuItemHidesCost(a: Food, b: Food)
    requires a.(costPrice := 0.0) == b.(costPrice := 0.0)
    ensures MenuItemOf(a) == MenuItemOf(b)
  {
    assert a.id == b.id;
  }

  datatype CartLine = CartLine(
    id: Id, quantity: int, menuItem: MenuItemView, basePrice: real, optionsPrice: real,
    subTotal: real, selectedOptionGroups: seq<GroupView>)

  function LoadedOf(groups: seq<OptionGroup>, options: seq<ItemOption>, o: CartItemOption): Loaded {
    Loaded(if o.optionGroupId.Some? then GroupWithId(groups, o.optionGroupId.value) else None,
           if o.optionId.Some? then OptionWithId(options, o.optionId.value) else None)
  }

  /** The option rows of a cart item, loaded, in table order. */
  function LoadedOptions(groups: seq<OptionGroup>, options: seq<ItemOption>,
                         rows: seq<CartItemOption>, itemId: Id): (r: seq<Loaded>)
  {
    if rows == [] then []
    else
      var last := rows[|rows| - 1];
      LoadedOptions(groups, options, rows[..|rows| - 1], itemId) +
        (if last.shoppingCartItemId == itemId then [LoadedOf(groups, options, last)] else [])
  }

  /** What a chosen option adds: its price, or nothing when it is missing. */
  function Surcharge(l: Loaded): real {
    if l.option.Some? then l.option.value.additionalPrice else 0.0
  }

  function OptionsPrice(ls: seq<Loaded>): real {
    if ls == [] then 0.0 else OptionsPrice(ls[..|ls| - 1]) + Surcharge(ls[|ls| - 1])
  }

  function Present(ls: seq<Loaded>): (r: seq<Loaded>)
    ensures forall l :: l in r <==> l in ls && l.option.Some?
  {
    if ls == [] then []
    else Present(ls[..|ls| - 1]) + (if ls[|ls| - 1].option.Some? then [ls[|ls| - 1]] else [])
  }

  /** Missing options count 0: the options price is the sum over the chosen
      options that still exist. */
  lemma {:induction false} MissingOptionsCostNothing(ls: seq<Loaded>)
    ensures OptionsPrice(ls) == OptionsPrice(Present(ls))
  {
    if ls != [] {
      var init := ls[..|ls| - 1];
      MissingOptionsCostNothing(init);
      var last := ls[|ls| - 1];
      var p := Present(ls);
      if last.option.Some? {
        assert p == Present(init) + [last];
        assert p[..|p| - 1] == Present(init) && p[|p| - 1] == last;
      } else {
        assert p == Present(init);
      }
    }
  }

  function SelectedOf(l: Loaded): Selected {
    if l.option.Some? then
      Selected(Some(l.option.value.id), l.option.value.optionName, l.option.value.additionalPrice)
    else Selected(None, "", 0.0)
  }

  /** The position of the group with id `gid`, or the length when there is
      none. */
  function IndexOfGroup(views: seq<GroupView>, gid: Id): (k: nat)
    ensures k <= |views|
    ensures k < |views| ==> views[k].id == gid
    ensures forall j :: 0 <= j < k ==> views[j].id != gid
  {
    if views == [] then 0
    else if views[0].id == gid then 0
    else 1 + IndexOfGroup(views[1..], gid)
  }

  /** One step of the grouping reduce: an option without a group is
      dropped; otherwise it goes at the end of its group, which is opened
      at the end of the list the first time its id is seen. */
  function AddSelected(views: seq<GroupView>, l: Loaded): seq<GroupView> {
    if l.group.None? then views
    else
      var g := l.group.value;
      var k := IndexOfGroup(views, g.id);
      if k == |views| then views + [GroupView(g.id, g.name, [SelectedOf(l)])]
      else views[k := views[k].(selectedOptions := views[k].selectedOptions + [SelectedOf(l)])]
  }

  function Grouped(ls: seq<Loaded>): seq<GroupView> {
    if ls == [] then [] else AddSelected(Grouped(ls[..|ls| - 1]), ls[|ls| - 1])
  }

  predicate InGroup(l: Loaded, gid: Id) {
    l.group.Some? && l.group.value.id == gid
  }

  /** The chosen options of group `gid`, in their original order. */
  function SelectedIn(ls: seq<Loaded>, gid: Id): seq<Selected> {
    if ls == [] then []
    else SelectedIn(ls[..|ls| - 1], gid) + (if InGroup(ls[|ls| - 1], gid) then [SelectedOf(ls[|ls| - 1])] else [])
  }

  /** No two views share a group id. */
  predicate DistinctIds(views: seq<GroupView>) {
    forall i, j :: 0 <= i < j < |views| ==> views[i].id != views[j].id
  }

  lemma AddKeepsDistinct(views: seq<GroupView>, l: Loaded)
    requires DistinctIds(views)
    ensures DistinctIds(AddSelected(views, l))
  {
  }

  lemma SelectedInSnoc(ls: seq<Loaded>, l: Loaded, gid: Id)
    ensures SelectedIn(ls + [l], gid) == SelectedIn(ls, gid) + (if InGroup(l, gid) then [SelectedOf(l)] else [])
  {
    assert (ls + [l])[..|ls|] == ls;
  }

  /** Where group `gid` sits after one more option: where it was, or at the
      end when this option opens it. */
  lemma IndexAfterAdd(views: seq<GroupView>, l: Loaded, gid: Id)
    ensures var r := AddSelected(views, l);
            var k := IndexOfGroup(views, gid);
            && (k < |views| ==> IndexOfGroup(r, gid) == k)
            && (k == |views| && InGroup(l, gid) ==> IndexOfGroup(r, gid) == |views| < |r|)
            && (k == |views| && !InGroup(l, gid) ==> IndexOfGroup(r, gid) == |r|)
  {
    var r := AddSelected(views, l);
    var k := IndexOfGroup(views, gid);
    assert forall j :: 0 <= j < |views| ==> r[j].id == views[j].id;
    if k < |views| {
      IndexOfFirst(r, gid, k);
    } else if l.group.Some? && IndexOfGroup(views, l.group.value.id) == |views| {
      if InGroup(l, gid) {
        IndexOfFirst(r, gid, |views|);
      } else {
        IndexOfMissing(r, gid);
      }
    } else {
      IndexOfMissing(r, gid);
    }
  }

  lemma {:induction false} IndexOfFirst(views: seq<GroupView>, gid: Id, k: nat)
    requires k < |views| && views[k].id == gid
    requires forall j :: 0 <= j < k ==> views[j].id != gid
    ensures IndexOfGroup(views, gid) == k
  {
    if k > 0 {
      IndexOfFirst(views[1..], gid, k - 1);
    }
  }

  lemma {:induction false} IndexOfMissing(views: seq<GroupView>, gid: Id)
    requires forall j :: 0 <= j < |views| ==> views[j].id != gid
    ensures IndexOfGroup(views, gid) == |views|
  {
    if views != [] {
      IndexOfMissing(views[1..], gid);
    }
  }

  /** Group `gid` of the grouping holds exactly the options of that group,
      in order, and is absent exactly when no option belongs to it. */
  lemma {:induction false} GroupedHolds(ls: seq<Loaded>, gid: Id)
    ensures var vs := Grouped(ls);
            var k := IndexOfGroup(vs, gid);
            && (k < |vs| ==> vs[k].selectedOptions == SelectedIn(ls, gid) != [])
            && (k == |vs| ==> SelectedIn(ls, gid) == [])
  {
    if ls != [] {
      var init := ls[..|ls| - 1];
      var l := ls[|ls| - 1];
      assert init + [l] == ls;
      GroupedHolds(init, gid);
      SelectedInSnoc(init, l, gid);
      IndexAfterAdd(Grouped(init), l, gid);
    }
  }

  lemma {:induction false} GroupedDistinct(ls: seq<Loaded>)
    ensures DistinctIds(Grouped(ls))
  {
    if ls != [] {
      GroupedDistinct(ls[..|ls| - 1]);
      AddKeepsDistinct(Grouped(ls[..|ls| - 1]), ls[|ls| - 1]);
    }
  }

  lemma IndexOfDistinct(views: seq<GroupView>, i: nat)
    requires DistinctIds(views) && i < |views|
    ensures IndexOfGroup(views, views[i].id) == i
  {
    IndexOfFirst(views, views[i].id, i);
  }

  /** The grouping of the cart view: group ids are distinct, each group
      lists exactly its chosen options in their original order, no group is
      empty, and an option lands in a group exactly when it has one. */
  lemma GroupedExact(ls: seq<Loaded>)
    ensures DistinctIds(Grouped(ls))
    ensures forall i :: 0 <= i < |Grouped(ls)| ==>
      Grouped(ls)[i].selectedOptions == SelectedIn(ls, Grouped(ls)[i].id) != []
    ensures forall gid :: IndexOfGroup(Grouped(ls), gid) == |Grouped(ls)| ==> SelectedIn(ls, gid) == []
  {
    var vs := Grouped(ls);
    GroupedDistinct(ls);
    forall i | 0 <= i < |vs| ensures vs[i].selectedOptions == SelectedIn(ls, vs[i].id) != [] {
      IndexOfDistinct(vs, i);
      GroupedHolds(ls, vs[i].id);
    }
    forall gid | IndexOfGroup(vs, gid) == |vs| ensures SelectedIn(ls, gid) == [] {
      GroupedHolds(ls, gid);
    }
  }

  /** The grouping reduce, filling the groups in place one option at a
      time. */
  method GroupOptions(ls: seq<Loaded>) returns (views: seq<GroupView>)
    ensures views == Grouped(ls)
  {
    views := [];
    var k := 0;
    while k < |ls|
      invariant 0 <= k <= |ls|
      invariant views == Grouped(ls[..k])
    {
      assert ls[..k + 1][..k] == ls[..k];
      var l := ls[k];
      if l.group.Some? {
        var g := l.group.value;
        var i := IndexOfGroup(views, g.id);
        if i == |views| {
          views := views + [GroupView(g.id, g.name, [SelectedOf(l)])];
        } else {
          views := views[i := views[i].(selectedOptions := views[i].selectedOptions + [SelectedOf(l)])];
        }
      }
      k := k + 1;
    }
    assert ls[..k] == ls;
  }

  function Subtotal(basePrice: real, quantity: int, optionsPrice: real): real {
    basePrice * quantity as real + optionsPrice
  }

  function LineOf(item: CartItem, food: Food, ls: seq<Loaded>): (line: CartLine)
    ensures line.menuItem == MenuItemOf(food)
    ensures line.menuItem.id == food.id && line.basePrice == food.sellingPrice && line.optionsPrice == OptionsPrice(ls)
    ensures line.subTotal == Subtotal(food.sellingPrice, item.quantity, OptionsPrice(ls))
  {
    CartLine(item.id, item.quantity, MenuItemOf(food), food.sellingPrice, OptionsPrice(ls),
             Subtotal(food.sellingPrice, item.quantity, OptionsPrice(ls)), Grouped(ls))
  }

  /** Every cart item's menu item exists (the foreign key, with cascading
      deletes, keeps it so). */
  predicate FoodsExist(foods: seq<Food>, items: seq<CartItem>) {
    forall i :: 0 <= i < |items| ==> FoodWithId(foods, items[i].foodId).Some?
  }

  function ItemsOfCart(items: seq<CartItem>, cartId: Id): (r: seq<CartItem>)
    ensures forall x :: x in r <==> x in items && x.shoppingCartId == cartId
  {
    Keep(items, (c: CartItem) => c.shoppingCartId == cartId)
  }

  /** The view of one cart item, from the tables. */
  function LineFor(it: CartItem, foods: seq<Food>, groups: seq<OptionGroup>,
                   options: seq<ItemOption>, rows: seq<CartItemOption>): CartLine
    requires FoodWithId(foods, it.foodId).Some?
  {
    LineOf(it, FoodWithId(foods, it.foodId).value, LoadedOptions(groups, options, rows, it.id))
  }

  function LinesOf(items: seq<CartItem>, foods: seq<Food>, groups: seq<OptionGroup>,
                   options: seq<ItemOption>, rows: seq<CartItemOption>): (r: seq<CartLine>)
    requires FoodsExist(foods, items)
    ensures |r| == |items|
  {
    if items == [] then []
    else
      LinesOf(items[..|items| - 1], foods, groups, options, rows) +
        [LineFor(items[|items| - 1], foods, groups, options, rows)]
  }

  /** The cart a user sees: "User not found" for an unknown email, an empty
      list without a cart or without items, otherwise one priced line per
      item. */
  function CartView(users: seq<User>, carts: seq<Cart>, items: seq<CartItem>, foods: seq<Food>,
                    groups: seq<OptionGroup>, options: seq<ItemOption>, rows: seq<CartItemOption>,
                    email: string): (r: Result<seq<CartLine>>)
    requires FoodsExist(foods, items)
    ensures r.Err? <==> UserWithEmail(users, email).None?
    ensures r.Err? ==> r.msg == "User not found"
  {
    var user := UserWithEmail(users, email);
    if user.None? then Err("User not found")
    else
      var cart := CartOfUser(carts, user.value.id);
      if cart.None? then Ok([])
      else
        var mine := ItemsOfCart(items, cart.value.id);
        MineExist(foods, items, mine);
        Ok(LinesOf(mine, foods, groups, options, rows))
  }

  /** The view is empty exactly when the user has no cart or the cart has
      no items, and otherwise every line is priced at the menu item's
      selling price times the quantity plus the options price. */
  lemma CartViewLines(users: seq<User>, carts: seq<Cart>, items: seq<CartItem>, foods: seq<Food>,
                      groups: seq<OptionGroup>, options: seq<ItemOption>, rows: seq<CartItemOption>,
                      email: string)
    requires FoodsExist(foods, items)
    requires UserWithEmail(users, email).Some?
    ensures var r := CartView(users, carts, items, foods, groups, options, rows, email);
            var cart := CartOfUser(carts, UserWithEmail(users, email).value.id);
            r.value == [] <==> cart.None? || ItemsOfCart(items, cart.value.id) == []
    ensures var r := CartView(users, carts, items, foods, groups, options, rows, email);
            var cart := CartOfUser(carts, UserWithEmail(users, email).value.id);
            cart.Some? ==>
              && |r.value| == |ItemsOfCart(items, cart.value.id)|
              && forall i :: 0 <= i < |r.value| ==> Priced(r.value[i], ItemsOfCart(items, cart.value.id)[i], foods, groups, options, rows)
  {
    var cart := CartOfUser(carts, UserWithEmail(users, email).value.id);
    if cart.Some? {
      var mine := ItemsOfCart(items, cart.value.id);
      MineExist(foods, items, mine);
      LinesOfPriced(mine, foods, groups, options, rows);
    }
  }

  lemma {:induction false} LinesOfPriced(items: seq<CartItem>, foods: seq<Food>, groups: seq<OptionGroup>,
                                         options: seq<ItemOption>, rows: seq<CartItemOption>)
    requires FoodsExist(foods, items)
    ensures var r := LinesOf(items, foods, groups, options, rows);
            forall i :: 0 <= i < |r| ==> Priced(r[i], items[i], foods, groups, options, rows)
  {
    if items != [] {
      var init := items[..|items| - 1];
      LinesOfPriced(init, foods, groups, options, rows);
      var r := LinesOf(items, foods, groups, options, rows);
      assert r[..|r| - 1] == LinesOf(init, foods, groups, options, rows);
      forall i | 0 <= i < |r| ensures Priced(r[i], items[i], foods, groups, options, rows) {
        if i < |r| - 1 {
          assert r[i] == LinesOf(init, foods, groups, options, rows)[i] && items[i] == init[i];
        }
      }
    }
  }

  /** A line priced from its item: it shows the item's own menu item from
      the foods table, and is priced at that item's selling price times the
      quantity plus the options price, with the options grouped. */
  ghost predicate Priced(line: CartLine, it: CartItem, foods: seq<Food>, groups: seq<OptionGroup>,
                         options: seq<ItemOption>, rows: seq<CartItemOption>) {
    && line.id == it.id && line.quantity == it.quantity
    && FoodWithId(foods, it.foodId).Some?
    && line.menuItem == MenuItemOf(FoodWithId(foods, it.foodId).value)
    && line.basePrice == FoodWithId(foods, it.foodId).value.sellingPrice
    && line.subTotal == Subtotal(line.basePrice, line.quantity, line.optionsPrice)
    && line.optionsPrice == OptionsPrice(LoadedOptions(groups, options, rows, it.id))
    && line.selectedOptionGroups == Grouped(LoadedOptions(groups, options, rows, it.id))
  }

  lemma MineExist(foods: seq<Food>, items: seq<CartItem>, mine: seq<CartItem>)
    requires FoodsExist(foods, items)
    requires forall x :: x in mine ==> x in items
    ensures FoodsExist(foods, mine)
  {
    forall i | 0 <= i < |mine| ensures FoodWithId(foods, mine[i].foodId).Some? {
      assert mine[i] in mine;
      var j :| 0 <= j < |items| && items[j] == mine[i];
    }
  }

  /** One line of getCart: the options loaded, priced and grouped. */
  method ItemLine(db: Database, it: CartItem) returns (line: CartLine)
    requires FoodWithId(db.foods, it.foodId).Some?
    ensures line == LineFor(it, db.foods, db.optionGroups, db.itemOptions, db.cartItemOptions)
  {
    var ls := LoadedOptions(db.optionGroups, db.itemOptions, db.cartItemOptions, it.id);
    var views := GroupOptions(ls);
    var food := FoodWithId(db.foods, it.foodId).value;
    var price := OptionsPrice(ls);
    line := CartLine(it.id, it.quantity, MenuItemOf(food), food.sellingPrice, price,
                     Subtotal(food.sellingPrice, it.quantity, price), views);
  }

  /** getCart, building each line's groups with the in-place reduce. */
  method GetCart(db: Database, email: string) returns (r: Result<seq<CartLine>>)
    requires FoodsExist(db.foods, db.cartItems)
    ensures r == CartView(db.users, db.carts, db.cartItems, db.foods, db.optionGroups,
                          db.itemOptions, db.cartItemOptions, email)
  {
    var user := UserWithEmail(db.users, email);
    if user.None? {
      return Err("User not found");
    }
    var cart := CartOfUser(db.carts, user.value.id);
    if cart.None? {
      return Ok([]);
    }
    var mine := ItemsOfCart(db.cartItems, cart.value.id);
    MineExist(db.foods, db.cartItems, mine);
    var lines := CartLines(db, mine);
    return Ok(lines);
  }

  /** The lines of the cart's items, one at a time. */
  method CartLines(db: Database, mine: seq<CartItem>) returns (lines: seq<CartLine>)
    requires FoodsExist(db.foods, mine)
    ensures lines == LinesOf(mine, db.foods, db.optionGroups, db.itemOptions, db.cartItemOptions)
  {
    ghost var foods, groups, options, rows := db.foods, db.optionGroups, db.itemOptions, db.cartItemOptions;
    lines := [];
    var k := 0;
    while k < |mine|
      invariant 0 <= k <= |mine|
      invariant FoodsExist(foods, mine[..k])
      invariant lines == LinesOf(mine[..k], foods, groups, options, rows)
    {
      LinesOfSnoc(mine, foods, groups, options, rows, k);
      var line := ItemLine(db, mine[k]);
      lines := lines + [line];
      k := k + 1;
    }
    assert mine[..k] == mine;
  }

  lemma LinesOfSnoc(items: seq<CartItem>, foods: seq<Food>, groups: seq<OptionGroup>,
                    options: seq<ItemOption>, rows: seq<CartItemOption>, k: nat)
    requires FoodsExist(foods, items) && k < |items|
    ensures FoodsExist(foods, items[..k]) && FoodsExist(foods, items[..k + 1])
    ensures LinesOf(items[..k + 1], foods, groups, options, rows) ==
            LinesOf(items[..k], foods, groups, options, rows) + [LineFor(items[k], foods, groups, options, rows)]
  {
    assert items[..k + 1][..k] == items[..k];
  }
}
