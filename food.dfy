/** The menu catalogue (services/food.service.ts): menu items, their option
    groups and options, the cached item view, ratings and sales counters,
    and the admin list query. */
module Food {
  import opened Wrappers
  import opened Schema
  import opened Rows
  import opened Text
  import opened Tables

  /** The cache key of one menu item. */
  function FoodKey(id: Id): string {
    "food:" + id
  }

  // ------------------------------------------------------------- requests

  datatype OptionRequest = OptionRequest(
    id: Option<Id>, optionName: string, additionalPrice: real, sequence: int)

  datatype GroupRequest = GroupRequest(
    id: Option<Id>, name: string, required: bool, multiple: bool, freeLimit: int,
    sequence: int, options: Option<seq<OptionRequest>>)

  /** Columns of the foods table a request body may carry besides the
      declared fields. No schema checks the create route's body, so these
      are inserted as given; the update writes only the declared fields. */
  datatype FoodColumns = FoodColumns(
    id: Option<Id>, soldCount: Option<int>, isActive: Option<bool>,
    totalRating: Option<real>, averageRating: Option<real>)

  datatype FoodRequest = FoodRequest(
    name: string, description: string, costPrice: real, sellingPrice: real,
    timeEstimate: Option<int>, images: seq<string>, categoryId: Id,
    optionGroups: Option<seq<GroupRequest>>, columns: FoodColumns)

  /** An optional id counts as given when it is present and not empty
      (JavaScript truthiness). */
  predicate Given(id: Option<Id>) {
    id.Some? && id.value != ""
  }

  function OptionCount(g: GroupRequest): nat {
    if g.options.Some? then |g.options.value| else 0
  }

  // ------------------------------------------------- option-group rules

  /** The rules an option group obeys, stated as one conjunction. */
  predicate WellFormedGroup(g: GroupRequest) {
    && OptionCount(g) > 0
    && !(g.required && g.multiple)
    && (g.multiple ==> 0 < g.freeLimit <= OptionCount(g))
    && (g.required ==> g.freeLimit <= 0)
  }

  /** The first rule a group breaks, checked in the source's order. */
  function GroupError(g: GroupRequest): (r: Option<string>)
    ensures r.None? <==> WellFormedGroup(g)
  {
    if OptionCount(g) == 0 then Some("Option group must have at least one option")
    else if g.required && g.multiple then Some("Required option group cannot have multiple selections")
    else if g.multiple && (g.freeLimit <= 0 || g.freeLimit > OptionCount(g)) then
      Some("Free limit must be greater than 0 and less than or equal to the number of options")
    else if g.required && g.freeLimit > 0 then Some("Required option groups cannot have a free limit")
    else None
  }

  /** validateOptionGroups: accepts exactly the lists of well-formed groups
      and otherwise reports the first broken rule of the first bad group. */
  function ValidateOptionGroups(groups: seq<GroupRequest>): (r: Outcome)
    ensures r.Done? <==> forall i :: 0 <= i < |groups| ==> WellFormedGroup(groups[i])
    ensures r.Failed? ==> exists i :: 0 <= i < |groups| && GroupError(groups[i]) == Some(r.msg) &&
                            forall j :: 0 <= j < i ==> WellFormedGroup(groups[j])
  {
    if groups == [] then Done
    else match GroupError(groups[0])
      case Some(m) => Failed(m)
      case None =>
        var rest := ValidateOptionGroups(groups[1..]);
        if rest.Failed? then
          var i :| 0 <= i < |groups[1..]| && GroupError(groups[1..][i]) == Some(rest.msg) &&
                   forall j :: 0 <= j < i ==> WellFormedGroup(groups[1..][j]);
          assert GroupError(groups[i + 1]) == Some(rest.msg);
          rest
        else rest
  }

  /** A group with both required and multiple set is refused with the
      message for that rule whenever it has options. */
  lemma RequiredMultipleRefused(g: GroupRequest)
    requires OptionCount(g) > 0 && g.required && g.multiple
    ensures ValidateOptionGroups([g]) == Failed("Required option group cannot have multiple selections")
  {
  }

  // --------------------------------------------------------------- create

  /** The group row inserted for request group `i`; a request id is kept. */
  function GroupRow(g: GroupRequest, i: nat, foodId: Id, groupId: nat -> Id): OptionGroup {
    OptionGroup(g.id.GetOr(groupId(i)), g.name, g.required, g.multiple, g.freeLimit, g.sequence, foodId)
  }

  function OptionRow(o: OptionRequest, i: nat, j: nat, gid: Id, optionId: (nat, nat) -> Id): ItemOption {
    ItemOption(o.id.GetOr(optionId(i, j)), o.optionName, o.additionalPrice, o.sequence, gid)
  }

  function RequestOptions(g: GroupRequest): seq<OptionRequest> {
    g.options.GetOr([])
  }

  /** The option rows inserted for request group `i`, in request order. */
  function OptionRowsOf(g: GroupRequest, i: nat, foodId: Id, groupId: nat -> Id,
                        optionId: (nat, nat) -> Id): (r: seq<ItemOption>)
    ensures |r| == |RequestOptions(g)|
    ensures forall o :: o in r ==> o.optionGroupId == GroupRow(g, i, foodId, groupId).id
  {
    var gid := GroupRow(g, i, foodId, groupId).id;
    seq(|RequestOptions(g)|, j requires 0 <= j < |RequestOptions(g)| =>
      OptionRow(RequestOptions(g)[j], i, j, gid, optionId))
  }

  /** The group rows inserted for the first `k` request groups. */
  function GroupRows(groups: seq<GroupRequest>, k: nat, foodId: Id, groupId: nat -> Id): (r: seq<OptionGroup>)
    requires k <= |groups|
    ensures |r| == k
    ensures forall g :: g in r ==> g.foodId == foodId
  {
    seq(k, i requires 0 <= i < k => GroupRow(groups[i], i, foodId, groupId))
  }

  /** The option rows inserted for the first `k` request groups. */
  function OptionRows(groups: seq<GroupRequest>, k: nat, foodId: Id, groupId: nat -> Id,
                      optionId: (nat, nat) -> Id): seq<ItemOption>
    requires k <= |groups|
  {
    if k == 0 then []
    else OptionRows(groups, k - 1, foodId, groupId, optionId) +
         OptionRowsOf(groups[k - 1], k - 1, foodId, groupId, optionId)
  }

  /** Every option row createFood inserts hangs off a group row it inserts
      for the same menu item. */
  lemma {:induction false} CreatedRowsLinked(groups: seq<GroupRequest>, k: nat, foodId: Id,
                                             groupId: nat -> Id, optionId: (nat, nat) -> Id)
    requires k <= |groups|
    ensures forall o :: o in OptionRows(groups, k, foodId, groupId, optionId) ==>
      exists g :: g in GroupRows(groups, k, foodId, groupId) && g.id == o.optionGroupId && g.foodId == foodId
  {
    if k > 0 {
      CreatedRowsLinked(groups, k - 1, foodId, groupId, optionId);
      var last := GroupRow(groups[k - 1], k - 1, foodId, groupId);
      assert last == GroupRows(groups, k, foodId, groupId)[k - 1];
      forall o | o in OptionRows(groups, k, foodId, groupId, optionId)
        ensures exists g :: g in GroupRows(groups, k, foodId, groupId) && g.id == o.optionGroupId && g.foodId == foodId
      {
        if o in OptionRows(groups, k - 1, foodId, groupId, optionId) {
          var g :| g in GroupRows(groups, k - 1, foodId, groupId) && g.id == o.optionGroupId && g.foodId == foodId;
          var n :| 0 <= n < k - 1 && GroupRows(groups, k - 1, foodId, groupId)[n] == g;
          assert GroupRows(groups, k, foodId, groupId)[n] == g;
        } else {
          assert o in OptionRowsOf(groups[k - 1], k - 1, foodId, groupId, optionId);
        }
      }
    }
  }

  /** What createFood returns: the inserted item and its groups with their
      options. */
  datatype CreatedFood = CreatedFood(food: Food, groups: seq<GroupDetail>)

  function CreatedGroups(groups: seq<GroupRequest>, foodId: Id, groupId: nat -> Id,
                         optionId: (nat, nat) -> Id): (r: seq<GroupDetail>)
    ensures |r| == |groups|
  {
    seq(|groups|, i requires 0 <= i < |groups| =>
      GroupDetail(GroupRow(groups[i], i, foodId, groupId), OptionRowsOf(groups[i], i, foodId, groupId, optionId)))
  }

  /** The row `insert(foods).values(body)` writes: each column the body
      carries, and the column's default for the others (`foodId` is the id
      the database generates). */
  function NewFoodRow(req: FoodRequest, foodId: Id): Food {
    var c := req.columns;
    var f := NewFood(c.id.GetOr(foodId), req.name, req.description, req.costPrice, req.sellingPrice,
                     req.timeEstimate, req.images, req.categoryId);
    f.(soldCount := c.soldCount.GetOr(f.soldCount), isActive := c.isActive.GetOr(f.isActive),
       totalRating := c.totalRating.GetOr(f.totalRating), averageRating := c.averageRating.GetOr(f.averageRating))
  }

  /** A body with only the declared fields gets a fresh, active item with
      nothing sold and no ratings, under the generated id. */
  lemma DeclaredBodyGetsDefaults(req: FoodRequest, foodId: Id)
    requires req.columns == FoodColumns(None, None, None, None, None)
    ensures var f := NewFoodRow(req, foodId);
      && f.id == foodId && f.soldCount == 0 && f.isActive
      && f.totalRating == 0.0 && f.averageRating == 0.0
      && f.timeEstimate == req.timeEstimate.GetOr(30)
  {
  }

  /** The body's own columns win over the defaults: it chooses the id, and
      a negative rating count breaks the invariant the rating updates rely
      on, while any other body keeps it. */
  lemma BodyColumnsInserted(foods: seq<Food>, req: FoodRequest, foodId: Id)
    requires RatingCountsValid(foods)
    ensures req.columns.id.Some? ==> NewFoodRow(req, foodId).id == req.columns.id.value
    ensures RatingCountsValid(foods + [NewFoodRow(req, foodId)]) <==> req.columns.totalRating.GetOr(0.0) >= 0.0
  {
    var all := foods + [NewFoodRow(req, foodId)];
    if req.columns.totalRating.GetOr(0.0) >= 0.0 {
      forall i | 0 <= i < |all| ensures all[i].totalRating >= 0.0 {
        if i < |foods| {
          assert all[i] == foods[i];
        }
      }
    } else {
      assert all[|foods|].totalRating < 0.0;
    }
  }

  /** createFood. The category is checked first, then the groups; only then
      is anything written: the item row from the whole body, then the
      groups and options under the item's id. `foodId`, `groupId` and `optionId` are the ids the
      database generates for the new rows. */
  method CreateFood(db: Database, req: FoodRequest, foodId: Id, groupId: nat -> Id,
                    optionId: (nat, nat) -> Id) returns (r: Result<CreatedFood>)
    modifies db`foods, db`optionGroups, db`itemOptions
    ensures CategoryWithId(db.categories, req.categoryId).None? ==>
      r == Err("Category not found") && unchanged(db)
    ensures CategoryWithId(db.categories, req.categoryId).Some? &&
            ValidateOptionGroups(req.optionGroups.GetOr([])).Failed? ==>
      r == Err(ValidateOptionGroups(req.optionGroups.GetOr([])).msg) && unchanged(db)
    ensures r.Ok? <==> CategoryWithId(db.categories, req.categoryId).Some? &&
                       ValidateOptionGroups(req.optionGroups.GetOr([])).Done?
    ensures r.Ok? ==>
      var groups := req.optionGroups.GetOr([]);
      var food := NewFoodRow(req, foodId);
      && r.value == CreatedFood(food, CreatedGroups(groups, food.id, groupId, optionId))
      && db.foods == old(db.foods) + [food]
      && db.optionGroups == old(db.optionGroups) + GroupRows(groups, |groups|, food.id, groupId)
      && db.itemOptions == old(db.itemOptions) + OptionRows(groups, |groups|, food.id, groupId, optionId)
  {
    if CategoryWithId(db.categories, req.categoryId).None? {
      return Err("Category not found");
    }
    var groups := req.optionGroups.GetOr([]);
    if |groups| > 0 {
      var v := ValidateOptionGroups(groups);
      if v.Failed? {
        return Err(v.msg);
      }
    }
    var food := NewFoodRow(req, foodId);
    db.foods := db.foods + [food];
    InsertGroups(db, groups, food.id, groupId, optionId);
    return Ok(CreatedFood(food, CreatedGroups(groups, food.id, groupId, optionId)));
  }

  /** The group rows of a create request, each followed by its options. */
  method InsertGroups(db: Database, groups: seq<GroupRequest>, foodId: Id, groupId: nat -> Id,
                      optionId: (nat, nat) -> Id)
    modifies db`optionGroups, db`itemOptions
    ensures db.optionGroups == old(db.optionGroups) + GroupRows(groups, |groups|, foodId, groupId)
    ensures db.itemOptions == old(db.itemOptions) + OptionRows(groups, |groups|, foodId, groupId, optionId)
  {
    var i := 0;
    while i < |groups|
      invariant 0 <= i <= |groups|
      invariant db.optionGroups == old(db.optionGroups) + GroupRows(groups, i, foodId, groupId)
      invariant db.itemOptions == old(db.itemOptions) + OptionRows(groups, i, foodId, groupId, optionId)
    {
      var row := GroupRow(groups[i], i, foodId, groupId);
      assert GroupRows(groups, i + 1, foodId, groupId) == GroupRows(groups, i, foodId, groupId) + [row];
      db.optionGroups := db.optionGroups + [row];
      InsertOptions(db, groups[i], i, foodId, groupId, optionId);
      i := i + 1;
    }
  }

  /** The option rows of one request group, in request order. */
  method InsertOptions(db: Database, g: GroupRequest, i: nat, foodId: Id, groupId: nat -> Id,
                       optionId: (nat, nat) -> Id)
    modifies db`itemOptions
    ensures db.itemOptions == old(db.itemOptions) + OptionRowsOf(g, i, foodId, groupId, optionId)
  {
    var all := OptionRowsOf(g, i, foodId, groupId, optionId);
    var gid := GroupRow(g, i, foodId, groupId).id;
    var opts := RequestOptions(g);
    var j := 0;
    while j < |opts|
      invariant 0 <= j <= |opts|
      invariant db.itemOptions == old(db.itemOptions) + all[..j]
    {
      assert all[..j + 1] == all[..j] + [OptionRow(opts[j], i, j, gid, optionId)];
      db.itemOptions := db.itemOptions + [OptionRow(opts[j], i, j, gid, optionId)];
      j := j + 1;
    }
    assert all[..j] == all;
  }

  // ------------------------------------------------------ cached item view

  predicate GroupLe(a: OptionGroup, b: OptionGroup) {
    a.sequence <= b.sequence
  }

  predicate OptionLe(a: ItemOption, b: ItemOption) {
    a.sequence <= b.sequence
  }

  function GroupsOfFood(groups: seq<OptionGroup>, foodId: Id): seq<OptionGroup> {
    Keep(groups, (g: OptionGroup) => g.foodId == foodId)
  }

  function OptionsOfGroup(options: seq<ItemOption>, groupId: Id): seq<ItemOption> {
    Keep(options, (o: ItemOption) => o.optionGroupId == groupId)
  }

  function DetailOf(g: OptionGroup, options: seq<ItemOption>): GroupDetail {
    GroupDetail(g, SortBy(OptionsOfGroup(options, g.id), OptionLe))
  }

  /** The item as getFoodById loads it: its category, its groups by
      ascending sequence, each with its options by ascending sequence. */
  function LoadFood(foods: seq<Food>, categories: seq<Category>, groups: seq<OptionGroup>,
                    options: seq<ItemOption>, foodId: Id): (r: Option<FoodDetail>)
    ensures r.None? <==> FoodWithId(foods, foodId).None?
  {
    match FoodWithId(foods, foodId)
    case None => None
    case Some(f) =>
      var gs := SortBy(GroupsOfFood(groups, foodId), GroupLe);
      Some(FoodDetail(f, CategoryWithId(categories, f.categoryId),
                      seq(|gs|, i requires 0 <= i < |gs| => DetailOf(gs[i], options))))
  }

  /** The loaded view lists exactly the item's groups, ordered by sequence,
      and under each group exactly its options, ordered by sequence. */
  lemma LoadFoodOrdered(foods: seq<Food>, categories: seq<Category>, groups: seq<OptionGroup>,
                        options: seq<ItemOption>, foodId: Id)
    requires LoadFood(foods, categories, groups, options, foodId).Some?
    ensures var d := LoadFood(foods, categories, groups, options, foodId).value;
      && d.food.id == foodId
      && (forall i, j :: 0 <= i < j < |d.groups| ==> d.groups[i].group.sequence <= d.groups[j].group.sequence)
      && multiset(seq(|d.groups|, i requires 0 <= i < |d.groups| => d.groups[i].group)) ==
         multiset(GroupsOfFood(groups, foodId))
      && (forall i :: 0 <= i < |d.groups| ==>
            SortedBy(d.groups[i].options, OptionLe) &&
            multiset(d.groups[i].options) == multiset(OptionsOfGroup(options, d.groups[i].group.id)))
  {
    var d := LoadFood(foods, categories, groups, options, foodId).value;
    var gs := SortBy(GroupsOfFood(groups, foodId), GroupLe);
    SortBySorted(GroupsOfFood(groups, foodId), GroupLe);
    assert seq(|d.groups|, i requires 0 <= i < |d.groups| => d.groups[i].group) == gs;
    forall i | 0 <= i < |d.groups|
      ensures SortedBy(d.groups[i].options, OptionLe)
      ensures multiset(d.groups[i].options) == multiset(OptionsOfGroup(options, d.groups[i].group.id))
    {
      SortBySorted(OptionsOfGroup(options, gs[i].id), OptionLe);
    }
  }

  /** getFoodById, cache-aside: a cached view is returned as is; otherwise
      the item is loaded, cached under "food:<id>" and returned. */
  method GetFoodById(db: Database, cache: Redis, foodId: Id) returns (r: Result<FoodDetail>)
    modifies cache`entries
    ensures var key := FoodKey(foodId);
      if key in old(cache.entries) && old(cache.entries)[key].FoodValue? then
        r == Ok(old(cache.entries)[key].detail) && cache.entries == old(cache.entries)
      else
        match LoadFood(db.foods, db.categories, db.optionGroups, db.itemOptions, foodId)
        case None => r == Err("Food item not found") && cache.entries == old(cache.entries)
        case Some(d) => r == Ok(d) && cache.entries == old(cache.entries)[key := FoodValue(d)]
  {
    var key := FoodKey(foodId);
    if key in cache.entries && cache.entries[key].FoodValue? {
      return Ok(cache.entries[key].detail);
    }
    var loaded := LoadFood(db.foods, db.categories, db.optionGroups, db.itemOptions, foodId);
    if loaded.None? {
      return Err("Food item not found");
    }
    cache.entries := cache.entries[key := FoodValue(loaded.value)];
    return Ok(loaded.value);
  }

  /** invalidateFoodCache. */
  method InvalidateFoodCache(cache: Redis, foodId: Id)
    modifies cache`entries
    ensures cache.entries == old(cache.entries) - {FoodKey(foodId)}
    ensures FoodKey(foodId) !in cache.entries
  {
    cache.entries := cache.entries - {FoodKey(foodId)};
  }

  // --------------------------------------------------------------- delete

  /** The options that survive the deletion of a menu item: those of
      groups that belong to other items (the cascade from option groups). */
  function OptionsCascade(options: seq<ItemOption>, groups: seq<OptionGroup>, foodId: Id): (r: seq<ItemOption>)
    ensures forall o :: o in r <==> (o in options &&
      forall g :: g in groups && g.foodId == foodId ==> o.optionGroupId != g.id)
  {
    var gone := GroupsOfFood(groups, foodId);
    Keep(options, (o: ItemOption) => forall g :: g in gone ==> o.optionGroupId != g.id)
  }

  /** The chosen cart options that survive the deletion of a menu item:
      those of cart lines for other items. */
  function CartOptionsCascade(rows: seq<CartItemOption>, items: seq<CartItem>, foodId: Id): (r: seq<CartItemOption>)
    ensures forall c :: c in r <==> (c in rows &&
      forall it :: it in items && it.foodId == foodId ==> c.shoppingCartItemId != it.id)
  {
    var gone := Keep(items, (c: CartItem) => c.foodId == foodId);
    Keep(rows, (c: CartItemOption) => forall it :: it in gone ==> c.shoppingCartItemId != it.id)
  }

  /** Ids of the option groups of a menu item. */
  function GroupIdsOfFood(groups: seq<OptionGroup>, foodId: Id): set<Id> {
    set g | g in groups && g.foodId == foodId :: g.id
  }

  /** The delete of a menu item is refused when a chosen cart option that
      the cascade keeps (one of a cart line for another item, which
      addToCart allows) still names one of the item's option groups or one
      of their options: those two columns have no delete rule. */
  predicate DeleteBlocked(groups: seq<OptionGroup>, options: seq<ItemOption>, items: seq<CartItem>,
                          rows: seq<CartItemOption>, foodId: Id) {
    var gone := GroupIdsOfFood(groups, foodId);
    HeldByCart(CartOptionsCascade(rows, items, foodId), OptionIdsIn(options, gone), gone)
  }

  /** The refusal, stated on the rows: some chosen option of a cart line
      for another item names a group of the item, or an option of one. */
  lemma DeleteBlockedMeaning(groups: seq<OptionGroup>, options: seq<ItemOption>, items: seq<CartItem>,
                             rows: seq<CartItemOption>, foodId: Id)
    ensures DeleteBlocked(groups, options, items, rows, foodId) <==>
      exists x :: x in rows && CartLineKept(x, items, foodId) && NamesItemRow(x, groups, options, foodId)
  {
    var gone := GroupIdsOfFood(groups, foodId);
    var kept := CartOptionsCascade(rows, items, foodId);
    if DeleteBlocked(groups, options, items, rows, foodId) {
      var x :| x in kept && ((x.optionId.Some? && x.optionId.value in OptionIdsIn(options, gone)) ||
                             (x.optionGroupId.Some? && x.optionGroupId.value in gone));
      if x.optionGroupId.Some? && x.optionGroupId.value in gone {
        var g :| g in groups && g.foodId == foodId && g.id == x.optionGroupId.value;
        assert NamesItemRow(x, groups, options, foodId);
      } else {
        var o :| o in options && o.optionGroupId in gone && o.id == x.optionId.value;
        var g :| g in groups && g.foodId == foodId && g.id == o.optionGroupId;
        assert NamesItemRow(x, groups, options, foodId);
      }
    }
    if exists x :: x in rows && CartLineKept(x, items, foodId) && NamesItemRow(x, groups, options, foodId) {
      var x :| x in rows && CartLineKept(x, items, foodId) && NamesItemRow(x, groups, options, foodId);
      assert x in kept;
      if x.optionGroupId.Some? && (exists g :: g in groups && g.foodId == foodId && g.id == x.optionGroupId.value) {
        var g :| g in groups && g.foodId == foodId && g.id == x.optionGroupId.value;
        assert g.id in gone;
      } else {
        var o, g :| o in options && g in groups && g.foodId == foodId && o.optionGroupId == g.id && o.id == x.optionId.value;
        assert g.id in gone;
        assert o.id in OptionIdsIn(options, gone);
      }
    }
  }

  /** A chosen option whose cart line is not for the deleted item. */
  predicate CartLineKept(x: CartItemOption, items: seq<CartItem>, foodId: Id) {
    forall it :: it in items && it.foodId == foodId ==> x.shoppingCartItemId != it.id
  }

  /** A chosen option that names one of the item's groups, or an option of
      one of them. */
  predicate NamesItemRow(x: CartItemOption, groups: seq<OptionGroup>, options: seq<ItemOption>, foodId: Id) {
    || (x.optionGroupId.Some? && exists g :: g in groups && g.foodId == foodId && g.id == x.optionGroupId.value)
    || (x.optionId.Some? && exists o, g :: o in options && g in groups && g.foodId == foodId &&
                                           o.optionGroupId == g.id && o.id == x.optionId.value)
  }

  /** deleteFood: an unknown item is refused. Otherwise the cached view is
      dropped first, and the delete either goes through with its cascades
      (the item's option groups and their options, and the cart lines
      holding it with their selected options) or is refused as a whole. */
  method DeleteFood(db: Database, cache: Redis, foodId: Id) returns (r: Result<string>)
    modifies db`foods, db`optionGroups, db`itemOptions, db`cartItems, db`cartItemOptions, cache`entries
    ensures FoodWithId(old(db.foods), foodId).None? ==>
      r == Err("Food item not found") && unchanged(db) && cache.entries == old(cache.entries)
    ensures FoodWithId(old(db.foods), foodId).Some? ==>
      cache.entries == old(cache.entries) - {FoodKey(foodId)}
    ensures FoodWithId(old(db.foods), foodId).Some? &&
            DeleteBlocked(old(db.optionGroups), old(db.itemOptions), old(db.cartItems), old(db.cartItemOptions), foodId) ==>
      r == Err(DeleteRefused) && unchanged(db)
    ensures FoodWithId(old(db.foods), foodId).Some? &&
            !DeleteBlocked(old(db.optionGroups), old(db.itemOptions), old(db.cartItems), old(db.cartItemOptions), foodId) ==>
      && r == Ok("Food item deleted successfully")
      && (forall f :: f in db.foods <==> f in old(db.foods) && f.id != foodId)
      && (forall g :: g in db.optionGroups <==> g in old(db.optionGroups) && g.foodId != foodId)
      && (forall o :: o in db.itemOptions <==> (o in old(db.itemOptions) &&
            forall g :: g in old(db.optionGroups) && g.foodId == foodId ==> o.optionGroupId != g.id))
      && (forall c :: c in db.cartItems <==> c in old(db.cartItems) && c.foodId != foodId)
      && (forall c :: c in db.cartItemOptions <==> (c in old(db.cartItemOptions) &&
            forall it :: it in old(db.cartItems) && it.foodId == foodId ==> c.shoppingCartItemId != it.id))
  {
    if FoodWithId(db.foods, foodId).None? {
      return Err("Food item not found");
    }
    InvalidateFoodCache(cache, foodId);
    if DeleteBlocked(db.optionGroups, db.itemOptions, db.cartItems, db.cartItemOptions, foodId) {
      return Err(DeleteRefused);
    }
    DeleteFoodRows(db, foodId);
    return Ok("Food item deleted successfully");
  }

  /** `delete from foods where id = foodId` with the foreign keys' cascades:
      the item's option groups and their options, and the cart lines for the
      item and their chosen options, go with it. */
  method DeleteFoodRows(db: Database, foodId: Id)
    modifies db`foods, db`optionGroups, db`itemOptions, db`cartItems, db`cartItemOptions
    ensures db.foods == Keep(old(db.foods), (f: Food) => f.id != foodId)
    ensures db.optionGroups == Keep(old(db.optionGroups), (g: OptionGroup) => g.foodId != foodId)
    ensures db.itemOptions == OptionsCascade(old(db.itemOptions), old(db.optionGroups), foodId)
    ensures db.cartItems == Keep(old(db.cartItems), (c: CartItem) => c.foodId != foodId)
    ensures db.cartItemOptions == CartOptionsCascade(old(db.cartItemOptions), old(db.cartItems), foodId)
  {
    db.foods := Keep(db.foods, (f: Food) => f.id != foodId);
    db.itemOptions := OptionsCascade(db.itemOptions, db.optionGroups, foodId);
    db.optionGroups := Keep(db.optionGroups, (g: OptionGroup) => g.foodId != foodId);
    db.cartItemOptions := CartOptionsCascade(db.cartItemOptions, db.cartItems, foodId);
    db.cartItems := Keep(db.cartItems, (c: CartItem) => c.foodId != foodId);
  }

  // ------------------------------------------------------- counter updates

  /** changeFoodStatus: only the active flag of the item changes, and the
      cached view is left as it is. */
  method ChangeFoodStatus(db: Database, foodId: Id, isActive: bool) returns (r: Result<string>)
    modifies db`foods
    ensures FoodWithId(old(db.foods), foodId).None? ==> r == Err("Food item not found") && db.foods == old(db.foods)
    ensures FoodWithId(old(db.foods), foodId).Some? ==>
      && r == Ok(if isActive then "Food item activated successfully" else "Food item deactivated successfully")
      && |db.foods| == |old(db.foods)|
      && forall i :: 0 <= i < |db.foods| ==>
           db.foods[i] == if old(db.foods)[i].id == foodId then old(db.foods)[i].(isActive := isActive) else old(db.foods)[i]
  {
    if FoodWithId(db.foods, foodId).None? {
      return Err("Food item not found");
    }
    db.foods := Update(db.foods, (f: Food) => f.id == foodId, (f: Food) => f.(isActive := isActive));
    return Ok(if isActive then "Food item activated successfully" else "Food item deactivated successfully");
  }

  /** The foods table after `quantity` more units of item `foodId` sold:
      the rows of that item take the count read plus `quantity`; an unknown
      item changes nothing. */
  function AddSold(foods: seq<Food>, foodId: Id, quantity: int): (r: seq<Food>)
    ensures |r| == |foods|
    ensures forall i :: 0 <= i < |foods| ==> r[i].id == foods[i].id
    ensures forall i :: 0 <= i < |foods| ==>
      r[i] == if foods[i].id == foodId then foods[i].(soldCount := FoodWithId(foods, foodId).value.soldCount + quantity)
              else foods[i]
  {
    match FoodWithId(foods, foodId)
    case None => foods
    case Some(f) => Update(foods, (x: Food) => x.id == foodId, (x: Food) => x.(soldCount := f.soldCount + quantity))
  }

  /** After a sale the item's sold count is exactly `quantity` higher and
      every other item's count is unchanged. */
  lemma AddSoldCounts(foods: seq<Food>, foodId: Id, quantity: int, x: Id)
    requires FoodWithId(foods, x).Some?
    ensures FoodWithId(AddSold(foods, foodId, quantity), x).Some?
    ensures FoodWithId(AddSold(foods, foodId, quantity), x).value.soldCount ==
            FoodWithId(foods, x).value.soldCount + (if x == foodId then quantity else 0)
  {
    var r := AddSold(foods, foodId, quantity);
    var i :| 0 <= i < |foods| && foods[i] == FoodWithId(foods, x).value &&
             forall j :: 0 <= j < i ==> foods[j].id != x;
    assert forall j :: 0 <= j < i ==> r[j].id != x by {
      forall j | 0 <= j < i ensures r[j].id != x {
        assert r[j].id == foods[j].id;
      }
    }
    FoodAtFirstMatch(r, x, i);
  }

  /** The row at `i` is the one found for `x` when it is the first with that id. */
  lemma FoodAtFirstMatch(foods: seq<Food>, x: Id, i: nat)
    requires i < |foods| && foods[i].id == x
    requires forall j :: 0 <= j < i ==> foods[j].id != x
    ensures FoodWithId(foods, x) == Some(foods[i])
  {
    var found := FoodWithId(foods, x);
    var k :| 0 <= k < |foods| && foods[k] == found.value && forall j :: 0 <= j < k ==> foods[j].id != x;
    assert foods[k].id == x;
    assert k == i;
  }

  /** updateSoldCount: the item's sold count becomes the count read plus
      `quantity`; its cached view is dropped. */
  method UpdateSoldCount(db: Database, cache: Redis, foodId: Id, quantity: int) returns (out: Outcome)
    modifies db`foods, cache`entries
    ensures db.foods == AddSold(old(db.foods), foodId, quantity)
    ensures FoodWithId(old(db.foods), foodId).None? ==>
      out == Failed("Food item not found") && cache.entries == old(cache.entries)
    ensures FoodWithId(old(db.foods), foodId).Some? ==>
      out == Done && cache.entries == old(cache.entries) - {FoodKey(foodId)}
  {
    if FoodWithId(db.foods, foodId).None? {
      return Failed("Food item not found");
    }
    db.foods := AddSold(db.foods, foodId, quantity);
    InvalidateFoodCache(cache, foodId);
    return Done;
  }

  /** The average after one more rating, as calculateRating computes it. */
  function NextAverage(average: real, total: real, rating: real): real
    requires total >= 0.0
  {
    (average * total + rating) / (total + 1.0)
  }

  function SumReal(xs: seq<real>): real {
    if xs == [] then 0.0 else SumReal(xs[..|xs| - 1]) + xs[|xs| - 1]
  }

  /** The (average, count) pair after applying calculateRating's update to
      each rating in turn, starting from the column defaults (0, 0), with
      the average kept exactly: the running average calculateRating is
      evidently meant to keep. */
  function RatingState(ratings: seq<real>): (r: (real, real))
    ensures r.1 == |ratings| as real
  {
    if ratings == [] then (0.0, 0.0)
    else
      var prev := RatingState(ratings[..|ratings| - 1]);
      (NextAverage(prev.0, prev.1, ratings[|ratings| - 1]), prev.1 + 1.0)
  }

  /** The running average kept by calculateRating is the mean of all the
      ratings received, and the count is their number. */
  lemma {:induction false} RunningAverageIsMean(ratings: seq<real>)
    requires ratings != []
    ensures RatingState(ratings).0 == SumReal(ratings) / |ratings| as real
  {
    var init := ratings[..|ratings| - 1];
    var n := |init| as real;
    var last := ratings[|ratings| - 1];
    if init == [] {
      assert RatingState(ratings).0 == (0.0 * 0.0 + last) / 1.0;
      assert SumReal(ratings) == last;
    } else {
      RunningAverageIsMean(init);
      var s := SumReal(init);
      var avg := RatingState(init).0;
      assert avg == s / n;
      assert avg * n == s;
      assert RatingState(ratings).0 == (avg * n + last) / (n + 1.0);
      assert SumReal(ratings) == s + last;
    }
  }

  /** No stored rating count is negative (each starts at 0 and only grows). */
  predicate RatingCountsValid(foods: seq<Food>) {
    forall i :: 0 <= i < |foods| ==> foods[i].totalRating >= 0.0
  }

  /** A value the integer averageRating column accepts. */
  predicate IsWhole(x: real) {
    x == x.Floor as real
  }

  /** Every stored average is a whole number, as its integer column holds. */
  predicate AveragesWhole(foods: seq<Food>) {
    forall i :: 0 <= i < |foods| ==> IsWhole(foods[i].averageRating)
  }

  /** PostgreSQL's refusal of a fractional value sent for an integer
      column (the parameters travel as text). */
  const IntegerRefused := "invalid input syntax for type integer"

  /** calculateRating: one more rating for the item; the count grows by one
      and the average takes the new rating in. The new average goes into an
      integer column: when it is not a whole number the update is refused,
      so neither counter changes and the cached view stays. */
  method CalculateRating(db: Database, cache: Redis, foodId: Id, rating: real) returns (out: Outcome)
    requires RatingCountsValid(db.foods)
    modifies db`foods, cache`entries
    ensures RatingCountsValid(db.foods)
    ensures FoodWithId(old(db.foods), foodId).None? ==>
      out == Failed("Food item not found") && db.foods == old(db.foods) && cache.entries == old(cache.entries)
    ensures FoodWithId(old(db.foods), foodId).Some? ==>
      var f := FoodWithId(old(db.foods), foodId).value;
      !IsWhole(NextAverage(f.averageRating, f.totalRating, rating)) ==>
        out == Failed(IntegerRefused) && db.foods == old(db.foods) && cache.entries == old(cache.entries)
    ensures FoodWithId(old(db.foods), foodId).Some? ==>
      var f := FoodWithId(old(db.foods), foodId).value;
      IsWhole(NextAverage(f.averageRating, f.totalRating, rating)) ==>
      && out == Done
      && cache.entries == old(cache.entries) - {FoodKey(foodId)}
      && |db.foods| == |old(db.foods)|
      && forall i :: 0 <= i < |db.foods| ==>
           db.foods[i] == if old(db.foods)[i].id == foodId then
             old(db.foods)[i].(totalRating := f.totalRating + 1.0,
                               averageRating := NextAverage(f.averageRating, f.totalRating, rating))
           else old(db.foods)[i]
  {
    var found := FoodWithId(db.foods, foodId);
    if found.None? {
      return Failed("Food item not found");
    }
    var f := found.value;
    var total := f.totalRating + 1.0;
    var average := NextAverage(f.averageRating, f.totalRating, rating);
    if !IsWhole(average) {
      return Failed(IntegerRefused);
    }
    db.foods := Update(db.foods, (x: Food) => x.id == foodId,
                       (x: Food) => x.(totalRating := total, averageRating := average));
    InvalidateFoodCache(cache, foodId);
    return Done;
  }

  /** uploadImage: the item's image list becomes the old list followed by
      the public urls of the uploaded images, in upload order. */
  method UploadImage(db: Database, cache: Redis, foodId: Id, publicUrls: seq<string>)
    returns (r: Result<seq<string>>)
    modifies db`foods, cache`entries
    ensures FoodWithId(old(db.foods), foodId).None? ==>
      r == Err("Food item not found") && db.foods == old(db.foods) && cache.entries == old(cache.entries)
    ensures FoodWithId(old(db.foods), foodId).Some? ==>
      var images := FoodWithId(old(db.foods), foodId).value.images + publicUrls;
      && r == Ok(images)
      && cache.entries == old(cache.entries) - {FoodKey(foodId)}
      && |db.foods| == |old(db.foods)|
      && forall i :: 0 <= i < |db.foods| ==>
           db.foods[i] == if old(db.foods)[i].id == foodId then old(db.foods)[i].(images := images) else old(db.foods)[i]
  {
    var found := FoodWithId(db.foods, foodId);
    if found.None? {
      return Err("Food item not found");
    }
    var images := found.value.images;
    var k := 0;
    while k < |publicUrls|
      invariant 0 <= k <= |publicUrls|
      invariant images == found.value.images + publicUrls[..k]
    {
      assert publicUrls[..k + 1] == publicUrls[..k] + [publicUrls[k]];
      images := images + [publicUrls[k]];
      k := k + 1;
    }
    assert publicUrls[..k] == publicUrls;
    db.foods := Update(db.foods, (x: Food) => x.id == foodId, (x: Food) => x.(images := images));
    InvalidateFoodCache(cache, foodId);
    return Ok(images);
  }

  // --------------------------------------------------------------- update

  /** The menu item row after the basic fields of an update request are
      written; a missing time estimate is not written. */
  function EditedFood(f: Food, req: FoodRequest): (r: Food)
    ensures r.id == f.id && r.categoryId == f.categoryId
    ensures r.soldCount == f.soldCount && r.isActive == f.isActive
    ensures r.totalRating == f.totalRating && r.averageRating == f.averageRating
  {
    f.(name := req.name, description := req.description, costPrice := req.costPrice,
       sellingPrice := req.sellingPrice, timeEstimate := req.timeEstimate.GetOr(f.timeEstimate),
       images := req.images)
  }

  /** The groups and options of the catalogue, as one value. */
  datatype Catalog = Catalog(groups: seq<OptionGroup>, options: seq<ItemOption>)

  predicate OptionOfItem(itemGroups: seq<OptionGroup>, o: ItemOption) {
    exists k :: 0 <= k < |itemGroups| && itemGroups[k].id == o.optionGroupId
  }

  /** The options of the item's groups, as loaded before the update. */
  function OptionsOfItem(itemGroups: seq<OptionGroup>, options: seq<ItemOption>): seq<ItemOption> {
    Keep(options, (o: ItemOption) => OptionOfItem(itemGroups, o))
  }

  /** Some request group carries option id `x`. */
  predicate OptionIdRequested(req: seq<GroupRequest>, x: Id) {
    exists i, j :: 0 <= i < |req| && 0 <= j < |RequestOptions(req[i])| &&
                   Given(RequestOptions(req[i])[j].id) && RequestOptions(req[i])[j].id.value == x
  }

  predicate GroupIdRequested(req: seq<GroupRequest>, x: Id) {
    exists i :: 0 <= i < |req| && Given(req[i].id) && req[i].id.value == x
  }

  /** Ids of the loaded options that the request no longer names. */
  function StaleOptionIds(itemOptions: seq<ItemOption>, req: seq<GroupRequest>): set<Id> {
    set o | o in itemOptions && !OptionIdRequested(req, o.id) :: o.id
  }

  /** Ids of the loaded groups that the request no longer names. */
  function StaleGroupIds(itemGroups: seq<OptionGroup>, req: seq<GroupRequest>): set<Id> {
    set g | g in itemGroups && !GroupIdRequested(req, g.id) :: g.id
  }

  /** Some cart option row still names one of the options `optionIds` or
      one of the groups `groupIds`. Those two columns of the cart's option
      table reference the catalogue with no delete rule, so PostgreSQL
      refuses to delete a row they still name. */
  predicate HeldByCart(cart: seq<CartItemOption>, optionIds: set<Id>, groupIds: set<Id>) {
    exists x :: x in cart && ((x.optionId.Some? && x.optionId.value in optionIds) ||
                              (x.optionGroupId.Some? && x.optionGroupId.value in groupIds))
  }

  /** Ids of the option rows that belong to one of the groups `groupIds`. */
  function OptionIdsIn(options: seq<ItemOption>, groupIds: set<Id>): set<Id> {
    set o | o in options && o.optionGroupId in groupIds :: o.id
  }

  /** The two deletions of updateOptionGroups: first the stale options, then
      the stale groups, whose remaining options go with them (cascade). Each
      delete is refused while a cart option row names a row it would remove;
      a refused group delete leaves the option delete done. */
  function RemoveStale(c: Catalog, cart: seq<CartItemOption>, itemGroups: seq<OptionGroup>,
                       itemOptions: seq<ItemOption>, req: seq<GroupRequest>): (Catalog, Outcome)
  {
    var staleOptions := StaleOptionIds(itemOptions, req);
    var staleGroups := StaleGroupIds(itemGroups, req);
    if HeldByCart(cart, staleOptions, {}) then (c, Failed(DeleteRefused))
    else
      var options := Keep(c.options, (o: ItemOption) => o.id !in staleOptions);
      if HeldByCart(cart, OptionIdsIn(options, staleGroups), staleGroups) then
        (Catalog(c.groups, options), Failed(DeleteRefused))
      else
        (Catalog(Keep(c.groups, (g: OptionGroup) => g.id !in staleGroups),
                 Keep(options, (o: ItemOption) => o.optionGroupId !in staleGroups)), Done)
  }

  /** When neither delete is refused, exactly the loaded rows the request no
      longer names are deleted (with the options of deleted groups); every
      other row stays. */
  lemma RemoveStaleExact(c: Catalog, cart: seq<CartItemOption>, itemGroups: seq<OptionGroup>,
                         itemOptions: seq<ItemOption>, req: seq<GroupRequest>)
    ensures var r := RemoveStale(c, cart, itemGroups, itemOptions, req);
      r.1.Done? ==>
      && (forall g :: g in r.0.groups <==>
            g in c.groups && !(g.id in GroupIdsOf(itemGroups) && !GroupIdRequested(req, g.id)))
      && (forall o :: o in r.0.options <==>
            && o in c.options
            && !(o.id in OptionIdsOf(itemOptions) && !OptionIdRequested(req, o.id))
            && o.optionGroupId !in StaleGroupIds(itemGroups, req))
  {
    var r := RemoveStale(c, cart, itemGroups, itemOptions, req);
    if r.1.Done? {
      forall g ensures g in r.0.groups <==>
        g in c.groups && !(g.id in GroupIdsOf(itemGroups) && !GroupIdRequested(req, g.id))
      {
        if g.id in GroupIdsOf(itemGroups) && !GroupIdRequested(req, g.id) {
          var h :| h in itemGroups && h.id == g.id;
          assert g.id in StaleGroupIds(itemGroups, req);
        }
      }
      forall o ensures o in r.0.options <==>
        && o in c.options
        && !(o.id in OptionIdsOf(itemOptions) && !OptionIdRequested(req, o.id))
        && o.optionGroupId !in StaleGroupIds(itemGroups, req)
      {
        if o.id in OptionIdsOf(itemOptions) && !OptionIdRequested(req, o.id) {
          var p :| p in itemOptions && p.id == o.id;
          assert o.id in StaleOptionIds(itemOptions, req);
        }
      }
    }
  }

  /** The deletions are refused exactly when a cart option row names a
      stale group, a stale option, or an option of a stale group. A refusal
      of the first delete changes nothing; one of the second leaves only
      the stale options deleted. */
  lemma RemoveStaleRefused(c: Catalog, cart: seq<CartItemOption>, itemGroups: seq<OptionGroup>,
                           itemOptions: seq<ItemOption>, req: seq<GroupRequest>)
    ensures var r := RemoveStale(c, cart, itemGroups, itemOptions, req);
      var staleOptions := StaleOptionIds(itemOptions, req);
      var staleGroups := StaleGroupIds(itemGroups, req);
      && (r.1.Failed? <==> HeldByCart(cart, staleOptions + OptionIdsIn(c.options, staleGroups), staleGroups))
      && (r.1.Failed? ==> r.1.msg == DeleteRefused && r.0.groups == c.groups)
      && (HeldByCart(cart, staleOptions, {}) ==> r.0 == c)
  {
    var staleOptions := StaleOptionIds(itemOptions, req);
    var staleGroups := StaleGroupIds(itemGroups, req);
    var options := Keep(c.options, (o: ItemOption) => o.id !in staleOptions);
    assert staleOptions + OptionIdsIn(options, staleGroups) == staleOptions + OptionIdsIn(c.options, staleGroups) by {
      forall x | x in OptionIdsIn(c.options, staleGroups) && x !in staleOptions
        ensures x in OptionIdsIn(options, staleGroups)
      {
        var o :| o in c.options && o.optionGroupId in staleGroups && o.id == x;
        assert o in options;
      }
    }
    HeldByCartUnion(cart, staleOptions, OptionIdsIn(options, staleGroups), staleGroups);
  }

  /** Holding one of two id sets is holding their union. */
  lemma HeldByCartUnion(cart: seq<CartItemOption>, a: set<Id>, b: set<Id>, groupIds: set<Id>)
    ensures HeldByCart(cart, a + b, groupIds) <==> HeldByCart(cart, a, {}) || HeldByCart(cart, b, groupIds)
  {
    if HeldByCart(cart, a + b, groupIds) {
      var x :| x in cart && ((x.optionId.Some? && x.optionId.value in a + b) ||
                             (x.optionGroupId.Some? && x.optionGroupId.value in groupIds));
      if x.optionId.Some? && x.optionId.value in a {
        assert x in cart && x.optionId.Some? && x.optionId.value in a;
      }
    }
  }

  function GroupIdsOf(groups: seq<OptionGroup>): set<Id> {
    set g | g in groups :: g.id
  }

  function OptionIdsOf(options: seq<ItemOption>): set<Id> {
    set o | o in options :: o.id
  }

  /** The rows whose id is the request group's id, with its fields written. */
  function SetGroupFields(groups: seq<OptionGroup>, g: GroupRequest): seq<OptionGroup>
    requires g.id.Some?
  {
    Update(groups, (x: OptionGroup) => x.id == g.id.value,
           (x: OptionGroup) => x.(name := g.name, required := g.required, multiple := g.multiple,
                                  freeLimit := g.freeLimit, sequence := g.sequence))
  }

  function SetOptionFields(options: seq<ItemOption>, o: OptionRequest): seq<ItemOption>
    requires o.id.Some?
  {
    Update(options, (x: ItemOption) => x.id == o.id.value,
           (x: ItemOption) => x.(optionName := o.optionName, additionalPrice := o.additionalPrice,
                                 sequence := o.sequence))
  }

  /** updateOptions from the `j`-th option of the `k`-th request group on:
      an option with an id rewrites that row, one without is inserted. */
  function ApplyOptionRequests(options: seq<ItemOption>, reqs: seq<OptionRequest>, gid: Id,
                               k: nat, j: nat, optionId: (nat, nat) -> Id): seq<ItemOption>
    decreases |reqs|
  {
    if reqs == [] then options
    else
      var o := reqs[0];
      var next := if Given(o.id) then SetOptionFields(options, o)
                  else options + [ItemOption(optionId(k, j), o.optionName, o.additionalPrice, o.sequence, gid)];
      ApplyOptionRequests(next, reqs[1..], gid, k, j + 1, optionId)
  }

  /** The group loop of updateOptionGroups from the `k`-th request group on:
      a group with an id must be one of the item's loaded groups and is
      rewritten, one without is inserted; then its options are applied. */
  function ApplyGroupRequests(c: Catalog, req: seq<GroupRequest>, k: nat, itemGroupIds: set<Id>,
                              foodId: Id, groupId: nat -> Id, optionId: (nat, nat) -> Id): (Catalog, Outcome)
    decreases |req|
  {
    if req == [] then (c, Done)
    else
      var g := req[0];
      if Given(g.id) && g.id.value !in itemGroupIds then
        (c, Failed("Option Group with ID " + g.id.value + " not found"))
      else
        var gid := if Given(g.id) then g.id.value else groupId(k);
        var groups := if Given(g.id) then SetGroupFields(c.groups, g)
                      else c.groups + [OptionGroup(gid, g.name, g.required, g.multiple, g.freeLimit, g.sequence, foodId)];
        var options := if g.options.Some? then ApplyOptionRequests(c.options, g.options.value, gid, k, 0, optionId)
                       else c.options;
        ApplyGroupRequests(Catalog(groups, options), req[1..], k + 1, itemGroupIds, foodId, groupId, optionId)
  }

  /** The group loop runs to the end exactly when every group id the
      request gives is one of the item's groups; otherwise it stops at the
      first foreign id and reports it. */
  lemma {:induction false} ApplyGroupsSucceedsIff(c: Catalog, req: seq<GroupRequest>, k: nat,
                                                   itemGroupIds: set<Id>, foodId: Id,
                                                   groupId: nat -> Id, optionId: (nat, nat) -> Id)
    ensures var out := ApplyGroupRequests(c, req, k, itemGroupIds, foodId, groupId, optionId).1;
      && (out.Done? <==> forall i :: 0 <= i < |req| && Given(req[i].id) ==> req[i].id.value in itemGroupIds)
      && (out.Failed? ==> exists i :: 0 <= i < |req| && Given(req[i].id) && req[i].id.value !in itemGroupIds &&
                                       out.msg == "Option Group with ID " + req[i].id.value + " not found")
    decreases |req|
  {
    if req != [] {
      var g := req[0];
      if !(Given(g.id) && g.id.value !in itemGroupIds) {
        var gid := if Given(g.id) then g.id.value else groupId(k);
        var groups := if Given(g.id) then SetGroupFields(c.groups, g)
                      else c.groups + [OptionGroup(gid, g.name, g.required, g.multiple, g.freeLimit, g.sequence, foodId)];
        var options := if g.options.Some? then ApplyOptionRequests(c.options, g.options.value, gid, k, 0, optionId)
                       else c.options;
        ApplyGroupsSucceedsIff(Catalog(groups, options), req[1..], k + 1, itemGroupIds, foodId, groupId, optionId);
        var out := ApplyGroupRequests(c, req, k, itemGroupIds, foodId, groupId, optionId).1;
        if out.Failed? {
          var i :| 0 <= i < |req[1..]| && Given(req[1..][i].id) && req[1..][i].id.value !in itemGroupIds &&
                   out.msg == "Option Group with ID " + req[1..][i].id.value + " not found";
          assert req[i + 1] == req[1..][i];
        } else {
          forall i | 0 <= i < |req| && Given(req[i].id) ensures req[i].id.value in itemGroupIds {
            if i > 0 {
              assert req[i] == req[1..][i - 1];
            }
          }
        }
      }
    }
  }

  /** updateOptions, applied in request order. */
  method UpdateOptions(db: Database, gid: Id, reqs: seq<OptionRequest>, k: nat, optionId: (nat, nat) -> Id)
    modifies db`itemOptions
    ensures db.itemOptions == ApplyOptionRequests(old(db.itemOptions), reqs, gid, k, 0, optionId)
  {
    var j := 0;
    while j < |reqs|
      invariant 0 <= j <= |reqs|
      invariant ApplyOptionRequests(old(db.itemOptions), reqs, gid, k, 0, optionId) ==
                ApplyOptionRequests(db.itemOptions, reqs[j..], gid, k, j, optionId)
    {
      var o := reqs[j];
      assert reqs[j..][0] == o && reqs[j..][1..] == reqs[j + 1..];
      if Given(o.id) {
        db.itemOptions := SetOptionFields(db.itemOptions, o);
      } else {
        db.itemOptions := db.itemOptions + [ItemOption(optionId(k, j), o.optionName, o.additionalPrice, o.sequence, gid)];
      }
      j := j + 1;
    }
  }

  /** What updateOptionGroups leaves in the catalogue and reports: the
      deletions, then, unless one was refused, the group loop. */
  function GroupsUpdate(c: Catalog, cart: seq<CartItemOption>, itemGroups: seq<OptionGroup>,
                        itemOptions: seq<ItemOption>, req: seq<GroupRequest>, foodId: Id,
                        groupId: nat -> Id, optionId: (nat, nat) -> Id): (Catalog, Outcome)
  {
    var start := RemoveStale(c, cart, itemGroups, itemOptions, req);
    if start.1.Failed? then start
    else ApplyGroupRequests(start.0, req, 0, GroupIdsOf(itemGroups), foodId, groupId, optionId)
  }

  /** updateOptionGroups. `itemGroups` and `itemOptions` are the item's
      groups and options as loaded before the update. The cached view is
      dropped only when every step went through. */
  method UpdateOptionGroups(db: Database, cache: Redis, foodId: Id, itemGroups: seq<OptionGroup>,
                            itemOptions: seq<ItemOption>, req: seq<GroupRequest>,
                            groupId: nat -> Id, optionId: (nat, nat) -> Id) returns (out: Outcome)
    modifies db`optionGroups, db`itemOptions, cache`entries
    ensures var res := GroupsUpdate(Catalog(old(db.optionGroups), old(db.itemOptions)), db.cartItemOptions,
                                    itemGroups, itemOptions, req, foodId, groupId, optionId);
      && db.optionGroups == res.0.groups && db.itemOptions == res.0.options && out == res.1
      && cache.entries == if out.Done? then old(cache.entries) - {FoodKey(foodId)} else old(cache.entries)
  {
    var start := RemoveStale(Catalog(db.optionGroups, db.itemOptions), db.cartItemOptions, itemGroups, itemOptions, req);
    var staleOptions := StaleOptionIds(itemOptions, req);
    if |staleOptions| > 0 {
      if HeldByCart(db.cartItemOptions, staleOptions, {}) {
        return Failed(DeleteRefused);
      }
      db.itemOptions := Keep(db.itemOptions, (o: ItemOption) => o.id !in staleOptions);
    } else {
      KeepAll(db.itemOptions, (o: ItemOption) => o.id !in staleOptions);
    }
    var staleGroups := StaleGroupIds(itemGroups, req);
    if |staleGroups| > 0 {
      if HeldByCart(db.cartItemOptions, OptionIdsIn(db.itemOptions, staleGroups), staleGroups) {
        return Failed(DeleteRefused);
      }
      db.optionGroups := Keep(db.optionGroups, (g: OptionGroup) => g.id !in staleGroups);
      db.itemOptions := Keep(db.itemOptions, (o: ItemOption) => o.optionGroupId !in staleGroups);
    } else {
      KeepAll(db.itemOptions, (o: ItemOption) => o.optionGroupId !in staleGroups);
      KeepAll(db.optionGroups, (g: OptionGroup) => g.id !in staleGroups);
    }
    assert start.1.Done? && Catalog(db.optionGroups, db.itemOptions) == start.0;
    out := ApplyGroups(db, req, GroupIdsOf(itemGroups), foodId, groupId, optionId);
    if out.Done? {
      InvalidateFoodCache(cache, foodId);
    }
  }

  /** A filter every row passes keeps the table as it is. */
  lemma {:induction false} KeepAll<T(!new)>(rows: seq<T>, p: T -> bool)
    requires forall x :: x in rows ==> p(x)
    ensures Keep(rows, p) == rows
  {
    if rows != [] {
      KeepAll(rows[1..], p);
    }
  }

  /** The group loop of updateOptionGroups. */
  method ApplyGroups(db: Database, req: seq<GroupRequest>, itemGroupIds: set<Id>, foodId: Id,
                     groupId: nat -> Id, optionId: (nat, nat) -> Id) returns (out: Outcome)
    modifies db`optionGroups, db`itemOptions
    ensures var res := ApplyGroupRequests(Catalog(old(db.optionGroups), old(db.itemOptions)), req, 0,
                                          itemGroupIds, foodId, groupId, optionId);
      db.optionGroups == res.0.groups && db.itemOptions == res.0.options && out == res.1
  {
    var k := 0;
    while k < |req|
      invariant 0 <= k <= |req|
      invariant ApplyGroupRequests(Catalog(old(db.optionGroups), old(db.itemOptions)), req, 0,
                                   itemGroupIds, foodId, groupId, optionId) ==
                ApplyGroupRequests(Catalog(db.optionGroups, db.itemOptions), req[k..], k,
                                   itemGroupIds, foodId, groupId, optionId)
    {
      var g := req[k];
      assert req[k..][0] == g && req[k..][1..] == req[k + 1..];
      if Given(g.id) && g.id.value !in itemGroupIds {
        return Failed("Option Group with ID " + g.id.value + " not found");
      }
      var gid;
      if Given(g.id) {
        db.optionGroups := SetGroupFields(db.optionGroups, g);
        gid := g.id.value;
      } else {
        gid := groupId(k);
        db.optionGroups := db.optionGroups + [OptionGroup(gid, g.name, g.required, g.multiple, g.freeLimit, g.sequence, foodId)];
      }
      if g.options.Some? {
        UpdateOptions(db, gid, g.options.value, k, optionId);
      }
      k := k + 1;
    }
    assert req[k..] == [];
    return Done;
  }

  /** updateMenuItem. The basic fields are written before a changed category
      is checked, so "Category not found" leaves them written; the option
      groups are replaced only when the request carries a list of them. */
  method UpdateMenuItem(db: Database, cache: Redis, menuItemId: Id, req: FoodRequest,
                        groupId: nat -> Id, optionId: (nat, nat) -> Id) returns (r: Result<string>)
    modifies db`foods, db`optionGroups, db`itemOptions, cache`entries
    ensures FoodWithId(old(db.foods), menuItemId).None? ==>
      r == Err("Menu item not found") && unchanged(db) && cache.entries == old(cache.entries)
    ensures FoodWithId(old(db.foods), menuItemId).Some? ==>
      var f := FoodWithId(old(db.foods), menuItemId).value;
      var badCategory := req.categoryId != f.categoryId && CategoryWithId(old(db.categories), req.categoryId).None?;
      && |db.foods| == |old(db.foods)|
      && (forall i :: 0 <= i < |db.foods| ==>
            db.foods[i] == if old(db.foods)[i].id != menuItemId then old(db.foods)[i]
                           else if badCategory || req.categoryId == f.categoryId then EditedFood(old(db.foods)[i], req)
                           else EditedFood(old(db.foods)[i], req).(categoryId := req.categoryId))
      && (badCategory ==>
            && r == Err("Category not found")
            && db.optionGroups == old(db.optionGroups) && db.itemOptions == old(db.itemOptions)
            && cache.entries == old(cache.entries))
      && (!badCategory && req.optionGroups.None? ==>
            && r == Ok("Menu item updated successfully")
            && db.optionGroups == old(db.optionGroups) && db.itemOptions == old(db.itemOptions)
            && cache.entries == old(cache.entries))
      && (!badCategory && req.optionGroups.Some? ==>
            var itemGroups := GroupsOfFood(old(db.optionGroups), menuItemId);
            var res := GroupsUpdate(Catalog(old(db.optionGroups), old(db.itemOptions)), db.cartItemOptions,
                                    itemGroups, OptionsOfItem(itemGroups, old(db.itemOptions)),
                                    req.optionGroups.value, menuItemId, groupId, optionId);
            && db.optionGroups == res.0.groups && db.itemOptions == res.0.options
            && r == (if res.1.Done? then Ok("Menu item updated successfully") else Err(res.1.msg))
            && cache.entries == if res.1.Done? then old(cache.entries) - {FoodKey(menuItemId)} else old(cache.entries))
  {
    var found := FoodWithId(db.foods, menuItemId);
    if found.None? {
      return Err("Menu item not found");
    }
    var f := found.value;
    var itemGroups := GroupsOfFood(db.optionGroups, menuItemId);
    var itemOptions := OptionsOfItem(itemGroups, db.itemOptions);
    db.foods := Update(db.foods, (x: Food) => x.id == menuItemId, (x: Food) => EditedFood(x, req));
    if req.categoryId != f.categoryId {
      if CategoryWithId(db.categories, req.categoryId).None? {
        return Err("Category not found");
      }
      db.foods := Update(db.foods, (x: Food) => x.id == menuItemId, (x: Food) => x.(categoryId := req.categoryId));
    }
    if req.optionGroups.Some? {
      var out := UpdateOptionGroups(db, cache, menuItemId, itemGroups, itemOptions, req.optionGroups.value,
                                    groupId, optionId);
      if out.Failed? {
        return Err(out.msg);
      }
    }
    return Ok("Menu item updated successfully");
  }

  // ------------------------------------------------------ admin list query

  /** A query-string value given once or repeated. */
  datatype OneOrMany<T> = One(x: T) | Many(xs: seq<T>)

  /** An isActives value: a boolean, or its text as the query string has it. */
  datatype Flag = BoolFlag(b: bool) | TextFlag(s: string)

  datatype AdminFilter = AdminFilter(
    search: Option<string>, categoriesIds: Option<OneOrMany<Id>>, rating: Option<string>,
    fromPrice: Option<real>, toPrice: Option<real>, isActives: Option<OneOrMany<Flag>>,
    sort: Option<string>, page: Option<int>, limit: Option<int>)

  datatype FoodCondition =
    | NameOrDescriptionLike(pattern: string)
    | CategoryIn(ids: seq<Id>)
    | RatingAtMost(hi: int)
    | RatingBetween(lo: int, hi: int)
    | PriceBetween(fromPrice: real, toPrice: real)
    | ActiveIn(flags: seq<Flag>)

  datatype FoodColumn = SellingPrice | CostPrice | AverageRating | SoldCount | TimeEstimate

  datatype Direction = Asc | Desc

  datatype Paging = Paging(page: int, limit: int, offset: int)

  datatype FoodQuery = FoodQuery(conditions: seq<FoodCondition>, orderBy: Option<(FoodColumn, Direction)>, paging: Paging)

  /** JavaScript truthiness of a present string. */
  predicate Truthy(s: Option<string>) {
    s.Some? && s.value != ""
  }

  predicate FlagTruthy(v: OneOrMany<Flag>) {
    match v
    case One(BoolFlag(b)) => b
    case One(TextFlag(s)) => s != ""
    case Many(_) => true
  }

  function AsList<T>(v: OneOrMany<T>): seq<T> {
    match v
    case One(x) => [x]
    case Many(xs) => xs
  }

  function RatingCondition(rating: Option<string>): seq<FoodCondition> {
    if !Truthy(rating) || rating.value == "default" then []
    else if rating.value == "BELOW_3" then [RatingAtMost(3)]
    else if rating.value == "BETWEEN_3_AND_4" then [RatingBetween(3, 4)]
    else if rating.value == "BETWEEN_4_AND_5" then [RatingBetween(4, 5)]
    else []
  }

  function FoodSortKey(sort: Option<string>): Option<(FoodColumn, Direction)> {
    if !Truthy(sort) || sort.value == "default" then None
    else
      var s := sort.value;
      if s == "selling_asc" || s == "price_asc" then Some((SellingPrice, Asc))
      else if s == "selling_desc" || s == "price_desc" then Some((SellingPrice, Desc))
      else if s == "cost_asc" then Some((CostPrice, Asc))
      else if s == "cost_desc" then Some((CostPrice, Desc))
      else if s == "rating_desc" || s == "rating" then Some((AverageRating, Desc))
      else if s == "rating_asc" then Some((AverageRating, Asc))
      else if s == "sold_asc" then Some((SoldCount, Asc))
      else if s == "sold_desc" || s == "sold" then Some((SoldCount, Desc))
      else if s == "time_asc" then Some((TimeEstimate, Asc))
      else if s == "time_desc" then Some((TimeEstimate, Desc))
      else None
  }

  /** getFoodTableList's mapping of the admin filter to a query. */
  function FoodListQuery(f: AdminFilter): FoodQuery {
    var search := if Truthy(f.search) then [NameOrDescriptionLike(ContainsPattern(f.search.value))] else [];
    var ids := if f.categoriesIds.Some? then AsList(f.categoriesIds.value) else [];
    var categories := if |ids| > 0 then [CategoryIn(ids)] else [];
    var price := if f.fromPrice.Some? && f.toPrice.Some? then [PriceBetween(f.fromPrice.value, f.toPrice.value)] else [];
    var active := if f.isActives.Some? && FlagTruthy(f.isActives.value) then [ActiveIn(AsList(f.isActives.value))] else [];
    var page := f.page.GetOr(0);
    var limit := f.limit.GetOr(6);
    FoodQuery(search + categories + RatingCondition(f.rating) + price + active, FoodSortKey(f.sort),
              Paging(page, limit, limit * page))
  }

  predicate HasPriceCondition(q: FoodQuery) {
    exists i :: 0 <= i < |q.conditions| && q.conditions[i].PriceBetween?
  }

  /** The paging defaults, the price range that applies only with both
      bounds, and the wrapping of a single category id. */
  lemma FoodListParameters(f: AdminFilter)
    ensures var q := FoodListQuery(f);
      && q.paging.page == (if f.page.Some? then f.page.value else 0)
      && q.paging.limit == (if f.limit.Some? then f.limit.value else 6)
      && q.paging.offset == q.paging.limit * q.paging.page
      && (HasPriceCondition(q) <==> f.fromPrice.Some? && f.toPrice.Some?)
      && (forall x :: f.categoriesIds == Some(One(x)) ==> CategoryIn([x]) in q.conditions)
  {
    var q := FoodListQuery(f);
    if f.fromPrice.Some? && f.toPrice.Some? {
      var search := if Truthy(f.search) then [NameOrDescriptionLike(ContainsPattern(f.search.value))] else [];
      var ids := if f.categoriesIds.Some? then AsList(f.categoriesIds.value) else [];
      var categories := if |ids| > 0 then [CategoryIn(ids)] else [];
      var k := |search| + |categories| + |RatingCondition(f.rating)|;
      assert q.conditions[k].PriceBetween?;
    }
  }

  /** A lone boolean `false` is falsy, so it adds no isActives condition at
      all: the list then shows active and inactive items alike. */
  lemma SingleFalseAddsNoActiveFilter(f: AdminFilter)
    requires f.isActives == Some(One(BoolFlag(false)))
    ensures forall c :: c in FoodListQuery(f).conditions ==> !c.ActiveIn?
  {
  }
}
