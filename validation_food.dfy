/** The menu-list schemas (validation/food.ts): the customer's filter and
    the admin's, which adds the isActives key. Both routes hand the query to
    the same list mapping. */
module FoodRules {
  import opened Wrappers
  import opened Text
  import opened Joi
  import Menu = Food

  datatype FilterBody = FilterBody(
    search: Option<string>, categoriesIds: Option<Menu.OneOrMany<string>>,
    page: Option<int>, limit: Option<int>, fromPrice: Option<real>, toPrice: Option<real>,
    sort: Option<string>, rating: Option<string>, isActives: Option<Menu.OneOrMany<Menu.Flag>>)

  /** An optional Joi.string(): when present, not empty. */
  predicate OptionalText(v: Option<string>) {
    v.None? || StringOk(v.value, false, false, 0, None)
  }

  /** categoriesIds: one string or a list of strings, none of them empty. */
  predicate IdsOk(v: Option<Menu.OneOrMany<string>>) {
    match v
    case None => true
    case Some(One(x)) => StringOk(x, false, false, 0, None)
    case Some(Many(xs)) => forall i :: 0 <= i < |xs| ==> StringOk(xs[i], false, false, 0, None)
  }

  /** Joi.boolean(): a boolean, or the text "true" or "false" in any case. */
  predicate BooleanOk(x: Menu.Flag) {
    match x
    case BoolFlag(_) => true
    case TextFlag(s) => Lower(s) == "true" || Lower(s) == "false"
  }

  /** isActives: one boolean or a list of booleans. */
  predicate FlagsOk(v: Option<Menu.OneOrMany<Menu.Flag>>) {
    match v
    case None => true
    case Some(One(x)) => BooleanOk(x)
    case Some(Many(xs)) => forall i :: 0 <= i < |xs| ==> BooleanOk(xs[i])
  }

  /** filterFoodRequestSchema, which has no isActives key. */
  predicate FilterAccepted(b: FilterBody) {
    && OptionalText(b.search)
    && IdsOk(b.categoriesIds)
    && IntKey(b.page, false, 0, None)
    && IntKey(b.limit, false, 1, None)
    && NumberKey(b.fromPrice, false, 0.0)
    && NumberKey(b.toPrice, false, 0.0)
    && OptionalText(b.sort)
    && OptionalText(b.rating)
    && b.isActives.None?
  }

  /** adminFilterFoodSchema: the same keys and isActives. */
  predicate AdminFilterAccepted(b: FilterBody) {
    FilterAccepted(b.(isActives := None)) && FlagsOk(b.isActives)
  }

  /** The filter the list mapping receives: the query as sent. */
  function AdminFilterOf(b: FilterBody): Menu.AdminFilter {
    Menu.AdminFilter(b.search, b.categoriesIds, b.rating, b.fromPrice, b.toPrice, b.isActives,
                     b.sort, b.page, b.limit)
  }

  /** The customer's schema accepts no more than the admin's. */
  lemma FilterWithinAdmin(b: FilterBody)
    requires FilterAccepted(b)
    ensures AdminFilterAccepted(b)
  {
    assert b.(isActives := None) == b;
  }

  /** Where the list query's search and price conditions come from: a
      search condition only from a search text, which then comes first, and
      a price range only from both price bounds, carrying them. */
  lemma ConditionSources(f: Menu.AdminFilter)
    ensures var cs := Menu.FoodListQuery(f).conditions;
      && (forall c :: c in cs && c.NameOrDescriptionLike? ==> Menu.Truthy(f.search))
      && (Menu.Truthy(f.search) ==> cs != [] && cs[0].NameOrDescriptionLike?)
      && (forall c :: c in cs && c.PriceBetween? ==>
            f.fromPrice.Some? && f.toPrice.Some? && c == Menu.PriceBetween(f.fromPrice.value, f.toPrice.value))
  {
    var cs := Menu.FoodListQuery(f).conditions;
    var search := if Menu.Truthy(f.search) then [Menu.NameOrDescriptionLike(ContainsPattern(f.search.value))] else [];
    var ids := if f.categoriesIds.Some? then Menu.AsList(f.categoriesIds.value) else [];
    var categories := if |ids| > 0 then [Menu.CategoryIn(ids)] else [];
    var rating := Menu.RatingCondition(f.rating);
    var price := if f.fromPrice.Some? && f.toPrice.Some? then [Menu.PriceBetween(f.fromPrice.value, f.toPrice.value)] else [];
    var active := if f.isActives.Some? && Menu.FlagTruthy(f.isActives.value) then [Menu.ActiveIn(Menu.AsList(f.isActives.value))] else [];
    assert cs == search + categories + rating + price + active;
    forall c | c in cs
      ensures c.NameOrDescriptionLike? ==> Menu.Truthy(f.search)
      ensures c.PriceBetween? ==> c in price
    {
      assert c in search || c in categories || c in rating || c in price || c in active;
    }
  }

  /** An accepted filter gives a page starting at a row that is not
      negative, of at least one item (6 by default). */
  lemma AcceptedFoodPaging(b: FilterBody)
    requires AdminFilterAccepted(b)
    ensures var p := Menu.FoodListQuery(AdminFilterOf(b)).paging;
      && p.page >= 0 && p.limit >= 1 && p.offset >= 0
      && (b.page.None? ==> p.page == 0)
      && (b.limit.None? ==> p.limit == 6)
  {
    var p := Menu.FoodListQuery(AdminFilterOf(b)).paging;
    Menu.FoodListParameters(AdminFilterOf(b));
    assert 0 <= p.limit * p.page;
  }

  /** With an accepted filter, a search condition is added exactly when a
      search text is sent (the schema refuses an empty one), and a price
      range has bounds that are not negative. */
  lemma AcceptedFoodConditions(b: FilterBody)
    requires AdminFilterAccepted(b)
    ensures var cs := Menu.FoodListQuery(AdminFilterOf(b)).conditions;
      && (b.search.Some? <==> exists c :: c in cs && c.NameOrDescriptionLike?)
      && (forall c :: c in cs && c.PriceBetween? ==> c.fromPrice >= 0.0 && c.toPrice >= 0.0)
  {
    var cs := Menu.FoodListQuery(AdminFilterOf(b)).conditions;
    ConditionSources(AdminFilterOf(b));
    if b.search.Some? {
      assert cs[0] in cs;
    }
  }

  /** The text "false", which the admin schema accepts as the boolean false,
      is a non-empty string and so still adds an isActives condition; only
      a boolean false adds none. */
  lemma TextFalseStillFilters(b: FilterBody)
    requires AdminFilterAccepted(b) && b.isActives == Some(Menu.One(Menu.TextFlag("false")))
    ensures Menu.ActiveIn([Menu.TextFlag("false")]) in Menu.FoodListQuery(AdminFilterOf(b)).conditions
  {
    var f := AdminFilterOf(b);
    var q := Menu.FoodListQuery(f);
    assert q.conditions[|q.conditions| - 1] == Menu.ActiveIn([Menu.TextFlag("false")]);
  }

  /** A negative page, a limit of zero, a negative price or an empty
      search text is refused, and so is any isActives on the customer
      route. */
  lemma FilterRefusals(b: FilterBody)
    ensures b.page.Some? && b.page.value < 0 ==> !AdminFilterAccepted(b)
    ensures b.limit == Some(0) ==> !AdminFilterAccepted(b)
    ensures b.fromPrice.Some? && b.fromPrice.value < 0.0 ==> !AdminFilterAccepted(b)
    ensures b.search == Some("") ==> !AdminFilterAccepted(b)
    ensures b.isActives.Some? ==> !FilterAccepted(b)
  {
  }
}
