/** Reviews of menu items (services/rating.service.ts): posting a rating,
    the rating summary of an item, and the filtered, sorted, paged review
    list. */
module Ratings {
  import opened Wrappers
  import opened Schema
  import opened Rows
  import opened Tables
  import Menu = Food
  import Orders
  import Payments

  datatype RatingRequest = RatingRequest(
    orderItemId: Id, rating: int, content: string, images: seq<string>, menuItemId: Id)

  // --------------------------------------------------------------- create

  /** The option names recorded with a rating: those of the rated order
      line, in table order; none when the line does not exist. */
  function RatedOptionNames(items: seq<OrderItem>, options: seq<OrderItemOption>, orderItemId: Id): (r: seq<string>)
    ensures OrderItemWithId(items, orderItemId).None? ==> r == []
    ensures OrderItemWithId(items, orderItemId).Some? ==>
      var opts := OptionsOfItem(options, OrderItemWithId(items, orderItemId).value.id);
      |r| == |opts| && forall i :: 0 <= i < |r| ==> r[i] == opts[i].optionItemName
  {
    var item := OrderItemWithId(items, orderItemId);
    if item.None? then [] else Payments.OptionNames(OptionsOfItem(options, item.value.id))
  }

  /** The ratings row of a request: the author, the menu item's id and the
      option names; the order line's and the menu item's ids of the request
      are not columns of the table. */
  function NewRating(id: Id, userId: Id, req: RatingRequest, foodId: Id, names: seq<string>, now: int): (r: Rating)
    ensures r.userId == userId && r.foodId == foodId && r.rating == req.rating as real
    ensures r.content == req.content && r.images == req.images && r.optionItemNames == names
  {
    Rating(id, userId, req.content, req.rating as real, now, foodId, req.images, names)
  }

  /** The order lines with id `orderItemId` marked as rated; nothing else
      changes. */
  function MarkRated(items: seq<OrderItem>, orderItemId: Id): (r: seq<OrderItem>)
    ensures |r| == |items|
    ensures forall i :: 0 <= i < |items| ==>
      r[i] == if items[i].id == orderItemId then items[i].(isRated := true) else items[i]
  {
    Update(items, (x: OrderItem) => x.id == orderItemId, (x: OrderItem) => x.(isRated := true))
  }

  /** Whether the item's new average fits its integer column, so that
      calculateRating's update goes through. */
  predicate AverageStored(foods: seq<Food>, foodId: Id, rating: real)
    requires FoodWithId(foods, foodId).Some? && FoodWithId(foods, foodId).value.totalRating >= 0.0
  {
    var f := FoodWithId(foods, foodId).value;
    Menu.IsWhole(Menu.NextAverage(f.averageRating, f.totalRating, rating))
  }

  /** The menu items after one more rating of `foodId`, as calculateRating
      leaves them: updated when the new average is whole, as they were
      when the update is refused. */
  function RatedFoods(foods: seq<Food>, foodId: Id, rating: real): (r: seq<Food>)
    requires FoodWithId(foods, foodId).Some? && FoodWithId(foods, foodId).value.totalRating >= 0.0
    ensures |r| == |foods|
    ensures !AverageStored(foods, foodId, rating) ==> r == foods
  {
    var f := FoodWithId(foods, foodId).value;
    var total := f.totalRating + 1.0;
    var average := Menu.NextAverage(f.averageRating, f.totalRating, rating);
    if !Menu.IsWhole(average) then foods else WithCounters(foods, foodId, total, average)
  }

  /** The integer column keeps whole averages: a rating either writes a
      whole average or writes nothing. */
  lemma RatedFoodsKeepsWhole(foods: seq<Food>, foodId: Id, rating: real)
    requires FoodWithId(foods, foodId).Some? && FoodWithId(foods, foodId).value.totalRating >= 0.0
    requires Menu.AveragesWhole(foods)
    ensures Menu.AveragesWhole(RatedFoods(foods, foodId, rating))
  {
    if AverageStored(foods, foodId, rating) {
      var f := FoodWithId(foods, foodId).value;
      var average := Menu.NextAverage(f.averageRating, f.totalRating, rating);
      RatedFoodsStored(foods, foodId, rating);
      var r := WithCounters(foods, foodId, f.totalRating + 1.0, average);
      forall i | 0 <= i < |r| ensures Menu.IsWhole(r[i].averageRating) {
        if foods[i].id == foodId {
          assert r[i].averageRating == average;
        } else {
          assert r[i] == foods[i];
        }
      }
    }
  }

  /** The item's rows with the given rating count and average. */
  function WithCounters(foods: seq<Food>, foodId: Id, total: real, average: real): (r: seq<Food>)
    ensures |r| == |foods|
    ensures forall i :: 0 <= i < |foods| ==>
      r[i] == if foods[i].id == foodId then foods[i].(totalRating := total, averageRating := average) else foods[i]
  {
    Update(foods, (x: Food) => x.id == foodId, (x: Food) => x.(totalRating := total, averageRating := average))
  }

  /** createRating. `id` is the id the database generates and `now` the
      insertion time. An unknown author fails first, then an unknown menu
      item, and neither writes anything; otherwise the rating is inserted,
      the rated order line is marked, and the menu item's count and average
      take the rating in when the new average fits its integer column.
      calculateRating is not awaited, so its refusal does not reach the
      answer. */
  method CreateRating(db: Database, cache: Redis, id: Id, userId: Id, req: RatingRequest, now: int)
    returns (r: Result<Rating>)
    requires Menu.RatingCountsValid(db.foods)
    modifies db`ratings, db`orderItems, db`foods, cache`entries
    ensures Menu.RatingCountsValid(db.foods)
    ensures UserWithId(db.users, userId).None? ==>
      && r == Err("User not found")
      && db.ratings == old(db.ratings) && db.orderItems == old(db.orderItems) && db.foods == old(db.foods)
      && cache.entries == old(cache.entries)
    ensures UserWithId(db.users, userId).Some? && FoodWithId(old(db.foods), req.menuItemId).None? ==>
      && r == Err("Menu item not found")
      && db.ratings == old(db.ratings) && db.orderItems == old(db.orderItems) && db.foods == old(db.foods)
      && cache.entries == old(cache.entries)
    ensures UserWithId(db.users, userId).Some? && FoodWithId(old(db.foods), req.menuItemId).Some? ==>
      var row := NewRating(id, userId, req, req.menuItemId,
                           RatedOptionNames(old(db.orderItems), db.orderItemOptions, req.orderItemId), now);
      && r == Ok(row)
      && db.ratings == old(db.ratings) + [row]
      && db.orderItems == MarkRated(old(db.orderItems), req.orderItemId)
      && db.foods == RatedFoods(old(db.foods), req.menuItemId, req.rating as real)
      && cache.entries == if AverageStored(old(db.foods), req.menuItemId, req.rating as real)
                          then old(cache.entries) - {Menu.FoodKey(req.menuItemId)}
                          else old(cache.entries)
  {
    var user := UserWithId(db.users, userId);
    if user.None? {
      return Err("User not found");
    }
    var menuItem := FoodWithId(db.foods, req.menuItemId);
    if menuItem.None? {
      return Err("Menu item not found");
    }
    var names := RatedOptionNames(db.orderItems, db.orderItemOptions, req.orderItemId);
    var row := NewRating(id, user.value.id, req, menuItem.value.id, names, now);
    RecordRating(db, cache, row, req.orderItemId, req.menuItemId, req.rating as real);
    return Ok(row);
  }

  /** The writes of an accepted rating: the row, the order line's flag and,
      when the new average is whole, the menu item's counters. */
  method RecordRating(db: Database, cache: Redis, row: Rating, orderItemId: Id, foodId: Id, rating: real)
    requires Menu.RatingCountsValid(db.foods) && FoodWithId(db.foods, foodId).Some?
    modifies db`ratings, db`orderItems, db`foods, cache`entries
    ensures Menu.RatingCountsValid(db.foods)
    ensures db.ratings == old(db.ratings) + [row]
    ensures db.orderItems == MarkRated(old(db.orderItems), orderItemId)
    ensures db.foods == RatedFoods(old(db.foods), foodId, rating)
    ensures cache.entries == if AverageStored(old(db.foods), foodId, rating)
                             then old(cache.entries) - {Menu.FoodKey(foodId)}
                             else old(cache.entries)
  {
    db.ratings := db.ratings + [row];
    db.orderItems := MarkRated(db.orderItems, orderItemId);
    ghost var before := db.foods;
    var _ := Menu.CalculateRating(db, cache, foodId, rating);
    if AverageStored(before, foodId, rating) {
      RatedFoodsIs(before, db.foods, foodId, rating);
    }
  }

  /** What calculateRating promises of the table, when its update goes
      through, is RatedFoods. */
  lemma RatedFoodsIs(before: seq<Food>, after: seq<Food>, foodId: Id, rating: real)
    requires FoodWithId(before, foodId).Some? && FoodWithId(before, foodId).value.totalRating >= 0.0
    requires AverageStored(before, foodId, rating)
    requires var f := FoodWithId(before, foodId).value;
      && |after| == |before|
      && forall i :: 0 <= i < |after| ==>
           after[i] == if before[i].id == foodId then
             before[i].(totalRating := f.totalRating + 1.0,
                        averageRating := Menu.NextAverage(f.averageRating, f.totalRating, rating))
           else before[i]
    ensures after == RatedFoods(before, foodId, rating)
  {
  }

  // -------------------------------------------------------------- summary

  datatype RatingStatis = RatingStatis(totalRating: real, averageRating: real)

  /** getStatis: the item's rating count and average, or "Food not found". */
  function Statis(foods: seq<Food>, foodId: Id): (r: Result<RatingStatis>)
    ensures r.Err? <==> FoodWithId(foods, foodId).None?
    ensures r.Err? ==> r.msg == "Food not found"
  {
    var food := FoodWithId(foods, foodId);
    if food.None? then Err("Food not found")
    else Ok(RatingStatis(food.value.totalRating, food.value.averageRating))
  }

  /** After a rating of an item whose new average is whole, its summary
      counts one more rating and its average is the running average with
      the new rating; otherwise the summary is as it was. */
  lemma StatisAfterRating(foods: seq<Food>, foodId: Id, rating: real)
    requires FoodWithId(foods, foodId).Some? && FoodWithId(foods, foodId).value.totalRating >= 0.0
    ensures var f := FoodWithId(foods, foodId).value;
            AverageStored(foods, foodId, rating) ==>
            Statis(RatedFoods(foods, foodId, rating), foodId) ==
              Ok(RatingStatis(f.totalRating + 1.0, Menu.NextAverage(f.averageRating, f.totalRating, rating)))
    ensures !AverageStored(foods, foodId, rating) ==> Statis(RatedFoods(foods, foodId, rating), foodId) == Statis(foods, foodId)
  {
    if AverageStored(foods, foodId, rating) {
      var f := FoodWithId(foods, foodId).value;
      var total := f.totalRating + 1.0;
      var average := Menu.NextAverage(f.averageRating, f.totalRating, rating);
      var r := RatedFoods(foods, foodId, rating);
      RatedFoodsStored(foods, foodId, rating);
      assert r == WithCounters(foods, foodId, total, average);
      StatisWithCounters(foods, foodId, total, average);
      assert Statis(r, foodId) == Ok(RatingStatis(total, average));
    }
  }

  lemma RatedFoodsStored(foods: seq<Food>, foodId: Id, rating: real)
    requires FoodWithId(foods, foodId).Some? && FoodWithId(foods, foodId).value.totalRating >= 0.0
    requires AverageStored(foods, foodId, rating)
    ensures var f := FoodWithId(foods, foodId).value;
      RatedFoods(foods, foodId, rating) ==
        WithCounters(foods, foodId, f.totalRating + 1.0, Menu.NextAverage(f.averageRating, f.totalRating, rating))
  {
  }

  /** The summary of an item whose counters were just written is those
      counters. */
  lemma StatisWithCounters(foods: seq<Food>, foodId: Id, total: real, average: real)
    requires FoodWithId(foods, foodId).Some?
    ensures Statis(WithCounters(foods, foodId, total, average), foodId) == Ok(RatingStatis(total, average))
  {
    var f := FoodWithId(foods, foodId).value;
    var r := WithCounters(foods, foodId, total, average);
    var i :| 0 <= i < |foods| && foods[i] == f && forall j :: 0 <= j < i ==> foods[j].id != foodId;
    assert r[i] == f.(totalRating := total, averageRating := average);
    forall j | 0 <= j < i ensures r[j].id != foodId {
      assert r[j] == foods[j];
    }
    Menu.FoodAtFirstMatch(r, foodId, i);
  }

  /** As written, the stored average stops following the ratings once a
      fractional average is due: an item rated 4 and then 5 keeps one
      rating averaging 4, where the running average of the two is 4.5. */
  lemma SecondRatingLost(foods: seq<Food>, foodId: Id)
    requires FoodWithId(foods, foodId).Some?
    requires FoodWithId(foods, foodId).value.totalRating == 0.0
    requires FoodWithId(foods, foodId).value.averageRating == 0.0
    ensures var once := RatedFoods(foods, foodId, 4.0);
      && Statis(once, foodId) == Ok(RatingStatis(1.0, 4.0))
      && FoodWithId(once, foodId).Some? && FoodWithId(once, foodId).value.totalRating == 1.0
      && !AverageStored(once, foodId, 5.0)
      && Statis(RatedFoods(once, foodId, 5.0), foodId) == Ok(RatingStatis(1.0, 4.0))
      && Menu.RatingState([4.0, 5.0]).0 == 4.5
  {
    var once := RatedFoods(foods, foodId, 4.0);
    assert Menu.NextAverage(0.0, 0.0, 4.0) == 4.0;
    assert AverageStored(foods, foodId, 4.0);
    StatisAfterRating(foods, foodId, 4.0);
    var g := FoodWithId(once, foodId).value;
    assert g.totalRating == 1.0 && g.averageRating == 4.0;
    assert Menu.NextAverage(4.0, 1.0, 5.0) == 4.5;
    assert (4.5).Floor == 4;
    StatisAfterRating(once, foodId, 5.0);
    assert [4.0, 5.0][..1] == [4.0];
  }

  // ---------------------------------------------------------- review list

  datatype ReviewFilter = ReviewFilter(
    page: Option<int>, limit: Option<int>, filterBy: Option<string>, sortBy: Option<string>)

  datatype ReviewCondition = FoodIs(foodId: Id) | StarsAre(stars: int) | HasImages

  datatype ReviewQuery = ReviewQuery(
    conditions: seq<ReviewCondition>, direction: Orders.Direction, paging: Orders.Paging)

  /** The condition a filter adds: "1_STAR" to "5_STAR" select that many
      stars, "HAS_IMAGES" the reviews with images; "all" and anything else
      add none. */
  function FilterCondition(filterBy: Option<string>): seq<ReviewCondition> {
    if filterBy.None? || filterBy.value == "all" then []
    else if filterBy.value == "1_STAR" then [StarsAre(1)]
    else if filterBy.value == "2_STAR" then [StarsAre(2)]
    else if filterBy.value == "3_STAR" then [StarsAre(3)]
    else if filterBy.value == "4_STAR" then [StarsAre(4)]
    else if filterBy.value == "5_STAR" then [StarsAre(5)]
    else if filterBy.value == "HAS_IMAGES" then [HasImages]
    else []
  }

  /** Only CREATE_AT_ASC lists the oldest first. */
  function ReviewDirection(sortBy: Option<string>): Orders.Direction {
    if sortBy == Some("CREATE_AT_ASC") then Orders.Asc else Orders.Desc
  }

  /** getReviewForFood's query: the item's reviews, the filter's condition,
      newest first unless asked otherwise, page 0 of 10 by default. */
  function ReviewQueryOf(foodId: Id, f: ReviewFilter): ReviewQuery {
    ReviewQuery([FoodIs(foodId)] + FilterCondition(f.filterBy), ReviewDirection(f.sortBy),
                Orders.PagingOf(f.page, f.limit, 10))
  }

  predicate Holds(c: ReviewCondition, r: Rating) {
    match c
    case FoodIs(id) => r.foodId == id
    case StarsAre(n) => r.rating == n as real
    case HasImages => |r.images| > 0
  }

  predicate Matches(q: ReviewQuery, r: Rating) {
    forall c :: c in q.conditions ==> Holds(c, r)
  }

  /** What a filter value asks for, read from its text: a digit from 1 to 5
      followed by "_STAR" asks for that many stars, "HAS_IMAGES" for at
      least one image, anything else for nothing. */
  predicate Wanted(filterBy: Option<string>, r: Rating) {
    if filterBy.Some? && |filterBy.value| == 6 && filterBy.value[1..] == "_STAR"
       && '1' <= filterBy.value[0] <= '5' then
      r.rating == (filterBy.value[0] as int - '0' as int) as real
    else if filterBy == Some("HAS_IMAGES") then |r.images| > 0
    else true
  }

  /** A review is listed for item `foodId` exactly when it belongs to the
      item and has what the filter asks for. */
  lemma ReviewFilterMeaning(foodId: Id, f: ReviewFilter, r: Rating)
    ensures Matches(ReviewQueryOf(foodId, f), r) <==> r.foodId == foodId && Wanted(f.filterBy, r)
  {
    var q := ReviewQueryOf(foodId, f);
    var fc := FilterCondition(f.filterBy);
    assert q.conditions == [FoodIs(foodId)] + fc;
    FilterWanted(f.filterBy, r);
    if Matches(q, r) {
      assert FoodIs(foodId) in q.conditions;
      forall c | c in fc ensures Holds(c, r) {
        assert c in q.conditions;
      }
    }
  }

  lemma FilterWanted(filterBy: Option<string>, r: Rating)
    ensures (forall c :: c in FilterCondition(filterBy) ==> Holds(c, r)) <==> Wanted(filterBy, r)
  {
    if filterBy.Some? {
      var s := filterBy.value;
      if |s| == 6 && s[1..] == "_STAR" && '1' <= s[0] <= '5' {
        StarFilter(s, r);
        assert StarsAre(s[0] as int - '0' as int) in FilterCondition(filterBy);
      } else {
        assert s != "1_STAR" && s != "2_STAR" && s != "3_STAR" && s != "4_STAR" && s != "5_STAR" by {
          if |s| == 6 && s[1..] == "_STAR" {
            assert !('1' <= s[0] <= '5');
          }
        }
        if s == "HAS_IMAGES" {
          assert HasImages in FilterCondition(filterBy);
        } else {
          assert FilterCondition(filterBy) == [];
        }
      }
    }
  }

  lemma StarFilter(s: string, r: Rating)
    requires |s| == 6 && s[1..] == "_STAR" && '1' <= s[0] <= '5'
    ensures FilterCondition(Some(s)) == [StarsAre(s[0] as int - '0' as int)]
  {
    assert s == [s[0]] + "_STAR";
  }

  /** The default order lists the newest first; CREATE_AT_ASC the oldest. */
  function CreatedOrder(d: Orders.Direction): (Rating, Rating) -> bool {
    if d == Orders.Asc then (a: Rating, b: Rating) => a.createdAt <= b.createdAt
    else (a: Rating, b: Rating) => a.createdAt >= b.createdAt
  }

  datatype ReviewPage = ReviewPage(reviews: seq<Rating>, totalCount: nat, page: int, limit: int)

  /** The review list: the requested window of the matching reviews in the
      requested order, and the number of all matching reviews. */
  function Reviews(ratings: seq<Rating>, q: ReviewQuery): ReviewPage
    requires q.paging.offset >= 0 && q.paging.limit >= 0
  {
    var matching := Keep(ratings, (r: Rating) => Matches(q, r));
    ReviewPage(Window(SortBy(matching, CreatedOrder(q.direction)), q.paging.offset, q.paging.limit),
               CountWhere(ratings, (r: Rating) => Matches(q, r)), q.paging.page, q.paging.limit)
  }

  /** A page of reviews holds at most `limit` reviews, each of them matching,
      in creation order as requested, and the count is that of all matching
      reviews. */
  lemma ReviewsShape(ratings: seq<Rating>, q: ReviewQuery)
    requires q.paging.offset >= 0 && q.paging.limit >= 0
    ensures var p := Reviews(ratings, q);
      && |p.reviews| <= q.paging.limit
      && (forall r :: r in p.reviews ==> r in ratings && Matches(q, r))
      && SortedBy(p.reviews, CreatedOrder(q.direction))
      && p.totalCount == |Keep(ratings, (r: Rating) => Matches(q, r))|
  {
    var m := (r: Rating) => Matches(q, r);
    var le := CreatedOrder(q.direction);
    var matching := Keep(ratings, m);
    var sorted := SortBy(matching, le);
    SortBySorted(matching, le);
    var p := Reviews(ratings, q);
    forall r | r in p.reviews ensures r in ratings && Matches(q, r) {
      assert r in sorted;
      assert r in multiset(sorted);
    }
    KeepCount(ratings, m);
    WindowSorted(sorted, le, q.paging.offset, q.paging.limit);
  }
}
