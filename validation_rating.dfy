/** The review schemas (validation/rating.ts): posting a rating of an
    ordered menu item, and the filter of an item's review list. */
module RatingRules {
  import opened Wrappers
  import opened Text
  import opened Schema
  import opened Joi
  import Menu = Food
  import Ratings

  datatype RatingBody = RatingBody(
    orderItemId: Option<string>, rating: Option<int>, content: Option<string>,
    images: Option<seq<string>>, menuItemId: Option<string>)

  /** One image: a URI of at most 500 characters. */
  predicate ImageOk(s: string, f: Formats) {
    StringOk(s, false, false, 0, Some(500)) && f.uri(s)
  }

  /** ratingRequestSchema: from one to five stars, a text of 10 to 500
      characters once trimmed, and any number of images. */
  predicate RatingAccepted(b: RatingBody, f: Formats) {
    && FormatKey(b.orderItemId, true, f.uuid)
    && IntKey(b.rating, true, 1, Some(5))
    && b.content.Some? && StringOk(b.content.value, true, false, 10, Some(500))
    && (b.images.None? || forall i :: 0 <= i < |b.images.value| ==> ImageOk(b.images.value[i], f))
    && FormatKey(b.menuItemId, true, f.uuid)
  }

  /** The request the rating service receives once the body passes: the
      text as sent, untrimmed; a missing image list is stored as the
      column's default, the empty list. */
  function RatingRequestOf(b: RatingBody, f: Formats): Ratings.RatingRequest
    requires RatingAccepted(b, f)
  {
    Ratings.RatingRequest(b.orderItemId.value, b.rating.value, b.content.value,
                          b.images.GetOr([]), b.menuItemId.value)
  }

  /** The row stored for an accepted rating has from one to five stars, a
      text whose trimmed form has 10 to 500 characters, and images that are
      URIs of at most 500 characters each. */
  lemma AcceptedRatingRow(b: RatingBody, f: Formats, id: Id, userId: Id, foodId: Id,
                          names: seq<string>, now: int)
    requires RatingAccepted(b, f)
    ensures var r := Ratings.NewRating(id, userId, RatingRequestOf(b, f), foodId, names, now);
      && 1.0 <= r.rating <= 5.0
      && 10 <= |Trim(r.content)| <= 500
      && forall i :: 0 <= i < |r.images| ==> 0 < |r.images[i]| <= 500 && f.uri(r.images[i])
  {
    var r := Ratings.NewRating(id, userId, RatingRequestOf(b, f), foodId, names, now);
    forall i | 0 <= i < |r.images| ensures 0 < |r.images[i]| <= 500 && f.uri(r.images[i]) {
      assert ImageOk(b.images.value[i], f);
    }
  }

  /** The bound is on the trimmed text, so the stored text may be longer
      than 500 characters: 500 letters with a space on each side pass. */
  lemma StoredContentMayExceedBound(b: RatingBody, f: Formats, letters: string)
    requires |letters| == 500 && forall i :: 0 <= i < |letters| ==> letters[i] == 'a'
    requires b.content == Some(" " + letters + " ")
    ensures StringOk(b.content.value, true, false, 10, Some(500))
    ensures |b.content.value| == 502
  {
    var s := b.content.value;
    assert s[1..] == letters + " ";
    assert TrimStart(s) == letters + " " by {
      assert !IsSpace(s[1..][0]);
    }
    assert (letters + " ")[..|letters|] == letters;
    assert TrimEnd(letters + " ") == letters by {
      assert !IsSpace(letters[|letters| - 1]);
    }
  }

  /** A sum of values that each lie between `lo` and `hi`. */
  lemma {:induction false} SumWithin(xs: seq<real>, lo: real, hi: real)
    requires forall i :: 0 <= i < |xs| ==> lo <= xs[i] <= hi
    ensures lo * |xs| as real <= Menu.SumReal(xs) <= hi * |xs| as real
  {
    if xs != [] {
      var init := xs[..|xs| - 1];
      SumWithin(init, lo, hi);
      assert lo <= xs[|xs| - 1] <= hi;
      assert Menu.SumReal(xs) == Menu.SumReal(init) + xs[|xs| - 1];
      assert |xs| as real == |init| as real + 1.0;
    }
  }

  /** The stars of a run of ratings, in the order they were posted. */
  function Stars(bs: seq<RatingBody>): (r: seq<real>)
    ensures |r| == |bs|
  {
    seq(|bs|, i requires 0 <= i < |bs| => bs[i].rating.GetOr(0) as real)
  }

  /** However many accepted ratings an item receives, the running average
      kept for it stays between one and five stars. */
  lemma {:induction false} AverageWithinStars(bs: seq<RatingBody>, f: Formats)
    requires bs != []
    requires forall i :: 0 <= i < |bs| ==> RatingAccepted(bs[i], f)
    ensures 1.0 <= Menu.RatingState(Stars(bs)).0 <= 5.0
  {
    var xs := Stars(bs);
    forall i | 0 <= i < |xs| ensures 1.0 <= xs[i] <= 5.0 {
      assert IntKey(bs[i].rating, true, 1, Some(5));
    }
    AverageWithin(xs, 1.0, 5.0);
  }

  /** The running average of values between `lo` and `hi` lies between
      them too. */
  lemma {:induction false} AverageWithin(xs: seq<real>, lo: real, hi: real)
    requires xs != []
    requires forall i :: 0 <= i < |xs| ==> lo <= xs[i] <= hi
    ensures lo <= Menu.RatingState(xs).0 <= hi
  {
    var total := Menu.SumReal(xs);
    var n := |xs| as real;
    SumWithin(xs, lo, hi);
    QuotientWithin(total, n, lo, hi);
    Menu.RunningAverageIsMean(xs);
  }

  /** A total between `lo` and `hi` times a positive count gives a mean
      between `lo` and `hi`. */
  lemma QuotientWithin(s: real, n: real, lo: real, hi: real)
    requires n > 0.0 && lo * n <= s <= hi * n
    ensures lo <= s / n <= hi
  {
    var m := s / n;
    assert m * n == s;
  }

  /** Zero stars, six stars or a nine-character text are refused. */
  lemma RatingRefusals(b: RatingBody, f: Formats)
    ensures b.rating == Some(0) || b.rating == Some(6) ==> !RatingAccepted(b, f)
    ensures b.content == Some("too short") ==> !RatingAccepted(b, f)
  {
    if b.content == Some("too short") {
      assert Trimmed("too short") by {
        assert !IsSpace("too short"[0]) && !IsSpace("too short"[8]);
      }
      TrimFixed("too short");
    }
  }

  // ----------------------------------------------------------- review list

  datatype ReviewFilterBody = ReviewFilterBody(
    menuItemId: Option<string>, page: Option<int>, limit: Option<int>,
    filterBy: Option<string>, sortBy: Option<string>)

  /** filterRatingRequestSchema: page at least 0, limit from 1 to 100. */
  predicate ReviewFilterAccepted(b: ReviewFilterBody, f: Formats) {
    && FormatKey(b.menuItemId, false, f.uuid)
    && IntKey(b.page, false, 0, None)
    && IntKey(b.limit, false, 1, Some(100))
    && (b.filterBy.None? || StringOk(b.filterBy.value, false, false, 0, None))
    && (b.sortBy.None? || StringOk(b.sortBy.value, false, false, 0, None))
  }

  /** The service receives the query as sent; its defaults (page 0, limit
      10) are the schema's. */
  function ReviewFilterOf(b: ReviewFilterBody): Ratings.ReviewFilter {
    Ratings.ReviewFilter(b.page, b.limit, b.filterBy, b.sortBy)
  }

  /** An accepted filter gives a page of 1 to 100 reviews, 10 by default,
      starting at a row that is not negative. */
  lemma AcceptedReviewPaging(foodId: Id, b: ReviewFilterBody, f: Formats)
    requires ReviewFilterAccepted(b, f)
    ensures var p := Ratings.ReviewQueryOf(foodId, ReviewFilterOf(b)).paging;
      && p.page >= 0 && 1 <= p.limit <= 100
      && p.offset == p.page * p.limit >= 0
      && (b.page.None? ==> p.page == 0)
      && (b.limit.None? ==> p.limit == 10)
  {
  }
}
