/**
 * The review box of a place page: the list loaded from `GET /api/reviews/:placeId`, the star
 * picker, submitting and deleting a review, and the stars each listed review shows.
 */
module ReviewSystem {
  import opened Wrappers
  import opened Text
  import opened Client
  import Lists
  import ReviewRoutes

  type Review = ReviewRoutes.Review

  const PickRating := "Please select a rating"
  const WriteReview := "Please write a review"
  const Submitted := "Review submitted"
  const SubmitFailed := "Failed to submit review"
  const Deleted := "Review deleted"
  const DeleteFailed := "Failed to delete review"

  /** A JSON body: an array, an object whose `reviews` is an array (or is not), or anything else. */
  datatype Body = ArrayBody(items: seq<Review>) | ObjectBody(reviews: Option<seq<Review>>) | OtherBody

  /** `Array.isArray(data.reviews) ? data.reviews : Array.isArray(data) ? data : []` */
  function Normalise(data: Body): (r: seq<Review>)
    ensures data.ObjectBody? && data.reviews.Some? ==> r == data.reviews.value
    ensures data.ArrayBody? ==> r == data.items
    ensures data.OtherBody? || data == ObjectBody(None) ==> r == []
  {
    match data
    case ObjectBody(Some(rs)) => rs
    case ArrayBody(items) => items
    case _ => []
  }

  /** The list the page shows after the load settles: a failed load shows none. */
  function Loaded(reply: Reply<Body>): (r: seq<Review>)
    ensures reply.Rejected? ==> r == []
    ensures reply.Resolved? ==> r == Normalise(reply.data)
  {
    if reply.Resolved? then Normalise(reply.data) else []
  }

  /**
   * The GET route's own answer, an array, is shown as it is: the box lists exactly the place's
   * reviews, newest first.
   */
  lemma LoadsRouteAnswer(s: ReviewRoutes.Store, placeId: string)
    ensures var shown := Loaded(Resolved(ArrayBody(ReviewRoutes.ListSpec(s, placeId))));
      && ReviewRoutes.NewestFirst(shown)
      && forall x :: x in shown <==> x in s.reviews && x.placeId == Some(placeId)
  {
  }

  /** Star `star` of the picker is drawn filled: `star <= (hover || rating)`. */
  predicate Filled(star: int, hover: int, rating: int) {
    star <= (if hover != 0 then hover else rating)
  }

  /** The filled stars of the picker are a prefix of the five: filling is monotone. */
  lemma FilledPrefix(star: int, lower: int, hover: int, rating: int)
    requires Filled(star, hover, rating) && lower <= star
    ensures Filled(lower, hover, rating)
  {
  }

  /**
   * A listed review's stars as written: `[...Array(rating)]` filled then `[...Array(5 - rating)]`
   * empty. `Array(n)` throws a `RangeError` for a negative length, and `5 - undefined` is `NaN`,
   * so only a rating from 0 to 5 renders; `None` is the thrown error.
   */
  function StarsAsWritten(rating: Option<int>): (r: Option<(nat, nat)>)
    ensures r.Some? <==> rating.Some? && 0 <= rating.value <= 5
    ensures r.Some? ==> r.value.0 == rating.value && r.value.1 == 5 - rating.value
  {
    if rating.Some? && 0 <= rating.value <= 5 then Some((rating.value, 5 - rating.value)) else None
  }

  /** The route stores a rating of 6 as sent, and the list then fails to render it. */
  lemma RatingSixBreaksList(s: ReviewRoutes.Store, now: int)
    ensures
      var stored := ReviewRoutes.CreateSpec(s, Some("p1"), Some(6), Some("Great stay"), now);
      var listed := ReviewRoutes.ListSpec(stored, "p1");
      exists i :: 0 <= i < |listed| && StarsAsWritten(listed[i].rating).None?
  {
    var stored := ReviewRoutes.CreateSpec(s, Some("p1"), Some(6), Some("Great stay"), now);
    var x := stored.reviews[|s.reviews|];
    assert x in stored.reviews;
    var listed := ReviewRoutes.ListSpec(stored, "p1");
    assert x in listed;
    var i :| 0 <= i < |listed| && listed[i] == x;
  }

  /** The stars the list should show: the rating clamped to 0..5 filled, the rest of five empty. */
  function StarCounts(rating: Option<int>): (r: (nat, nat))
    ensures r.0 + r.1 == 5
    ensures rating.Some? && 0 <= rating.value <= 5 ==> StarsAsWritten(rating) == Some(r)
    ensures rating.Some? && rating.value > 5 ==> r.0 == 5
    ensures rating.None? || rating.value < 0 ==> r.0 == 0
  {
    var filled := if rating.None? || rating.value < 0 then 0 else if rating.value > 5 then 5 else rating.value;
    (filled, 5 - filled)
  }

  /** The body of `POST /api/reviews`. */
  datatype Submission = Submission(placeId: string, text: string, rating: int)

  /** The review box of the place `placeId`. */
  class Box {
    const placeId: string
    var reviews: seq<Review>
    var text: string
    var rating: int
    var hover: int
    var notice: Option<Notice>

    /** The picker only ever holds a star number or 0. */
    ghost predicate Valid()
      reads this
    {
      0 <= rating <= 5 && 0 <= hover <= 5
    }

    constructor (placeId: string)
      ensures this.placeId == placeId && reviews == [] && text == "" && rating == 0 && hover == 0
      ensures notice == None && Valid()
    {
      this.placeId := placeId;
      reviews, text, rating, hover, notice := [], "", 0, 0, None;
    }

    /** The load on mount (and on a change of place) settles. */
    method OnLoad(reply: Reply<Body>)
      modifies this
      ensures reviews == Loaded(reply)
      ensures text == old(text) && rating == old(rating) && hover == old(hover) && notice == old(notice)
    {
      reviews := Loaded(reply);
    }

    /** Clicking star `star` of the five. */
    method ClickStar(star: int)
      requires Valid() && 1 <= star <= 5
      modifies this
      ensures rating == star && Valid()
      ensures reviews == old(reviews) && text == old(text) && hover == old(hover) && notice == old(notice)
    {
      rating := star;
    }

    /** Entering star `star` (1 to 5) or leaving it (0). */
    method SetHover(star: int)
      requires Valid() && 0 <= star <= 5
      modifies this
      ensures hover == star && Valid()
      ensures reviews == old(reviews) && text == old(text) && rating == old(rating) && notice == old(notice)
    {
      hover := star;
    }

    method SetText(value: string)
      modifies this
      ensures text == value
      ensures reviews == old(reviews) && rating == old(rating) && hover == old(hover) && notice == old(notice)
    {
      text := value;
    }

    /**
     * The checks of `submitReview`: no rating first, then blank text; a failure sends nothing.
     * A request that is sent comes with `seen`, the list the handler holds while it awaits.
     */
    method SubmitReview() returns (request: Option<Submission>, seen: seq<Review>)
      requires Valid()
      modifies this
      ensures rating == 0 ==> request.None? && notice == Some(Failure(PickRating))
      ensures rating != 0 && Trim(text) == "" ==> request.None? && notice == Some(Failure(WriteReview))
      ensures rating != 0 && Trim(text) != "" ==>
        request == Some(Submission(placeId, text, rating)) && notice == old(notice)
      ensures seen == reviews
      ensures request.Some? ==> 1 <= request.value.rating <= 5
      ensures reviews == old(reviews) && text == old(text) && rating == old(rating) && hover == old(hover)
    {
      seen := reviews;
      if rating == 0 {
        notice := Some(Failure(PickRating));
        return None, seen;
      }
      if Trim(text) == "" {
        notice := Some(Failure(WriteReview));
        return None, seen;
      }
      return Some(Submission(placeId, text, rating)), seen;
    }

    /**
     * The answer of the submission: the new review goes before `seen`, the list the handler
     * captured when it was sent (whatever the box shows by now), and the form is reset.
     */
    method OnSubmitReply(seen: seq<Review>, reply: Reply<Review>)
      requires Valid()
      modifies this
      ensures reply.Resolved? ==>
        reviews == [reply.data] + seen && text == "" && rating == 0 && notice == Some(Success(Submitted))
      ensures reply.Rejected? ==>
        reviews == old(reviews) && text == old(text) && rating == old(rating) && notice == Some(Failure(SubmitFailed))
      ensures hover == old(hover) && Valid()
    {
      match reply
      case Resolved(review) =>
        reviews := [review] + seen;
        text := "";
        rating := 0;
        notice := Some(Success(Submitted));
      case Rejected(_, _) =>
        notice := Some(Failure(SubmitFailed));
    }

    /**
     * `deleteReview`: a success drops the reviews with that id from `seen`, the list the handler
     * captured when it started (not the one the box shows when the answer arrives), keeping the
     * others in order. The caller passes as `seen` the `reviews` shown when the button is clicked.
     */
    method DeleteReview(id: ReviewRoutes.Id, seen: seq<Review>, reply: Reply<bool>)
      modifies this
      ensures reply.Resolved? ==>
        reviews == Lists.RemoveKey(seen, ReviewRoutes.ReviewId, id) && notice == Some(Success(Deleted))
      ensures reply.Rejected? ==> reviews == old(reviews) && notice == Some(Failure(DeleteFailed))
      ensures text == old(text) && rating == old(rating) && hover == old(hover)
    {
      if reply.Resolved? {
        reviews := Lists.RemoveKey(seen, ReviewRoutes.ReviewId, id);
        notice := Some(Success(Deleted));
      } else {
        notice := Some(Failure(DeleteFailed));
      }
    }
  }

  /** What this page submits is stored with a rating from 1 to 5, which renders as written. */
  lemma SubmittedReviewRenders(s: ReviewRoutes.Store, sub: Submission, now: int)
    requires 1 <= sub.rating <= 5
    ensures
      var stored := ReviewRoutes.CreateSpec(s, Some(sub.placeId), Some(sub.rating), Some(sub.text), now);
      StarsAsWritten(stored.reviews[|s.reviews|].rating) == Some(StarCounts(Some(sub.rating)))
  {
  }
}
