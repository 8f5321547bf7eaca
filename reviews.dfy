/**
 * The review routes mounted at `/api/reviews`: list the reviews of a place newest first,
 * create a review, delete a review by id. Nothing is validated and nothing is authenticated;
 * the only default is the date, taken from the clock at creation (passed in as `now`).
 *
 * As on the main server, each route is first a function over a snapshot `Store`, and the
 * class `Reviews` at the end holds the collection as a field with one method per route.
 */
module ReviewRoutes {
  import opened Wrappers
  import Lists

  type Id = nat

  /** A stored review: the body fields as sent (absent ones stay absent) and a time stamp. */
  datatype Review = Review(id: Id, placeId: Option<string>, rating: Option<int>, text: Option<string>, date: int)

  /** The review collection and the id counter. */
  datatype Store = Store(reviews: seq<Review>, nextId: Id)

  function ReviewId(r: Review): Id { r.id }

  /** Ids are below the counter and increase in creation order, so no two reviews share one. */
  ghost predicate ValidStore(s: Store) {
    && (forall i :: 0 <= i < |s.reviews| ==> s.reviews[i].id < s.nextId)
    && (forall i, j :: 0 <= i < j < |s.reviews| ==> s.reviews[i].id < s.reviews[j].id)
  }

  // ── GET /:placeId ────────────────────────────────────────────────────

  /** The query `{ placeId }`: a review without a place id matches no parameter. */
  function OfPlace(placeId: string): Review -> bool {
    (r: Review) => r.placeId == Some(placeId)
  }

  /** The order `sort({ date: -1 })` promises; reviews with equal dates may come either way. */
  predicate NewestFirst(rs: seq<Review>) {
    forall i, j :: 0 <= i < j < |rs| ==> rs[i].date >= rs[j].date
  }

  /** Every review of `rs` is at most as new as `d`. */
  predicate NotNewerThan(rs: seq<Review>, d: int) {
    forall i :: 0 <= i < |rs| ==> rs[i].date <= d
  }

  lemma NotNewerThanPermutation(rs: seq<Review>, ts: seq<Review>, d: int)
    requires NotNewerThan(rs, d) && multiset(ts) == multiset(rs)
    ensures NotNewerThan(ts, d)
  {
    forall k | 0 <= k < |ts| ensures ts[k].date <= d {
      assert ts[k] in multiset(rs);
      var i :| 0 <= i < |rs| && rs[i] == ts[k];
    }
  }

  /** A review at least as new as every review of a list sorted newest first can go in front. */
  lemma ConsNewestFirst(h: Review, rs: seq<Review>)
    requires NotNewerThan(rs, h.date) && NewestFirst(rs)
    ensures NewestFirst([h] + rs)
  {
    var r := [h] + rs;
    forall i, j | 0 <= i < j < |r| ensures r[i].date >= r[j].date {
      assert r[j] == rs[j - 1];
      if i > 0 { assert r[i] == rs[i - 1]; }
    }
  }

  /** `x` placed before the first review of `rs` that is not newer than it. */
  function Insert(x: Review, rs: seq<Review>): (r: seq<Review>)
    requires NewestFirst(rs)
    ensures NewestFirst(r)
    ensures multiset(r) == multiset(rs) + multiset{x}
  {
    if rs == [] || rs[0].date <= x.date then
      assert NotNewerThan(rs, x.date) by {
        forall j | 0 <= j < |rs| ensures rs[j].date <= x.date {
          if j > 0 { assert rs[0].date >= rs[j].date; }
        }
      }
      ConsNewestFirst(x, rs);
      [x] + rs
    else
      var tail := rs[1..];
      var rest := Insert(x, tail);
      assert rs == [rs[0]] + tail;
      assert NotNewerThan(tail + [x], rs[0].date) by {
        forall j | 0 <= j < |tail + [x]| ensures (tail + [x])[j].date <= rs[0].date {
          if j < |tail| { assert (tail + [x])[j] == rs[j + 1]; }
        }
      }
      assert multiset(rest) == multiset(tail + [x]);
      NotNewerThanPermutation(tail + [x], rest, rs[0].date);
      ConsNewestFirst(rs[0], rest);
      [rs[0]] + rest
  }

  /** The reviews of `rs`, newest first. */
  function SortNewestFirst(rs: seq<Review>): (r: seq<Review>)
    ensures NewestFirst(r)
    ensures multiset(r) == multiset(rs)
  {
    if rs == [] then []
    else
      assert rs == [rs[0]] + rs[1..];
      Insert(rs[0], SortNewestFirst(rs[1..]))
  }

  /**
   * `GET /:placeId`: exactly the reviews whose place id is the parameter, each as often as it is
   * stored, newest first.
   */
  function ListSpec(s: Store, placeId: string): (r: seq<Review>)
    ensures NewestFirst(r)
    ensures multiset(r) == multiset(Lists.Filter(s.reviews, OfPlace(placeId)))
    ensures forall x :: x in r <==> x in s.reviews && x.placeId == Some(placeId)
  {
    var matching := Lists.Filter(s.reviews, OfPlace(placeId));
    var r := SortNewestFirst(matching);
    Lists.FilterMembers(s.reviews, OfPlace(placeId));
    assert forall x :: x in r <==> x in multiset(matching);
    r
  }

  // ── POST / ───────────────────────────────────────────────────────────

  /** `POST /`: the fields as sent, with no check on the rating, dated `now`, under a fresh id. */
  function CreateSpec(s: Store, placeId: Option<string>, rating: Option<int>, text: Option<string>, now: int): (o: Store)
    ensures |o.reviews| == |s.reviews| + 1 && o.reviews[..|s.reviews|] == s.reviews
    ensures o.reviews[|s.reviews|] == Review(s.nextId, placeId, rating, text, now)
    ensures o.nextId == s.nextId + 1
    ensures ValidStore(s) ==> ValidStore(o)
  {
    var r := Review(s.nextId, placeId, rating, text, now);
    assert (s.reviews + [r])[..|s.reviews|] == s.reviews;
    Store(s.reviews + [r], s.nextId + 1)
  }

  // ── DELETE /:id ──────────────────────────────────────────────────────

  /**
   * `DELETE /:id` (`findByIdAndDelete`): the review with that id, if any, is removed and the rest
   * keep their order; an unknown id changes nothing. The reply is success either way.
   */
  function DeleteSpec(s: Store, id: Id): (o: Store)
    ensures ValidStore(s) ==> o.reviews == Lists.RemoveKey(s.reviews, ReviewId, id)
    ensures (forall i :: 0 <= i < |s.reviews| ==> s.reviews[i].id != id) ==> o == s
    ensures o.nextId == s.nextId
    ensures ValidStore(s) ==> ValidStore(o)
  {
    match Lists.FirstIndex(s.reviews, ReviewId, id)
    case None =>
      Lists.RemoveAbsentKey(s.reviews, ReviewId, id);
      s
    case Some(i) =>
      var rest := s.reviews[..i] + s.reviews[i + 1..];
      assert ValidStore(s) ==> rest == Lists.RemoveKey(s.reviews, ReviewId, id) && ValidStore(s.(reviews := rest)) by {
        if ValidStore(s) { RemoveAtValid(s, id, i); }
      }
      s.(reviews := rest)
  }

  /** In a valid store removing the first review with an id removes every review with it. */
  lemma RemoveAtValid(s: Store, id: Id, i: nat)
    requires ValidStore(s) && Lists.FirstIndex(s.reviews, ReviewId, id) == Some(i)
    ensures s.reviews[..i] + s.reviews[i + 1..] == Lists.RemoveKey(s.reviews, ReviewId, id)
    ensures ValidStore(s.(reviews := s.reviews[..i] + s.reviews[i + 1..]))
  {
    OnlyOneWithId(s, i);
    Lists.RemoveUniqueKey(s.reviews, ReviewId, id, i);
    RemoveAtKeepsOrder(s, i);
  }

  lemma OnlyOneWithId(s: Store, i: nat)
    requires ValidStore(s) && i < |s.reviews|
    ensures forall j :: 0 <= j < |s.reviews| && j != i ==> ReviewId(s.reviews[j]) != s.reviews[i].id
  {
    forall j | 0 <= j < |s.reviews| && j != i ensures s.reviews[j].id != s.reviews[i].id {
      if j < i { assert s.reviews[j].id < s.reviews[i].id; } else { assert s.reviews[i].id < s.reviews[j].id; }
    }
  }

  lemma RemoveAtKeepsOrder(s: Store, i: nat)
    requires ValidStore(s) && i < |s.reviews|
    ensures ValidStore(s.(reviews := s.reviews[..i] + s.reviews[i + 1..]))
  {
    var rest := s.reviews[..i] + s.reviews[i + 1..];
    forall a, b | 0 <= a < b < |rest| ensures rest[a].id < rest[b].id {
      var a' := if a < i then a else a + 1;
      var b' := if b < i then b else b + 1;
      assert rest[a] == s.reviews[a'] && rest[b] == s.reviews[b'];
    }
  }

  // ── Properties ───────────────────────────────────────────────────────

  /** A delete removes the review with that id and keeps every other review. */
  lemma DeleteRemovesOnlyThat(s: Store, id: Id)
    requires ValidStore(s)
    ensures forall x :: x in DeleteSpec(s, id).reviews <==> x in s.reviews && x.id != id
  {
    var rest := DeleteSpec(s, id).reviews;
    forall x ensures x in rest <==> x in s.reviews && x.id != id {
      if x in s.reviews && x.id != id {
        var i :| 0 <= i < |s.reviews| && s.reviews[i] == x;
        assert Lists.KeyIsNot(ReviewId, id)(s.reviews[i]);
      }
    }
  }

  /** Deleting the same id twice leaves the store as deleting it once. */
  lemma DeleteTwice(s: Store, id: Id)
    requires ValidStore(s)
    ensures DeleteSpec(DeleteSpec(s, id), id) == DeleteSpec(s, id)
  {
    Lists.RemoveKeyIdempotent(s.reviews, ReviewId, id);
  }

  /** A review dated after every other review of its place is the first one the place lists. */
  lemma {:induction false} NewestListedFirst(s: Store, placeId: string, rating: Option<int>, text: Option<string>, now: int)
    requires forall i :: 0 <= i < |s.reviews| && s.reviews[i].placeId == Some(placeId) ==> s.reviews[i].date < now
    ensures
      var r := ListSpec(CreateSpec(s, Some(placeId), rating, text, now), placeId);
      r != [] && r[0] == Review(s.nextId, Some(placeId), rating, text, now)
  {
    var o := CreateSpec(s, Some(placeId), rating, text, now);
    var x := Review(s.nextId, Some(placeId), rating, text, now);
    assert o.reviews == s.reviews + [x];
    var r := ListSpec(o, placeId);
    assert x in r;
    var k :| 0 <= k < |r| && r[k] == x;
    assert r[0].date >= now by {
      if k != 0 { assert r[0].date >= r[k].date; }
    }
    forall y | y in s.reviews && y.placeId == Some(placeId) ensures y.date < now {
      var i :| 0 <= i < |s.reviews| && s.reviews[i] == y;
    }
    assert r[0] in o.reviews && r[0].placeId == Some(placeId);
  }

  /** A review with rating 5, text "Great stay" and place "p1", posted last, is listed first. */
  lemma GreatStayListedFirst(s: Store, now: int)
    requires forall i :: 0 <= i < |s.reviews| ==> s.reviews[i].date < now
    ensures
      var r := ListSpec(CreateSpec(s, Some("p1"), Some(5), Some("Great stay"), now), "p1");
      r != [] && r[0] == Review(s.nextId, Some("p1"), Some(5), Some("Great stay"), now)
  {
    NewestListedFirst(s, "p1", Some(5), Some("Great stay"), now);
  }

  /** A rating outside one to five is stored as sent. */
  lemma RatingUnchecked(s: Store, now: int)
    ensures CreateSpec(s, Some("p1"), Some(-3), None, now).reviews[|s.reviews|].rating == Some(-3)
  {
  }

  // ── The collection ───────────────────────────────────────────────────

  /** The review collection, changed in place by the POST and DELETE routes. */
  class Reviews {
    var reviews: seq<Review>
    var nextId: Id

    function State(): Store
      reads this
    {
      Store(reviews, nextId)
    }

    ghost predicate Valid()
      reads this
    {
      ValidStore(State())
    }

    /** An empty collection. */
    constructor ()
      ensures State() == Store([], 0)
      ensures Valid()
    {
      reviews, nextId := [], 0;
    }

    method List(placeId: string) returns (r: seq<Review>)
      ensures r == ListSpec(State(), placeId)
    {
      r := SortNewestFirst(Lists.Filter(reviews, OfPlace(placeId)));
    }

    method Create(placeId: Option<string>, rating: Option<int>, text: Option<string>, now: int) returns (r: Review)
      requires Valid()
      modifies this
      ensures r == Review(old(nextId), placeId, rating, text, now)
      ensures State() == CreateSpec(old(State()), placeId, rating, text, now)
      ensures Valid()
    {
      r := Review(nextId, placeId, rating, text, now);
      reviews := reviews + [r];
      nextId := nextId + 1;
    }

    /** Always answers `{ success: true }`. */
    method Delete(id: Id) returns (success: bool)
      requires Valid()
      modifies this
      ensures success
      ensures State() == DeleteSpec(old(State()), id)
      ensures Valid()
    {
      var found := Lists.FirstIndex(reviews, ReviewId, id);
      if found.Some? {
        var i := found.value;
        reviews := reviews[..i] + reviews[i + 1..];
      }
      return true;
    }
  }
}
