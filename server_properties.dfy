/**
 * Properties of the routes of api/index.js that relate several requests, or a route to the
 * whole space of callers: what a registration lets the next login do, what the ownership
 * checks refuse to every other identity, and what a cancellation leaves behind.
 */
module ServerProperties {
  import opened Wrappers
  import opened Text
  import Lists
  import opened Server

  /**
   * In a collection whose ids increase, an id names one document: the first with that id is the
   * only one.
   */
  lemma FirstIsOnly<T>(s: seq<T>, id: T -> Id, k: Id, i: nat)
    requires forall a, b :: 0 <= a < b < |s| ==> id(s[a]) < id(s[b])
    requires Lists.FirstIndex(s, id, k) == Some(i)
    ensures forall j :: 0 <= j < |s| && j != i ==> id(s[j]) != k
  {
    forall j | 0 <= j < |s| && j != i ensures id(s[j]) != k {
      if j > i {
        assert id(s[i]) < id(s[j]);
      }
    }
  }

  // ── Accounts ─────────────────────────────────────────────────────────

  /** "a@x.com" is split by the pattern at its `@` (index 1) and its `.` (index 3). */
  lemma SampleEmailMatches()
    ensures EmailPattern("a@x.com")
  {
    assert EmailSplitsAt("a@x.com", 1, 3);
  }

  /** A well-formed form with the password "short" is refused as weak, whatever the store holds. */
  lemma ShortPasswordRejected(db: Db, hash: string -> Digest, name: string, email: string, password: string)
    requires name != "" && email != "" && password != ""
    requires |Trim(name)| >= 2 && EmailPattern(email) && |password| < 8
    ensures RegisterSpec(db, hash, RegisterForm(Some(name), Some(email), Some(password)))
      == Outcome(Err(WeakPassword), db)
  {
  }

  /**
   * After a registration, logging in with the same address and password succeeds and names the
   * new account, as long as no earlier account holds the lower-cased address.
   */
  lemma RegisterThenLogin(db: Db, hash: string -> Digest, name: string, email: string, password: string)
    requires RegisterSpec(db, hash, RegisterForm(Some(name), Some(email), Some(password))).reply.Ok?
    requires forall i :: 0 <= i < |db.users| ==> db.users[i].email != Lower(email)
    ensures
      var o := RegisterSpec(db, hash, RegisterForm(Some(name), Some(email), Some(password)));
      var u := o.reply.value;
      LoginSpec(o.db, hash, LoginForm(Some(email), Some(password))) == Ok(LoginReply(u, Valid(Claims(u.email, u.id, u.name))))
  {
    var f := RegisterForm(Some(name), Some(email), Some(password));
    var o := RegisterSpec(db, hash, f);
    RegisterStoresLowercasedEmail(db, hash, f);
    NormalisedEmail(email);
    Lists.FirstIndexAppend(db.users, o.reply.value, UserEmail, Lower(email));
  }

  /** Registering an address already in lower case a second time is refused as a duplicate. */
  lemma LowercaseDuplicateRejected(db: Db, hash: string -> Digest, f: RegisterForm, g: RegisterForm)
    requires RegisterSpec(db, hash, f).reply.Ok?
    requires Given(f.email) && Lower(f.email.value) == f.email.value
    requires g.email == f.email && RegisterGuard(g).None?
    ensures
      var o := RegisterSpec(db, hash, f);
      RegisterSpec(o.db, hash, g) == Outcome(Err(EmailExists), o.db)
  {
    var o := RegisterSpec(db, hash, f);
    RegisterStoresLowercasedEmail(db, hash, f);
    assert o.db.users[|db.users|].email == f.email.value;
  }

  /**
   * The duplicate lookup compares the address as typed while the stored address is lower-cased,
   * so an address with an upper-case letter can be registered again: the store then holds two
   * accounts under the same stored address.
   */
  lemma MixedCaseDuplicateAccepted(db: Db, hash: string -> Digest, f: RegisterForm)
    requires RegisterSpec(db, hash, f).reply.Ok?
    requires Given(f.email) && Lower(f.email.value) != f.email.value
    ensures
      var o := RegisterSpec(db, hash, f);
      var o2 := RegisterSpec(o.db, hash, f);
      && o2.reply.Ok?
      && o2.db.users == db.users + [o.reply.value, o2.reply.value]
      && o.reply.value.email == o2.reply.value.email == Lower(f.email.value)
  {
    var o := RegisterSpec(db, hash, f);
    RegisterStoresLowercasedEmail(db, hash, f);
    assert !EmailTaken(o.db.users, f.email.value) by {
      forall i | 0 <= i < |o.db.users| ensures o.db.users[i].email != f.email.value {
        if i < |db.users| {
          assert o.db.users[i] == db.users[i];
        }
      }
    }
    var o2 := RegisterSpec(o.db, hash, f);
    RegisterStoresLowercasedEmail(o.db, hash, f);
  }

  /**
   * Of two accounts under the same stored address, login only ever reaches the older one: the
   * newer account's own password is refused whenever its digest differs from the older one's.
   */
  lemma ShadowedAccountCannotLogIn(db: Db, hash: string -> Digest, f: RegisterForm, p: string)
    requires RegisterSpec(db, hash, f).reply.Ok?
    requires Given(f.email) && Lower(f.email.value) != f.email.value
    requires forall i :: 0 <= i < |db.users| ==> db.users[i].email != Lower(f.email.value)
    requires |p| >= 8 && hash(p) != RegisterSpec(db, hash, f).reply.value.password
    ensures
      var o := RegisterSpec(db, hash, f);
      var o2 := RegisterSpec(o.db, hash, f.(password := Some(p)));
      o2.reply.Ok? && LoginSpec(o2.db, hash, LoginForm(f.email, Some(p))) == Err(WrongPassword)
  {
    var g := f.(password := Some(p));
    var o := RegisterSpec(db, hash, f);
    RegisterStoresLowercasedEmail(db, hash, f);
    NormalisedEmail(f.email.value);
    assert !EmailTaken(o.db.users, f.email.value) by {
      forall i | 0 <= i < |o.db.users| ensures o.db.users[i].email != f.email.value {
        if i < |db.users| {
          assert o.db.users[i] == db.users[i];
        }
      }
    }
    var o2 := RegisterSpec(o.db, hash, g);
    Lists.FirstIndexAppend(db.users, o.reply.value, UserEmail, Lower(f.email.value));
    Lists.FirstIndexAppend(o.db.users, o2.reply.value, UserEmail, Lower(f.email.value));
  }

  /** In a consistent store, the token a login issues makes `/profile` answer with that account. */
  lemma LoginThenProfile(db: Db, hash: string -> Digest, f: LoginForm)
    requires ValidDb(db)
    requires LoginSpec(db, hash, f).Ok?
    ensures
      var u := LoginSpec(db, hash, f).value.user;
      ProfileSpec(db, LoginSpec(db, hash, f).value.token) == ProfileOf(u.name, u.email, u.id)
  {
    var u := LoginSpec(db, hash, f).value.user;
    var k :| 0 <= k < |db.users| && db.users[k] == u;
    var j := Lists.FirstIndex(db.users, UserId, u.id);
    assert j.Some?;
    FirstIsOnly(db.users, UserId, u.id, j.value);
  }

  // ── Ownership ────────────────────────────────────────────────────────

  /**
   * An update of a stored place by anyone but its owner is refused with 403 and changes nothing,
   * for every identity the caller may hold.
   */
  lemma NonOwnerUpdateForbidden(db: Db, c: Claims, i: nat, f: PlaceFields)
    requires ValidDb(db)
    requires i < |db.places| && db.places[i].owner != c.id
    requires Given(f.title) && Given(f.address)
    ensures UpdatePlaceSpec(db, Valid(c), Some(db.places[i].id), f) == Outcome(Err(Forbidden), db)
  {
    var j := Lists.FirstIndex(db.places, PlaceId, db.places[i].id);
    assert j.Some?;
    FirstIsOnly(db.places, PlaceId, db.places[i].id, j.value);
  }

  /** An update naming no stored place is refused with 404 once the fields are present. */
  lemma UpdateUnknownPlaceNotFound(db: Db, c: Claims, id: Id, f: PlaceFields)
    requires forall i :: 0 <= i < |db.places| ==> db.places[i].id != id
    requires Given(f.title) && Given(f.address)
    ensures UpdatePlaceSpec(db, Valid(c), Some(id), f) == Outcome(Err(NotFound), db)
  {
  }

  /**
   * After an owner's update, `GET /places/:id` shows the new fields in full (absent ones
   * included) under the same id and owner, and every other place reads as before.
   */
  lemma UpdateThenGet(db: Db, token: Token, id: Option<Id>, f: PlaceFields, other: Id)
    requires UpdatePlaceSpec(db, token, id, f).reply.Ok?
    ensures
      var o := UpdatePlaceSpec(db, token, id, f);
      && GetPlaceSpec(o.db, id.value) == Ok(Place(id.value, token.claims.id, f))
      && (other != id.value ==> GetPlaceSpec(o.db, other) == GetPlaceSpec(db, other))
  {
    var o := UpdatePlaceSpec(db, token, id, f);
    var i := Lists.FirstIndex(db.places, PlaceId, id.value).value;
    assert forall j :: 0 <= j < |db.places| ==> o.db.places[j].id == db.places[j].id;
    Lists.FirstIndexSameKeys(db.places, o.db.places, PlaceId, id.value);
    Lists.FirstIndexSameKeys(db.places, o.db.places, PlaceId, other);
  }

  /** The update route applies no price rule: the price in the body never changes the reply. */
  lemma UpdateIgnoresPrice(db: Db, token: Token, id: Option<Id>, f: PlaceFields, p: Price)
    ensures UpdatePlaceSpec(db, token, id, f.(price := p)).reply == UpdatePlaceSpec(db, token, id, f).reply
  {
  }

  /**
   * With title and address given, a listing is created exactly when its price is absent or a
   * number that is not negative; zero is accepted.
   */
  lemma CreatePlacePriceRule(db: Db, c: Claims, f: PlaceFields)
    requires Given(f.title) && Given(f.address)
    ensures CreatePlaceSpec(db, Valid(c), f).reply.Ok? <==> f.price.Absent? || (f.price.Num? && f.price.amount >= 0)
    ensures CreatePlaceSpec(db, Valid(c), f).reply.Err? ==> CreatePlaceSpec(db, Valid(c), f).reply.error == InvalidPrice
  {
  }

  // ── Bookings ─────────────────────────────────────────────────────────

  /** The server books a stay whose check-out is not after its check-in. */
  lemma BookingDatesUnchecked(db: Db, c: Claims, place: Id)
    ensures CreateBookingSpec(db, Valid(c),
      BookingFields(Some(place), Some(20), Some(10), None, Some("Bob"), Some("555"), Num(0))).reply.Ok?
  {
  }

  /**
   * A successful cancellation is the client's filter by id: every booking with that id is gone,
   * the others keep their order, and the store holds exactly one booking fewer.
   */
  lemma CancelRemovesExactlyOne(db: Db, token: Token, id: Id)
    requires ValidDb(db)
    requires CancelBookingSpec(db, token, id).reply.Ok?
    ensures CancelBookingSpec(db, token, id).db.bookings == Lists.RemoveKey(db.bookings, BookingId, id)
    ensures |CancelBookingSpec(db, token, id).db.bookings| == |db.bookings| - 1
  {
    var i := Lists.FirstIndex(db.bookings, BookingId, id).value;
    FirstIsOnly(db.bookings, BookingId, id, i);
    Lists.RemoveUniqueKey(db.bookings, BookingId, id, i);
  }

  /** Cancelling the same booking twice: the second request finds nothing and is refused with 404. */
  lemma CancelTwiceNotFound(db: Db, token: Token, id: Id)
    requires ValidDb(db)
    requires CancelBookingSpec(db, token, id).reply.Ok?
    ensures
      var o := CancelBookingSpec(db, token, id);
      CancelBookingSpec(o.db, token, id) == Outcome(Err(NotFound), o.db)
  {
    var o := CancelBookingSpec(db, token, id);
    var i := Lists.FirstIndex(db.bookings, BookingId, id).value;
    FirstIsOnly(db.bookings, BookingId, id, i);
    forall j | 0 <= j < |o.db.bookings| ensures o.db.bookings[j].id != id {
      if j < i {
        assert o.db.bookings[j] == db.bookings[j];
      } else {
        assert o.db.bookings[j] == db.bookings[j + 1];
      }
    }
  }

  /** Another user's booking cannot be cancelled: 403, and the store is left as it was. */
  lemma CancelOthersForbidden(db: Db, c: Claims, i: nat)
    requires ValidDb(db)
    requires i < |db.bookings| && db.bookings[i].user != c.id
    ensures CancelBookingSpec(db, Valid(c), db.bookings[i].id) == Outcome(Err(Forbidden), db)
  {
    var j := Lists.FirstIndex(db.bookings, BookingId, db.bookings[i].id);
    assert j.Some?;
    FirstIsOnly(db.bookings, BookingId, db.bookings[i].id, j.value);
  }

  // ── Search ───────────────────────────────────────────────────────────

  /** The server trims the query itself, so sending it trimmed or not gives the same places. */
  lemma SearchTrimsQuery(db: Db, q: string)
    ensures SearchSpec(db, Some(Trim(q))) == SearchSpec(db, Some(q))
  {
    TrimIdempotent(q);
  }

  // ── A whole session ──────────────────────────────────────────────────

  /**
   * A booking just made is refused to every other user with 403, cancelled for its booker, and
   * not found on a repeat.
   */
  lemma NewBookingOwnership(db: Db, c: Claims, other: Claims, f: BookingFields)
    requires ValidDb(db) && other.id != c.id
    requires CreateBookingSpec(db, Valid(c), f).reply.Ok?
    ensures
      var stay := CreateBookingSpec(db, Valid(c), f);
      var id := stay.reply.value.id;
      && CancelBookingSpec(stay.db, Valid(other), id) == Outcome(Err(Forbidden), stay.db)
      && CancelBookingSpec(stay.db, Valid(c), id).reply == Ok(true)
      && CancelBookingSpec(CancelBookingSpec(stay.db, Valid(c), id).db, Valid(c), id).reply == Err(NotFound)
  {
    var stay := CreateBookingSpec(db, Valid(c), f);
    var n := |db.bookings|;
    Lists.FirstIndexAppend(db.bookings, stay.reply.value, BookingId, db.nextId);
    assert Lists.FirstIndex(stay.db.bookings, BookingId, db.nextId) == Some(n);
    CancelOthersForbidden(stay.db, other, n);
    CancelTwiceNotFound(stay.db, Valid(c), db.nextId);
  }

  /**
   * A sign-up, login, listing and booking against an empty store, for any forms that pass the
   * checks: the booking is refused to every other user, cancelled for its booker, and not found
   * on a repeat.
   */
  lemma Session(hash: string -> Digest, f: RegisterForm, pf: PlaceFields, bf: BookingFields, other: Claims)
    requires RegisterGuard(f).None? && PlaceGuard(pf).None? && BookingGuard(bf).None?
    requires other.id != 0
    ensures
      var reg := RegisterSpec(Db([], [], [], 0), hash, f);
      var login := LoginSpec(reg.db, hash, LoginForm(f.email, f.password));
      login.Ok? &&
      var me := login.value.token;
      var listing := CreatePlaceSpec(reg.db, me, pf);
      listing.reply.Ok? &&
      var stay := CreateBookingSpec(listing.db, me, bf.(place := Some(listing.reply.value.id)));
      stay.reply.Ok? &&
      var id := stay.reply.value.id;
      && CancelBookingSpec(stay.db, Valid(other), id) == Outcome(Err(Forbidden), stay.db)
      && CancelBookingSpec(stay.db, me, id).reply == Ok(true)
      && CancelBookingSpec(CancelBookingSpec(stay.db, me, id).db, me, id).reply == Err(NotFound)
  {
    var db0 := Db([], [], [], 0);
    var reg := RegisterSpec(db0, hash, f);
    RegisterThenLogin(db0, hash, f.name.value, f.email.value, f.password.value);
    var me := LoginSpec(reg.db, hash, LoginForm(f.email, f.password)).value.token;
    assert me.claims.id == 0;
    var listing := CreatePlaceSpec(reg.db, me, pf);
    NewBookingOwnership(listing.db, me.claims, other, bf.(place := Some(listing.reply.value.id)));
  }

  /** The sign-up form of the session below. */
  function AliceForm(): RegisterForm {
    RegisterForm(Some("Alice"), Some("a@x.com"), Some("Passw0rd!"))
  }

  /**
   * Alice registers and logs in, lists a place and books it; another signed-in user's attempt
   * to cancel her booking is refused with 403, her own succeeds, and a repeat finds nothing.
   */
  lemma BookingSession(hash: string -> Digest, other: Claims)
    requires other.id != 0
    ensures
      var reg := RegisterSpec(Db([], [], [], 0), hash, AliceForm());
      var login := LoginSpec(reg.db, hash, LoginForm(Some("a@x.com"), Some("Passw0rd!")));
      login.Ok? &&
      var alice := login.value.token;
      var listing := CreatePlaceSpec(reg.db, alice, BeachHouse());
      listing.reply.Ok? &&
      var stay := CreateBookingSpec(listing.db, alice, Stay(listing.reply.value.id));
      stay.reply.Ok? &&
      var id := stay.reply.value.id;
      && CancelBookingSpec(stay.db, Valid(other), id) == Outcome(Err(Forbidden), stay.db)
      && CancelBookingSpec(stay.db, alice, id).reply == Ok(true)
      && CancelBookingSpec(CancelBookingSpec(stay.db, alice, id).db, alice, id).reply == Err(NotFound)
  {
    SampleEmailMatches();
    TrimShape("Alice");
    assert RegisterGuard(AliceForm()).None?;
    Session(hash, AliceForm(), BeachHouse(), Stay(0), other);
  }

  /** The listing of the session. */
  function BeachHouse(): PlaceFields {
    PlaceFields(Some("Beach house"), Some("1 Shore Road"), None, None, None, None, None, None, Some(4), Num(100))
  }

  /** Two nights for two guests at the listing `place`. */
  function Stay(place: Id): BookingFields {
    BookingFields(Some(place), Some(10), Some(12), Some(2), Some("Alice"), Some("555 0100"), Num(200))
  }
}
