/**
 * The REST API of api/index.js: accounts, listings and bookings, each route a short ordered
 * chain of guards that ends in a rejection or in one change to the store.
 *
 * The outcome of every route is first given as a function over a snapshot `Db` of the store;
 * the class `Api` at the end holds the same collections as fields and has one method per route
 * handler, proved to produce exactly that outcome.
 *
 * Abstractions: the session cookie is a `Token` that is missing, fails verification, or carries
 * verified claims; bcrypt is the function `hash` fixed at start-up (the salt is generated once),
 * and a password check compares `hash(password)` with the stored digest; document ids are
 * naturals drawn from one counter, so creation order is id order.
 */
module Server {
  import opened Wrappers
  import opened Text
  import Lists

  type Id = nat

  /** The rejections the routes send, with their HTTP status and JSON `error` string. */
  datatype Error =
    | MissingFields | InvalidName | InvalidEmail | WeakPassword | InvalidPrice
    | Unauthorized | InvalidToken
    | Forbidden
    | NotFound
    | EmailExists | WrongPassword
  {
    function Status(): int {
      match this
      case MissingFields | InvalidName | InvalidEmail | WeakPassword | InvalidPrice => 400
      case Unauthorized | InvalidToken => 401
      case Forbidden => 403
      case NotFound => 404
      case EmailExists | WrongPassword => 422
    }

    function Code(): string {
      match this
      case MissingFields => "missing_fields"
      case InvalidName => "invalid_name"
      case InvalidEmail => "invalid_email"
      case WeakPassword => "weak_password"
      case InvalidPrice => "invalid_price"
      case Unauthorized => "unauthorized"
      case InvalidToken => "invalid_token"
      case Forbidden => "forbidden"
      case NotFound => "not_found"
      case EmailExists => "email_exists"
      case WrongPassword => "wrong_password"
    }
  }

  datatype Result<T> = Ok(value: T) | Err(error: Error)

  /** The payload of a session token. */
  datatype Claims = Claims(email: string, id: Id, name: string)

  /** The `token` cookie: absent, present but failing verification, or verified. */
  datatype Token = Missing | Invalid | Valid(claims: Claims)

  /** A bcrypt digest. */
  datatype Digest = Digest(text: string)

  datatype User = User(id: Id, name: string, email: string, password: Digest)

  /** A `price` in a request body: undefined, a number, or a value `isNaN` holds of. */
  datatype Price = Absent | Num(amount: int) | NonNumeric

  /** The listing fields a create or update request carries (`addedPhotos` is stored as `photos`). */
  datatype PlaceFields = PlaceFields(
    title: Option<string>, address: Option<string>, photos: Option<seq<string>>,
    description: Option<string>, perks: Option<seq<string>>, extraInfo: Option<string>,
    checkIn: Option<int>, checkOut: Option<int>, maxGuests: Option<int>, price: Price)

  datatype Place = Place(id: Id, owner: Id, fields: PlaceFields)

  /** The fields of a booking request; dates are day numbers. */
  datatype BookingFields = BookingFields(
    place: Option<Id>, checkIn: Option<int>, checkOut: Option<int>,
    numberOfGuests: Option<int>, name: Option<string>, phone: Option<string>, price: Price)

  datatype Booking = Booking(id: Id, user: Id, fields: BookingFields)

  /** A booking as `GET /bookings` sends it: its `place` populated (null when no such place). */
  datatype BookingView = BookingView(booking: Booking, place: Option<Place>)

  datatype RegisterForm = RegisterForm(name: Option<string>, email: Option<string>, password: Option<string>)

  datatype LoginForm = LoginForm(email: Option<string>, password: Option<string>)

  /** The user document sent back by `/login`, and the cookie it sets. */
  datatype LoginReply = LoginReply(user: User, token: Token)

  /** `/profile` answers `null` (with a status) or the user's name, email and id. */
  datatype ProfileReply = NullProfile(status: int) | ProfileOf(name: string, email: string, id: Id)

  /** A snapshot of the store. */
  datatype Db = Db(users: seq<User>, places: seq<Place>, bookings: seq<Booking>, nextId: Id)

  /** What a route answers, and the store after it. */
  datatype Outcome<T> = Outcome(reply: Result<T>, db: Db)

  function UserId(u: User): Id { u.id }
  function UserEmail(u: User): string { u.email }
  function PlaceId(p: Place): Id { p.id }
  function BookingId(b: Booking): Id { b.id }

  /**
   * Ids are fresh (below the counter) and increase in creation order within each collection,
   * so no two documents of a collection share an id.
   */
  ghost predicate ValidDb(db: Db) {
    && (forall i :: 0 <= i < |db.users| ==> db.users[i].id < db.nextId)
    && (forall i, j :: 0 <= i < j < |db.users| ==> db.users[i].id < db.users[j].id)
    && (forall i :: 0 <= i < |db.places| ==> db.places[i].id < db.nextId)
    && (forall i, j :: 0 <= i < j < |db.places| ==> db.places[i].id < db.places[j].id)
    && (forall i :: 0 <= i < |db.bookings| ==> db.bookings[i].id < db.nextId)
    && (forall i, j :: 0 <= i < j < |db.bookings| ==> db.bookings[i].id < db.bookings[j].id)
  }

  /** Appending a document whose id is the counter keeps a collection's ids fresh and increasing. */
  lemma AppendFresh<T>(s: seq<T>, id: T -> Id, x: T, next: Id)
    requires forall i :: 0 <= i < |s| ==> id(s[i]) < next
    requires forall i, j :: 0 <= i < j < |s| ==> id(s[i]) < id(s[j])
    requires id(x) == next
    ensures forall i :: 0 <= i < |s + [x]| ==> id((s + [x])[i]) < next + 1
    ensures forall i, j :: 0 <= i < j < |s + [x]| ==> id((s + [x])[i]) < id((s + [x])[j])
  {
  }

  lemma AddUserValid(db: Db, u: User)
    requires ValidDb(db) && u.id == db.nextId
    ensures ValidDb(db.(users := db.users + [u], nextId := db.nextId + 1))
  {
    AppendFresh(db.users, UserId, u, db.nextId);
  }

  lemma RemoveAtValid(db: Db, i: nat)
    requires ValidDb(db) && i < |db.bookings|
    ensures ValidDb(db.(bookings := db.bookings[..i] + db.bookings[i + 1..]))
  {
    var rest := db.bookings[..i] + db.bookings[i + 1..];
    forall a, b | 0 <= a < b < |rest| ensures rest[a].id < rest[b].id {
      var a' := if a < i then a else a + 1;
      var b' := if b < i then b else b + 1;
      assert rest[a] == db.bookings[a'] && rest[b] == db.bookings[b'];
    }
  }

  // ── Request checks ───────────────────────────────────────────────────

  /** A body field that is present and truthy (`undefined` and `''` are not). */
  predicate Given(f: Option<string>) {
    f.Some? && f.value != ""
  }

  /** Every character is matched by `[^\s@]`. */
  predicate NoSpaceNoAt(s: string) {
    forall i :: 0 <= i < |s| ==> !IsSpace(s[i]) && s[i] != '@'
  }

  /** `e` is local `@` domain `.` tld, split at indices `at` and `dot`. */
  predicate EmailSplitsAt(e: string, at: int, dot: int) {
    && 0 < at && at + 1 < dot && dot + 1 < |e|
    && e[at] == '@' && e[dot] == '.'
    && NoSpaceNoAt(e[..at]) && NoSpaceNoAt(e[at + 1..dot]) && NoSpaceNoAt(e[dot + 1..])
  }

  /** The whole of `e` matches `^[^\s@]+@[^\s@]+\.[^\s@]+$`. */
  predicate EmailPattern(e: string) {
    exists at, dot | 0 <= at < |e| && 0 <= dot < |e| :: EmailSplitsAt(e, at, dot)
  }

  /** An address the pattern accepts has no white space and exactly one `@`. */
  lemma EmailPatternShape(e: string)
    requires EmailPattern(e)
    ensures NoSpace(e)
    ensures exists at :: 0 <= at < |e| && e[at] == '@' && forall i :: 0 <= i < |e| && i != at ==> e[i] != '@'
  {
    var at, dot :| 0 <= at < |e| && 0 <= dot < |e| && EmailSplitsAt(e, at, dot);
    forall i | 0 <= i < |e| && i != at
      ensures !IsSpace(e[i]) && e[i] != '@'
    {
      if i < at {
        assert e[i] == e[..at][i];
      } else if i < dot {
        assert e[i] == e[at + 1..dot][i - at - 1];
      } else if i > dot {
        assert e[i] == e[dot + 1..][i - dot - 1];
      }
    }
  }

  /** For an address the pattern accepts, `toLowerCase().trim()` only lower-cases it. */
  lemma NormalisedEmail(e: string)
    requires EmailPattern(e)
    ensures Trim(Lower(e)) == Lower(e)
  {
    EmailPatternShape(e);
    LowerKeepsNoSpace(e);
    NoSpaceTrim(Lower(e));
  }

  /** The 400 checks of `/register`, in the order the handler makes them. */
  function RegisterGuard(f: RegisterForm): (r: Option<Error>)
    ensures r.None? <==>
      && Given(f.name) && Given(f.email) && Given(f.password)
      && |Trim(f.name.value)| >= 2 && EmailPattern(f.email.value) && |f.password.value| >= 8
    ensures r.Some? ==> r.value.Status() == 400
    ensures !Given(f.name) || !Given(f.email) || !Given(f.password) ==> r == Some(MissingFields)
    ensures Given(f.name) && Given(f.email) && Given(f.password) ==>
      && (|Trim(f.name.value)| < 2 ==> r == Some(InvalidName))
      && (|Trim(f.name.value)| >= 2 && !EmailPattern(f.email.value) ==> r == Some(InvalidEmail))
      && (|Trim(f.name.value)| >= 2 && EmailPattern(f.email.value) && |f.password.value| < 8 ==>
            r == Some(WeakPassword))
  {
    if !Given(f.name) || !Given(f.email) || !Given(f.password) then Some(MissingFields)
    else if |Trim(f.name.value)| < 2 then Some(InvalidName)
    else if !EmailPattern(f.email.value) then Some(InvalidEmail)
    else if |f.password.value| < 8 then Some(WeakPassword)
    else None
  }

  /** `price !== undefined && (isNaN(price) || price < 0)`. */
  predicate PriceRejected(p: Price) {
    p.NonNumeric? || (p.Num? && p.amount < 0)
  }

  /** The 400 checks of `POST /places`: title and address first, then the price. */
  function PlaceGuard(f: PlaceFields): (r: Option<Error>)
    ensures r.None? <==> Given(f.title) && Given(f.address) && !PriceRejected(f.price)
    ensures !Given(f.title) || !Given(f.address) ==> r == Some(MissingFields)
    ensures Given(f.title) && Given(f.address) && PriceRejected(f.price) ==> r == Some(InvalidPrice)
    ensures r.Some? ==> r.value.Status() == 400
  {
    if !Given(f.title) || !Given(f.address) then Some(MissingFields)
    else if PriceRejected(f.price) then Some(InvalidPrice)
    else None
  }

  /** The 400 checks of `POST /bookings`: the five required fields first, then the price. */
  function BookingGuard(f: BookingFields): (r: Option<Error>)
    ensures r.None? <==>
      && f.place.Some? && f.checkIn.Some? && f.checkOut.Some? && Given(f.name) && Given(f.phone)
      && !PriceRejected(f.price)
    ensures f.place.None? || f.checkIn.None? || f.checkOut.None? || !Given(f.name) || !Given(f.phone)
      ==> r == Some(MissingFields)
    ensures f.place.Some? && f.checkIn.Some? && f.checkOut.Some? && Given(f.name) && Given(f.phone) &&
      PriceRejected(f.price)
      ==> r == Some(InvalidPrice)
    ensures r.Some? ==> r.value.Status() == 400
  {
    if f.place.None? || f.checkIn.None? || f.checkOut.None? || !Given(f.name) || !Given(f.phone) then
      Some(MissingFields)
    else if PriceRejected(f.price) then Some(InvalidPrice)
    else None
  }

  /** `requireAuth`: no cookie, then a cookie that fails verification, else the verified claims. */
  function RequireAuth(token: Token): (r: Result<Claims>)
    ensures r.Ok? <==> token.Valid?
    ensures r.Ok? ==> r.value == token.claims
    ensures token.Missing? ==> r == Err(Unauthorized)
    ensures token.Invalid? ==> r == Err(InvalidToken)
    ensures r.Err? ==> r.error.Status() == 401
  {
    match token
    case Missing => Err(Unauthorized)
    case Invalid => Err(InvalidToken)
    case Valid(c) => Ok(c)
  }

  // ── Accounts ─────────────────────────────────────────────────────────

  /** `User.findOne({ email })`: an exact, case-sensitive comparison. */
  predicate EmailTaken(users: seq<User>, email: string) {
    exists i | 0 <= i < |users| :: users[i].email == email
  }

  /** The document `User.create` stores: trimmed name, lower-cased and trimmed email, the digest. */
  function NewUser(id: Id, hash: string -> Digest, f: RegisterForm): User
    requires Given(f.name) && Given(f.email) && Given(f.password)
  {
    User(id, Trim(f.name.value), Trim(Lower(f.email.value)), hash(f.password.value))
  }

  /** `POST /register`. */
  function RegisterSpec(db: Db, hash: string -> Digest, f: RegisterForm): (o: Outcome<User>)
    ensures o.reply.Err? ==> o.db == db
    ensures RegisterGuard(f).Some? ==> o.reply == Err(RegisterGuard(f).value)
    ensures RegisterGuard(f).None? && EmailTaken(db.users, f.email.value) ==> o.reply == Err(EmailExists)
    ensures o.reply.Ok? <==> RegisterGuard(f).None? && !EmailTaken(db.users, f.email.value)
    ensures o.reply.Ok? ==>
      && Given(f.name) && Given(f.email) && Given(f.password)
      && o.reply.value == User(db.nextId, Trim(f.name.value), Trim(Lower(f.email.value)), hash(f.password.value))
      && o.db == db.(users := db.users + [o.reply.value], nextId := db.nextId + 1)
    ensures ValidDb(db) ==> ValidDb(o.db)
  {
    match RegisterGuard(f)
    case Some(e) => Outcome(Err(e), db)
    case None =>
      if EmailTaken(db.users, f.email.value) then Outcome(Err(EmailExists), db)
      else
        var u := NewUser(db.nextId, hash, f);
        assert ValidDb(db) ==> ValidDb(db.(users := db.users + [u], nextId := db.nextId + 1)) by {
          if ValidDb(db) { AddUserValid(db, u); }
        }
        Outcome(Ok(u), db.(users := db.users + [u], nextId := db.nextId + 1))
  }

  /**
   * The stored address is the submitted one lower-cased: the pattern already ruled out white
   * space, so the `trim()` after `toLowerCase()` removes nothing.
   */
  lemma RegisterStoresLowercasedEmail(db: Db, hash: string -> Digest, f: RegisterForm)
    requires RegisterSpec(db, hash, f).reply.Ok?
    ensures Given(f.email) && RegisterSpec(db, hash, f).reply.value.email == Lower(f.email.value)
  {
    NormalisedEmail(f.email.value);
  }

  /** `POST /login`. */
  function LoginSpec(db: Db, hash: string -> Digest, f: LoginForm): (r: Result<LoginReply>)
    ensures !Given(f.email) || !Given(f.password) ==> r == Err(MissingFields)
    ensures r.Ok? ==>
      var u := r.value.user;
      && u in db.users && u.email == Trim(Lower(f.email.value)) && u.password == hash(f.password.value)
      && r.value.token == Valid(Claims(u.email, u.id, u.name))
    ensures r == Err(NotFound) <==>
      Given(f.email) && Given(f.password) &&
      forall i :: 0 <= i < |db.users| ==> db.users[i].email != Trim(Lower(f.email.value))
    ensures Given(f.email) && Given(f.password) ==>
      var i := Lists.FirstIndex(db.users, UserEmail, Trim(Lower(f.email.value)));
      i.Some? ==>
        && (r.Ok? <==> hash(f.password.value) == db.users[i.value].password)
        && (r.Ok? ==> r.value.user == db.users[i.value])
        && (r.Err? ==> r.error == WrongPassword)
    ensures r.Err? ==> r.error in {MissingFields, NotFound, WrongPassword}
  {
    if !Given(f.email) || !Given(f.password) then Err(MissingFields)
    else match Lists.FirstIndex(db.users, UserEmail, Trim(Lower(f.email.value)))
      case None => Err(NotFound)
      case Some(i) =>
        var u := db.users[i];
        if hash(f.password.value) != u.password then Err(WrongPassword)
        else Ok(LoginReply(u, Valid(Claims(u.email, u.id, u.name))))
  }

  /** `GET /profile`: the stored user the verified claims name, else `null`. */
  function ProfileSpec(db: Db, token: Token): (r: ProfileReply)
    ensures token.Missing? ==> r == NullProfile(200)
    ensures token.Invalid? ==> r == NullProfile(401)
    ensures r.ProfileOf? ==>
      token.Valid? && r.id == token.claims.id &&
      exists i :: 0 <= i < |db.users| && db.users[i].id == r.id &&
        db.users[i].name == r.name && db.users[i].email == r.email
    ensures token.Valid? && r.NullProfile? ==> r.status == 200
    ensures token.Valid? ==>
      (r.ProfileOf? <==> exists i :: 0 <= i < |db.users| && db.users[i].id == token.claims.id)
  {
    match token
    case Missing => NullProfile(200)
    case Invalid => NullProfile(401)
    case Valid(c) =>
      match Lists.FirstIndex(db.users, UserId, c.id)
      case None => NullProfile(200)
      case Some(i) => ProfileOf(db.users[i].name, db.users[i].email, db.users[i].id)
  }

  // ── Places ───────────────────────────────────────────────────────────

  /** `POST /places`: the owner is the caller's verified id, never a body field. */
  function CreatePlaceSpec(db: Db, token: Token, f: PlaceFields): (o: Outcome<Place>)
    ensures o.reply.Err? ==> o.db == db
    ensures !token.Valid? ==> o.reply == Err(RequireAuth(token).error)
    ensures token.Valid? && PlaceGuard(f).Some? ==> o.reply == Err(PlaceGuard(f).value)
    ensures o.reply.Ok? <==> token.Valid? && PlaceGuard(f).None?
    ensures o.reply.Ok? ==>
      && o.reply.value == Place(db.nextId, token.claims.id, f)
      && o.db == db.(places := db.places + [o.reply.value], nextId := db.nextId + 1)
    ensures ValidDb(db) ==> ValidDb(o.db)
  {
    match RequireAuth(token)
    case Err(e) => Outcome(Err(e), db)
    case Ok(c) =>
      match PlaceGuard(f)
      case Some(e) => Outcome(Err(e), db)
      case None =>
        var p := Place(db.nextId, c.id, f);
        Outcome(Ok(p), db.(places := db.places + [p], nextId := db.nextId + 1))
  }

  /** `PUT /places`: every listed field is overwritten, absent ones included; no price check. */
  function UpdatePlaceSpec(db: Db, token: Token, id: Option<Id>, f: PlaceFields): (o: Outcome<()>)
    ensures o.reply.Err? ==> o.db == db
    ensures !token.Valid? ==> o.reply == Err(RequireAuth(token).error)
    ensures token.Valid? && (id.None? || !Given(f.title) || !Given(f.address)) ==> o.reply == Err(MissingFields)
    ensures token.Valid? && id.Some? && Given(f.title) && Given(f.address) ==>
      var i := Lists.FirstIndex(db.places, PlaceId, id.value);
      && (i.None? ==> o.reply == Err(NotFound))
      && (i.Some? && db.places[i.value].owner != token.claims.id ==> o.reply == Err(Forbidden))
      && (i.Some? && db.places[i.value].owner == token.claims.id ==> o.reply.Ok?)
    ensures o.reply.Ok? ==>
      && token.Valid? && id.Some? && Given(f.title) && Given(f.address)
      && Lists.FirstIndex(db.places, PlaceId, id.value).Some?
      && var i := Lists.FirstIndex(db.places, PlaceId, id.value).value;
         db.places[i].owner == token.claims.id &&
         o.db == db.(places := db.places[i := Place(id.value, token.claims.id, f)])
    ensures ValidDb(db) ==> ValidDb(o.db)
  {
    match RequireAuth(token)
    case Err(e) => Outcome(Err(e), db)
    case Ok(c) =>
      if id.None? || !Given(f.title) || !Given(f.address) then Outcome(Err(MissingFields), db)
      else match Lists.FirstIndex(db.places, PlaceId, id.value)
        case None => Outcome(Err(NotFound), db)
        case Some(i) =>
          if c.id != db.places[i].owner then Outcome(Err(Forbidden), db)
          else Outcome(Ok(()), db.(places := db.places[i := db.places[i].(fields := f)]))
  }

  /** `GET /places/:id`. */
  function GetPlaceSpec(db: Db, id: Id): (r: Result<Place>)
    ensures r.Ok? ==> r.value in db.places && r.value.id == id
    ensures r.Err? <==> forall i :: 0 <= i < |db.places| ==> db.places[i].id != id
    ensures r.Err? ==> r.error == NotFound
  {
    match Lists.FirstIndex(db.places, PlaceId, id)
    case None => Err(NotFound)
    case Some(i) => Ok(db.places[i])
  }

  function OwnerIs(uid: Id): Place -> bool {
    (p: Place) => p.owner == uid
  }

  /** `GET /user-places`: the caller's listings, in creation order. */
  function UserPlacesSpec(db: Db, token: Token): (r: Result<seq<Place>>)
    ensures r.Ok? <==> token.Valid?
    ensures r.Err? ==> r == Err(RequireAuth(token).error)
    ensures r.Ok? ==>
      && (forall i :: 0 <= i < |r.value| ==> r.value[i] in db.places && r.value[i].owner == token.claims.id)
      && (forall i :: 0 <= i < |db.places| && db.places[i].owner == token.claims.id ==> db.places[i] in r.value)
      && r.value == Lists.Filter(db.places, OwnerIs(token.claims.id))
  {
    match RequireAuth(token)
    case Err(e) => Err(e)
    case Ok(c) => Ok(Lists.Filter(db.places, OwnerIs(c.id)))
  }

  /** A place field that is set and contains `q`, ignoring case. */
  predicate FieldMentions(field: Option<string>, q: string) {
    field.Some? && ContainsIgnoringCase(field.value, q)
  }

  /** The `$or` of the search: title, address or description mentions `q`. */
  predicate Mentions(p: Place, q: string) {
    FieldMentions(p.fields.title, q) || FieldMentions(p.fields.address, q) || FieldMentions(p.fields.description, q)
  }

  function MentionsQuery(q: string): Place -> bool {
    (p: Place) => Mentions(p, q)
  }

  /** `GET /places?search=`: all places for a blank query, else the ones mentioning the trimmed query. */
  function SearchSpec(db: Db, search: Option<string>): (r: seq<Place>)
    ensures search.None? || Trim(search.value) == [] ==> r == db.places
    ensures search.Some? && Trim(search.value) != [] ==>
      && (forall i :: 0 <= i < |r| ==> r[i] in db.places && Mentions(r[i], Trim(search.value)))
      && (forall i :: 0 <= i < |db.places| && Mentions(db.places[i], Trim(search.value)) ==> db.places[i] in r)
      && r == Lists.Filter(db.places, MentionsQuery(Trim(search.value)))
  {
    if search.Some? && |Trim(search.value)| > 0 then Lists.Filter(db.places, MentionsQuery(Trim(search.value)))
    else db.places
  }

  // ── Bookings ─────────────────────────────────────────────────────────

  /** `POST /bookings`: the booker is the caller's verified id; no date order or place check. */
  function CreateBookingSpec(db: Db, token: Token, f: BookingFields): (o: Outcome<Booking>)
    ensures o.reply.Err? ==> o.db == db
    ensures !token.Valid? ==> o.reply == Err(RequireAuth(token).error)
    ensures token.Valid? && BookingGuard(f).Some? ==> o.reply == Err(BookingGuard(f).value)
    ensures o.reply.Ok? <==> token.Valid? && BookingGuard(f).None?
    ensures o.reply.Ok? ==>
      && o.reply.value == Booking(db.nextId, token.claims.id, f)
      && o.db == db.(bookings := db.bookings + [o.reply.value], nextId := db.nextId + 1)
    ensures ValidDb(db) ==> ValidDb(o.db)
  {
    match RequireAuth(token)
    case Err(e) => Outcome(Err(e), db)
    case Ok(c) =>
      match BookingGuard(f)
      case Some(e) => Outcome(Err(e), db)
      case None =>
        var b := Booking(db.nextId, c.id, f);
        Outcome(Ok(b), db.(bookings := db.bookings + [b], nextId := db.nextId + 1))
  }

  function BookedBy(uid: Id): Booking -> bool {
    (b: Booking) => b.user == uid
  }

  /** `.populate('place')`: the place with the booking's place id, if there is one. */
  function PlaceOf(places: seq<Place>, id: Option<Id>): (r: Option<Place>)
    ensures r.Some? ==> id.Some? && r.value in places && r.value.id == id.value
    ensures r.None? <==> id.None? || forall i :: 0 <= i < |places| ==> places[i].id != id.value
  {
    if id.None? then None
    else match Lists.FirstIndex(places, PlaceId, id.value)
      case None => None
      case Some(i) => Some(places[i])
  }

  /** Each booking with its place joined in, in the same order. */
  function Views(places: seq<Place>, own: seq<Booking>): (r: seq<BookingView>)
    ensures |r| == |own|
    ensures forall k :: 0 <= k < |r| ==> r[k] == BookingView(own[k], PlaceOf(places, own[k].fields.place))
  {
    seq(|own|, k requires 0 <= k < |own| => BookingView(own[k], PlaceOf(places, own[k].fields.place)))
  }

  /** `GET /bookings`: the caller's bookings, each with its place joined in. */
  function ListBookingsSpec(db: Db, token: Token): (r: Result<seq<BookingView>>)
    ensures r.Ok? <==> token.Valid?
    ensures r.Err? ==> r == Err(RequireAuth(token).error)
    ensures r.Ok? ==>
      && (forall i :: 0 <= i < |r.value| ==>
            && r.value[i].booking in db.bookings && r.value[i].booking.user == token.claims.id
            && r.value[i].place == PlaceOf(db.places, r.value[i].booking.fields.place))
      && (forall i :: 0 <= i < |db.bookings| && db.bookings[i].user == token.claims.id ==>
            exists j :: 0 <= j < |r.value| && r.value[j].booking == db.bookings[i])
      && r.value == Views(db.places, Lists.Filter(db.bookings, BookedBy(token.claims.id)))
  {
    match RequireAuth(token)
    case Err(e) => Err(e)
    case Ok(c) =>
      var own := Lists.Filter(db.bookings, BookedBy(c.id));
      var views := Views(db.places, own);
      assert forall i :: 0 <= i < |db.bookings| && db.bookings[i].user == c.id ==>
        exists j :: 0 <= j < |views| && views[j].booking == db.bookings[i] by {
        forall i | 0 <= i < |db.bookings| && db.bookings[i].user == c.id
          ensures exists j :: 0 <= j < |views| && views[j].booking == db.bookings[i]
        {
          assert BookedBy(c.id)(db.bookings[i]);
          var j :| 0 <= j < |own| && own[j] == db.bookings[i];
          assert views[j].booking == db.bookings[i];
        }
      }
      Ok(views)
  }

  /** `DELETE /bookings/:id`: not found, then not the booker's, else that booking deleted. */
  function CancelBookingSpec(db: Db, token: Token, id: Id): (o: Outcome<bool>)
    ensures o.reply.Err? ==> o.db == db
    ensures !token.Valid? ==> o.reply == Err(RequireAuth(token).error)
    ensures token.Valid? && (forall i :: 0 <= i < |db.bookings| ==> db.bookings[i].id != id) ==> o.reply == Err(NotFound)
    ensures token.Valid? ==>
      var i := Lists.FirstIndex(db.bookings, BookingId, id);
      && (i.Some? && db.bookings[i.value].user != token.claims.id ==> o.reply == Err(Forbidden))
      && (i.Some? && db.bookings[i.value].user == token.claims.id ==> o.reply == Ok(true))
    ensures o.reply.Ok? ==>
      && o.reply.value && token.Valid?
      && Lists.FirstIndex(db.bookings, BookingId, id).Some?
      && var i := Lists.FirstIndex(db.bookings, BookingId, id).value;
         db.bookings[i].user == token.claims.id &&
         o.db == db.(bookings := db.bookings[..i] + db.bookings[i + 1..])
    ensures ValidDb(db) ==> ValidDb(o.db)
  {
    match RequireAuth(token)
    case Err(e) => Outcome(Err(e), db)
    case Ok(c) =>
      match Lists.FirstIndex(db.bookings, BookingId, id)
      case None => Outcome(Err(NotFound), db)
      case Some(i) =>
        if db.bookings[i].user != c.id then Outcome(Err(Forbidden), db)
        else
          var rest := db.bookings[..i] + db.bookings[i + 1..];
          assert ValidDb(db) ==> ValidDb(db.(bookings := rest)) by {
            if ValidDb(db) { RemoveAtValid(db, i); }
          }
          Outcome(Ok(true), db.(bookings := rest))
  }

  // ── The store ────────────────────────────────────────────────────────

  /**
   * The three collections and the id counter, changed in place by the route handlers.
   * `hash` is bcrypt under the salt drawn once when the server starts.
   */
  class Api {
    var users: seq<User>
    var places: seq<Place>
    var bookings: seq<Booking>
    var nextId: Id
    const hash: string -> Digest

    function State(): Db
      reads this
    {
      Db(users, places, bookings, nextId)
    }

    ghost predicate Valid()
      reads this
    {
      ValidDb(State())
    }

    /** An empty store. */
    constructor (hash: string -> Digest)
      ensures State() == Db([], [], [], 0) && this.hash == hash
      ensures Valid()
    {
      users, places, bookings, nextId := [], [], [], 0;
      this.hash := hash;
    }

    method Register(f: RegisterForm) returns (r: Result<User>)
      requires Valid()
      modifies this
      ensures Outcome(r, State()) == RegisterSpec(old(State()), hash, f)
      ensures Valid()
    {
      var invalid := RegisterGuard(f);
      if invalid.Some? {
        return Err(invalid.value);
      }
      var existing := Lists.FirstIndex(users, UserEmail, f.email.value);
      if existing.Some? {
        return Err(EmailExists);
      }
      var u := NewUser(nextId, hash, f);
      users := users + [u];
      nextId := nextId + 1;
      return Ok(u);
    }

    method Login(f: LoginForm) returns (r: Result<LoginReply>)
      ensures r == LoginSpec(State(), hash, f)
    {
      if !Given(f.email) || !Given(f.password) {
        return Err(MissingFields);
      }
      var found := Lists.FirstIndex(users, UserEmail, Trim(Lower(f.email.value)));
      if found.None? {
        return Err(NotFound);
      }
      var u := users[found.value];
      if hash(f.password.value) != u.password {
        return Err(WrongPassword);
      }
      return Ok(LoginReply(u, Token.Valid(Claims(u.email, u.id, u.name))));
    }

    method Profile(token: Token) returns (r: ProfileReply)
      ensures r == ProfileSpec(State(), token)
    {
      if token.Missing? {
        return NullProfile(200);
      }
      if token.Invalid? {
        return NullProfile(401);
      }
      var found := Lists.FirstIndex(users, UserId, token.claims.id);
      if found.None? {
        return NullProfile(200);
      }
      var u := users[found.value];
      return ProfileOf(u.name, u.email, u.id);
    }

    method CreatePlace(token: Token, f: PlaceFields) returns (r: Result<Place>)
      requires Valid()
      modifies this
      ensures Outcome(r, State()) == CreatePlaceSpec(old(State()), token, f)
      ensures Valid()
    {
      var auth := RequireAuth(token);
      if auth.Err? {
        return Err(auth.error);
      }
      var invalid := PlaceGuard(f);
      if invalid.Some? {
        return Err(invalid.value);
      }
      var p := Place(nextId, auth.value.id, f);
      places := places + [p];
      nextId := nextId + 1;
      return Ok(p);
    }

    method UserPlaces(token: Token) returns (r: Result<seq<Place>>)
      ensures r == UserPlacesSpec(State(), token)
    {
      var auth := RequireAuth(token);
      if auth.Err? {
        return Err(auth.error);
      }
      return Ok(Lists.Filter(places, OwnerIs(auth.value.id)));
    }

    method GetPlace(id: Id) returns (r: Result<Place>)
      ensures r == GetPlaceSpec(State(), id)
    {
      var found := Lists.FirstIndex(places, PlaceId, id);
      if found.None? {
        return Err(NotFound);
      }
      return Ok(places[found.value]);
    }

    method UpdatePlace(token: Token, id: Option<Id>, f: PlaceFields) returns (r: Result<()>)
      requires Valid()
      modifies this
      ensures Outcome(r, State()) == UpdatePlaceSpec(old(State()), token, id, f)
      ensures Valid()
    {
      var auth := RequireAuth(token);
      if auth.Err? {
        return Err(auth.error);
      }
      if id.None? || !Given(f.title) || !Given(f.address) {
        return Err(MissingFields);
      }
      var found := Lists.FirstIndex(places, PlaceId, id.value);
      if found.None? {
        return Err(NotFound);
      }
      var i := found.value;
      if auth.value.id != places[i].owner {
        return Err(Forbidden);
      }
      places := places[i := places[i].(fields := f)];
      return Ok(());
    }

    method Search(search: Option<string>) returns (r: seq<Place>)
      ensures r == SearchSpec(State(), search)
    {
      if search.Some? {
        var q := Trim(search.value);
        if |q| > 0 {
          return Lists.Filter(places, MentionsQuery(q));
        }
      }
      return places;
    }

    method CreateBooking(token: Token, f: BookingFields) returns (r: Result<Booking>)
      requires Valid()
      modifies this
      ensures Outcome(r, State()) == CreateBookingSpec(old(State()), token, f)
      ensures Valid()
    {
      var auth := RequireAuth(token);
      if auth.Err? {
        return Err(auth.error);
      }
      var invalid := BookingGuard(f);
      if invalid.Some? {
        return Err(invalid.value);
      }
      var b := Booking(nextId, auth.value.id, f);
      bookings := bookings + [b];
      nextId := nextId + 1;
      return Ok(b);
    }

    method ListBookings(token: Token) returns (r: Result<seq<BookingView>>)
      ensures r == ListBookingsSpec(State(), token)
    {
      var auth := RequireAuth(token);
      if auth.Err? {
        return Err(auth.error);
      }
      return Ok(Views(places, Lists.Filter(bookings, BookedBy(auth.value.id))));
    }

    method CancelBooking(token: Token, id: Id) returns (r: Result<bool>)
      requires Valid()
      modifies this
      ensures Outcome(r, State()) == CancelBookingSpec(old(State()), token, id)
      ensures Valid()
    {
      var auth := RequireAuth(token);
      if auth.Err? {
        return Err(auth.error);
      }
      var found := Lists.FirstIndex(bookings, BookingId, id);
      if found.None? {
        return Err(NotFound);
      }
      var i := found.value;
      if bookings[i].user != auth.value.id {
        return Err(Forbidden);
      }
      bookings := bookings[..i] + bookings[i + 1..];
      return Ok(true);
    }
  }
}
