# Hotel booking application: request checks, ownership and client list state

This project models the core of a short-term rental booking application in Dafny and proves
properties of that model. The application has an Express API backed by MongoDB and a React client.

**The API** (`api/index.js`) handles:
- accounts: register, login and profile;
- listings: create, update, fetch, search, and "my listings";
- bookings: create, list and cancel.

Each handler is a short, ordered chain of checks. Each check maps to a status and an `error` code
(400, 401, 403, 404 or 422). After the checks comes one change to the store.

**The review routes** (`api/routes/reviewRoutes.js`) list, create and delete reviews. They do no
validation and no authentication.

**The client pages** model:
- the password rules and the sign-up form;
- the padding of the home page grid;
- the booking widget's checks and request;
- the list updates of the bookings page and of the review box.

## How the model is organised

Each route is first a function over a snapshot of the store. `Server.Db` is the users, places and
bookings plus an id counter; `ReviewRoutes.Store` is the review collection. A class then holds the
same collections as fields and has one method per route: `Server.Api` and `ReviewRoutes.Reviews`.

A state-changing method ends on `ensures Outcome(r, State()) == XSpec(old(State()), …)`, so it is
proved to do what its spec function says. The spec functions carry the properties: the order of
the checks, error paths that leave the store untouched, and the invariant `ValidDb` / `ValidStore`.

The client pages are classes whose fields are the component's state. Each handler is a method
that states its whole new state.

### Abstractions

- **Session token.** The cookie is `Missing | Invalid | Valid(claims)`. A valid token's claims are
  what `jwt.verify` returned.
- **bcrypt.** Modelled as a function `hash: string -> Digest`. It is fixed when the store is
  created, because the salt is drawn once at start-up (`api/index.js:18`). `compareSync(p, d)`
  becomes `hash(p) == d`.
- **Ids.** Natural numbers from one counter, so ids grow in creation order.
- **Dates.** Day numbers. An unset date input is `None`.
- **Prices.** `Absent | Num(n) | NonNumeric`.
- **Body fields.** JavaScript truthiness (`!name`) becomes `Given(f)`: the field is present and
  not `''`.
- **`String.prototype.trim`** uses the white-space set of ECMAScript.
- **`toLowerCase`** lower-cases ASCII letters only.
- **Search.** A literal, case-insensitive substring test.
- **Clock, dialog and network.** The clock is a parameter `now`. The confirmation dialog is a
  parameter `confirmed`. The answer of a network request is the parameter `Reply`: `Resolved(data)`
  or `Rejected(error, message)`.
- **Toasts.** The last toast is the field `notice`.

### Duplicate accounts and letter case

The duplicate-account check at `api/index.js:93` looks the address up exactly as submitted,
while `api/index.js:100` stores it lower-cased. The model follows the code:
- `MixedCaseDuplicateAccepted` shows that an address with a capital letter can be registered twice;
- `ShadowedAccountCannotLogIn` shows that login then never reaches the second account.

This is not listed under Findings. `api/models/user.js` is not part of this model, and it may have
a unique index or a lower-casing setter that changes the outcome.

## Model

| member | source | states |
|---|---|---|
| Server.RequireAuth | api/index.js:40-52 | No cookie is 401 `unauthorized`, then a failed verification is 401 `invalid_token`; it succeeds exactly for a valid token and yields its claims. |
| Server.RegisterGuard | api/index.js:78-90 | The form passes exactly when all three fields are given, the trimmed name has at least 2 characters, the e-mail matches the pattern and the password has at least 8. The first failing check decides, in source order: `missing_fields`, then `invalid_name`, then `invalid_email`, then `weak_password`; every rejection is a 400. |
| Server.EmailPatternShape | api/index.js:84-85 | An address the pattern accepts has no white space and exactly one `@`. |
| Server.NormalisedEmail | api/index.js:84-85 | For an accepted address, `toLowerCase().trim()` changes nothing beyond lower-casing. |
| Server.RegisterSpec | api/index.js:74-107 | A guard failure is that error. A form that passes the guard but whose submitted e-mail equals a stored one is 422 `email_exists`. Success happens exactly when the guard passes and no stored e-mail equals the submitted one. The stored user has the trimmed name, the lower-cased and trimmed e-mail and the password's digest under a fresh id. No failure changes the store, and the id invariant is kept. |
| Server.RegisterStoresLowercasedEmail | api/index.js:93-102 | A successful registration stores the submitted address lower-cased. |
| Server.LoginSpec | api/index.js:109-141 | Missing fields are 400. 404 is returned exactly when no user has the lower-cased, trimmed address. Otherwise the first user with that address decides: login succeeds exactly when the password's digest is that user's, the reply names that user, and a mismatch is 422 `wrong_password`. On success the user has that address and the password's digest, and the token carries that user's email, id and name. No other error is possible. |
| Server.ProfileSpec | api/index.js:143-160 | No cookie gives `null`, and a bad token gives 401 with `null`. With a valid token, a profile is answered exactly when a user has the claimed id, and it is that user's name, e-mail and id; a valid token naming no stored user gets 200 with `null`. |
| Server.PlaceGuard | api/index.js:208-213 | Accepted exactly when title and address are given and the price is absent or a number that is not negative. Missing title or address is `missing_fields`; with both given, a refused price is `invalid_price`; every rejection is a 400. |
| Server.CreatePlaceSpec | api/index.js:201-226 | Succeeds exactly for a valid token and fields that pass. A bad token is its 401; with a valid token, fields that fail are the guard's 400 (`missing_fields` or `invalid_price`). The owner is the caller's verified id. Failures leave the store unchanged, and the id invariant is kept. |
| Server.UpdatePlaceSpec | api/index.js:249-278 | The order is 401, then 400 for a missing id, title or address, then 404 for an unknown id, then 403 for anyone but the owner; the owner's update succeeds. Failures change nothing. Success overwrites every field of the owner's place, absent ones included, and keeps its id and owner. |
| Server.GetPlaceSpec | api/index.js:236-247 | Returns the stored place with that id; 404 is returned exactly when there is none. |
| Server.UserPlacesSpec | api/index.js:228-234 | A bad token is its 401. Otherwise exactly the caller's places, in store order, each as often as stored. |
| Server.SearchSpec | api/index.js:280-298 | A missing or blank query returns every place. Otherwise it returns exactly the places whose title, address or description contains the trimmed query, ignoring case, in store order. |
| Server.BookingGuard | api/index.js:310-315 | Accepted exactly when place, dates, name and phone are given and the price rule holds. A missing field is `missing_fields`; with all given, a refused price is `invalid_price`; every rejection is a 400. |
| Server.CreateBookingSpec | api/index.js:305-326 | Succeeds exactly for a valid token and fields that pass. A bad token is its 401; with a valid token, fields that fail are the guard's 400 (`missing_fields` or `invalid_price`). The booker is the caller's verified id. Failures leave the store unchanged, and the invariant is kept. |
| Server.PlaceOf | api/index.js:330 | `populate('place')`: the place with the booking's place id, or none exactly when no place has it. |
| Server.Views | api/index.js:330 | Each booking paired with its populated place, in the same order. |
| Server.ListBookingsSpec | api/index.js:328-334 | A bad token is its 401. Otherwise exactly the caller's bookings in store order, each with its place. |
| Server.CancelBookingSpec | api/index.js:336-351 | 404 when no booking has the id. For a stored booking, its booker's cancel succeeds and anyone else's is 403. Success removes exactly that booking. Failures change nothing, and the invariant is kept. |
| Server.Api.constructor | api/index.js:18 | An empty store under a fixed `hash`. |
| Server.Api.Register | api/index.js:74-107 | The new state and reply are those of `RegisterSpec`. |
| Server.Api.Login | api/index.js:109-141 | The reply of `LoginSpec`. |
| Server.Api.Profile | api/index.js:143-160 | The reply of `ProfileSpec`. |
| Server.Api.CreatePlace | api/index.js:201-226 | The new state and reply are those of `CreatePlaceSpec`. |
| Server.Api.UserPlaces | api/index.js:228-234 | The reply of `UserPlacesSpec`. |
| Server.Api.GetPlace | api/index.js:236-247 | The reply of `GetPlaceSpec`. |
| Server.Api.UpdatePlace | api/index.js:249-278 | The new state and reply are those of `UpdatePlaceSpec`. |
| Server.Api.Search | api/index.js:280-298 | The reply of `SearchSpec`. |
| Server.Api.CreateBooking | api/index.js:305-326 | The new state and reply are those of `CreateBookingSpec`. |
| Server.Api.ListBookings | api/index.js:328-334 | The reply of `ListBookingsSpec`. |
| Server.Api.CancelBooking | api/index.js:336-351 | The new state and reply are those of `CancelBookingSpec`. |
| ServerProperties.SampleEmailMatches | api/index.js:84-85 | "a@x.com" matches the e-mail pattern. |
| ServerProperties.ShortPasswordRejected | api/index.js:88-90 | Any form with all fields given, a trimmed name of at least 2 characters and an address the pattern accepts, whose password is shorter than 8 characters, is 400 `weak_password`, and the store is unchanged. |
| ServerProperties.RegisterThenLogin | api/index.js:93-136 | After registering, logging in with the same address and password returns the new user and that user's claims, provided no earlier account holds the lower-cased address (the case `MixedCaseDuplicateAccepted` shows can arise). |
| ServerProperties.LowercaseDuplicateRejected | api/index.js:93-96 | A second registration of an already lower-case address is 422 `email_exists`, and nothing is added. |
| ServerProperties.MixedCaseDuplicateAccepted | api/index.js:93-102 | A mixed-case address registers twice, leaving two users with the same stored address. |
| ServerProperties.ShadowedAccountCannotLogIn | api/index.js:114-126 | The second of those accounts cannot log in with its own password: login finds the first account and answers 422 `wrong_password`. |
| ServerProperties.LoginThenProfile | api/index.js:128-155 | The token a login issues makes `/profile` answer with that user. |
| ServerProperties.NonOwnerUpdateForbidden | api/index.js:265-267 | Anyone but the owner updating a stored place gets 403, and the store is unchanged. |
| ServerProperties.UpdateUnknownPlaceNotFound | api/index.js:261-264 | An update naming no stored place gets 404 once the fields are present. |
| ServerProperties.UpdateThenGet | api/index.js:268-273 | After an owner's update, `GET /places/:id` returns the new fields under the same id and owner, and every other place reads as before. |
| ServerProperties.UpdateIgnoresPrice | api/index.js:256-274 | The price in an update body never changes the reply: no price rule is applied. |
| ServerProperties.CreatePlacePriceRule | api/index.js:211-213 | With title and address given, creation succeeds exactly for an absent or non-negative price, zero included. Otherwise it is `invalid_price`. |
| ServerProperties.BookingDatesUnchecked | api/index.js:310-321 | A booking whose check-out is before its check-in is accepted. |
| ServerProperties.CancelRemovesExactlyOne | api/index.js:345 | A successful cancel is the filter by id on the store, and exactly one booking fewer remains. |
| ServerProperties.CancelTwiceNotFound | api/index.js:339-345 | A second cancel of the same booking is 404. |
| ServerProperties.CancelOthersForbidden | api/index.js:342-344 | Cancelling another user's booking is 403, and the store is unchanged. |
| ServerProperties.SearchTrimsQuery | api/index.js:282-284 | Sending the query trimmed or untrimmed gives the same places. |
| ServerProperties.NewBookingOwnership | api/index.js:305-351 | A booking just made is refused (403) to every other user, cancelled for its booker, and not found on a repeat. |
| ServerProperties.Session | api/index.js:74-351 | Sign-up, login, listing and booking against an empty store, for any forms that pass the checks: the booking is refused to other users, cancelled for its booker, and 404 on a repeat. |
| ServerProperties.BookingSession | api/index.js:74-351 | The same session for the user "Alice" with a two-night stay at a listed beach house. |
| ReviewRoutes.Insert | api/routes/reviewRoutes.js:9 | Inserting into a list sorted newest first keeps it sorted and adds exactly that review. |
| ReviewRoutes.SortNewestFirst | api/routes/reviewRoutes.js:9 | `sort({ date: -1 })`: sorted newest first and a permutation of its input. |
| ReviewRoutes.ListSpec | api/routes/reviewRoutes.js:7-14 | Exactly the reviews with that place id, each as often as stored, newest first. |
| ReviewRoutes.CreateSpec | api/routes/reviewRoutes.js:17-25 | The review is stored with the fields as sent, no rating check, dated `now`, under a fresh id; the earlier reviews are unchanged and the invariant is kept. |
| ReviewRoutes.DeleteSpec | api/routes/reviewRoutes.js:28-35 | In a consistent store, removes exactly the reviews with that id, keeping order. An unknown id changes nothing. |
| ReviewRoutes.RemoveAtValid | api/routes/reviewRoutes.js:30 | Removing the first review with an id is the filter by that id and keeps the invariant. |
| ReviewRoutes.DeleteRemovesOnlyThat | api/routes/reviewRoutes.js:28-31 | After a delete, a review is present exactly when it was present before and has another id. |
| ReviewRoutes.DeleteTwice | api/routes/reviewRoutes.js:30-31 | Deleting the same id twice gives the store that deleting it once gives. |
| ReviewRoutes.NewestListedFirst | api/routes/reviewRoutes.js:9-20 | A review created with a date after every other review of its place is listed first. |
| ReviewRoutes.GreatStayListedFirst | api/routes/reviewRoutes.js:9-20 | A rating-5 "Great stay" review for "p1", posted last, is listed first for "p1". |
| ReviewRoutes.RatingUnchecked | api/routes/reviewRoutes.js:18-20 | A rating of -3 is stored as sent. |
| ReviewRoutes.Reviews.constructor | api/models/review.js:3-8 | An empty collection. |
| ReviewRoutes.Reviews.List | api/routes/reviewRoutes.js:7-14 | The answer of `ListSpec`. |
| ReviewRoutes.Reviews.Create | api/routes/reviewRoutes.js:17-25 | Returns the new review, and the new state is that of `CreateSpec`. |
| ReviewRoutes.Reviews.Delete | api/routes/reviewRoutes.js:28-35 | Always answers success, and the new state is that of `DeleteSpec`. |
| Client.MessageOr | client/src/BookingWidget.jsx:59 | `message \|\| fallback`: the message when it is present and non-empty, else the fallback. |
| RegisterPage.ValidatePassword | client/src/pages/RegisterPage.jsx:14-28 | `''` exactly when all four rules hold. A password shorter than 8 always gets the length message. The result is one of the five strings. |
| RegisterPage.RuleOrder | client/src/pages/RegisterPage.jsx:15-26 | Each message is returned exactly when its rule is the first one broken: length, then capital, then digit, then special character. |
| RegisterPage.AcceptedPasswordLongEnough | client/src/pages/RegisterPage.jsx:15 | A password the page accepts is at least 8 long, so the server never refuses it as `weak_password`. |
| RegisterPage.SamplePasswordStrong | client/src/pages/RegisterPage.jsx:14-28 | "Passw0rd!" passes all four rules. |
| RegisterPage.Page.constructor | client/src/pages/RegisterPage.jsx:7-11 | Every field starts empty. |
| RegisterPage.Page.SetEmail | client/src/pages/RegisterPage.jsx:76 | Typing an address clears the e-mail error. |
| RegisterPage.Page.HandlePasswordChange | client/src/pages/RegisterPage.jsx:30-38 | An empty input clears the password error. Any other input sets the error to `ValidatePassword` of the value. |
| RegisterPage.Page.RegisterUser | client/src/pages/RegisterPage.jsx:40-51 | Clears the e-mail error. A request is sent exactly when the password validates, and it carries the three fields; otherwise the password error is shown. |
| RegisterPage.Page.OnRegisterReply | client/src/pages/RegisterPage.jsx:52-60 | Success shows the success toast. `email_exists` sets the e-mail error and shows no toast. Any other failure shows the server's message, or the default. |
| IndexPage.SearchParams | client/src/pages/IndexPage.jsx:28 | A search parameter is sent exactly when the trimmed query is non-empty, and it is the trimmed query. |
| IndexPage.SearchParamsAgreeWithServer | client/src/pages/IndexPage.jsx:28 | The places the server returns for the page's parameters are those it returns for the raw query. |
| IndexPage.GetDisplayPlaces | client/src/pages/IndexPage.jsx:46-58 | Returns the list unchanged while searching, when empty or when it holds at least 16. Otherwise it returns exactly 16 cards, card `i` being place `i mod n`; the loop terminates. |
| IndexPage.Page.constructor | client/src/pages/IndexPage.jsx:9-12 | No places, loading, and empty query fields. |
| IndexPage.Mount | client/src/pages/IndexPage.jsx:9-36 | A new page in its initial state, and the fetch effect's first run on mount, which sends no search parameter. |
| IndexPage.Page.HandleSearch | client/src/pages/IndexPage.jsx:16-17 | The input shows the typed value, and nothing else changes. |
| IndexPage.Page.Settle | client/src/pages/IndexPage.jsx:21-36 | The settled query is the value. A fetch is sent exactly when the settled query changed, since the effect depends on it alone, and it uses `SearchParams` of the value. |
| IndexPage.Page.OnPlacesReply | client/src/pages/IndexPage.jsx:29-35 | An array answer is kept; a non-array answer or a failure gives no places; loading ends either way. |
| BookingWidget.NumberOfNights | client/src/BookingWidget.jsx:25-29 | 0 unless both dates are set; then check-in plus the nights is check-out. |
| BookingWidget.Problem | client/src/BookingWidget.jsx:31-47 | No problem exactly when logged in, both dates set, check-out after check-in, and name and phone given. The first failing check decides the toast, in order: log in, dates, check-out after check-in, name and phone. |
| BookingWidget.Request | client/src/BookingWidget.jsx:50-54 | The posted place is the widget's place, and the price is nights times the nightly price; dates, guests, name and phone are as entered. |
| BookingWidget.SentRequestAccepted | client/src/BookingWidget.jsx:31-54 | Every request the widget sends passes the server's booking checks when the nightly price is not negative, and its check-out is after its check-in. |
| BookingWidget.Widget.constructor | client/src/BookingWidget.jsx:9-23 | Empty dates, one guest, and the name copied from the signed-in user. |
| BookingWidget.Widget.TotalLabel | client/src/BookingWidget.jsx:94-111 | The contact fields and total are shown exactly when the nights are positive, and the total is nights times the price. |
| BookingWidget.Widget.BookThisPlace | client/src/BookingWidget.jsx:31-54 | No request is sent exactly when a check fails, and then the failing check's toast is shown. Otherwise the request is `Request`; the form is unchanged. |
| BookingWidget.Widget.OnBookingReply | client/src/BookingWidget.jsx:55-61 | Success redirects to the new booking's id with the confirmation toast. Failure shows the server's message, or the default. |
| BookingsPage.ViewsRemoveKey | client/src/pages/BookingsPage.jsx:30 | Joining places and then filtering by id gives the same list as filtering first. |
| BookingsPage.CancelMatchesServer | client/src/pages/BookingsPage.jsx:30 | After a cancel the server accepts, the page's filtered list is exactly what `GET /bookings` now returns. |
| BookingsPage.CancelKeepsOrder | client/src/pages/BookingsPage.jsx:30 | The cancel removes the cancelled entry; what comes before and after it keeps its order. |
| BookingsPage.Page.constructor | client/src/pages/BookingsPage.jsx:11-12 | No bookings, and loading. |
| BookingsPage.Page.OnLoad | client/src/pages/BookingsPage.jsx:15-22 | The answer is kept on success; loading ends either way. |
| BookingsPage.Mount | client/src/pages/BookingsPage.jsx:11-22 | After a failed load the list is empty and loading has ended. |
| BookingsPage.Page.CancelBooking | client/src/pages/BookingsPage.jsx:24-35 | Declining sends nothing and changes nothing. Success filters out that id. Failure keeps the list and shows the failure toast. |
| ReviewSystem.Normalise | client/src/ReviewSystem.jsx:15 | `data.reviews` if it is an array, else `data` if it is an array, else no reviews. |
| ReviewSystem.Loaded | client/src/ReviewSystem.jsx:12-19 | A failed load shows no reviews; otherwise the normalised body. |
| ReviewSystem.LoadsRouteAnswer | client/src/ReviewSystem.jsx:13-15 | When the review route answers, the box lists exactly that place's reviews, newest first. |
| ReviewSystem.StarsAsWritten | client/src/ReviewSystem.jsx:88-93 | The row renders exactly for a rating from 0 to 5, with that many filled stars and the rest of five empty. |
| ReviewSystem.RatingSixBreaksList | client/src/ReviewSystem.jsx:88-93 | A rating of 6, which the route stores, is listed and cannot be rendered. |
| ReviewSystem.StarCounts | client/src/ReviewSystem.jsx:88-93 | Always five stars in all; it agrees with the code for 0 to 5, and clamps otherwise. |
| ReviewSystem.SubmittedReviewRenders | client/src/ReviewSystem.jsx:32 | A review this box submits is stored with a rating that renders as `StarCounts` says. |
| ReviewSystem.Box.constructor | client/src/ReviewSystem.jsx:6-9 | No reviews, empty text, and no rating or hover. |
| ReviewSystem.Box.OnLoad | client/src/ReviewSystem.jsx:12-19 | The list becomes `Loaded` of the answer. |
| ReviewSystem.Box.ClickStar | client/src/ReviewSystem.jsx:57-65 | Clicking star `k` sets the rating to `k`. |
| ReviewSystem.Box.SetHover | client/src/ReviewSystem.jsx:61-62 | Entering or leaving a star sets the hover. |
| ReviewSystem.Box.SetText | client/src/ReviewSystem.jsx:72 | The text becomes the input. |
| ReviewSystem.Box.SubmitReview | client/src/ReviewSystem.jsx:21-32 | Rating 0 is rejected first, then blank or white-space text, and neither sends anything. Otherwise place, text and a rating from 1 to 5 are sent, together with the list the handler captured. |
| ReviewSystem.Box.OnSubmitReply | client/src/ReviewSystem.jsx:32-39 | Success shows the returned review before the list captured when the request was sent, not the list shown when the answer arrives, and resets the text to `''` and the rating to 0. Failure changes nothing but the toast. |
| ReviewSystem.Box.DeleteReview | client/src/ReviewSystem.jsx:42-50 | Success shows the list captured when the handler started, without the reviews with that id and with the others in order; a load or submit that finished meanwhile is overwritten. Failure changes nothing but the toast. |
| ReviewSystem.FilledPrefix | client/src/ReviewSystem.jsx:60 | The filled stars of the picker are a prefix: if star `k` is filled, so is every lower star. |
| Server.EmailPattern | api/index.js:84-85 | The whole address is one or more characters other than white space and `@`, then `@`, then such characters, a dot, and such characters. |
| Server.EmailTaken | api/index.js:93-94 | `findOne({ email })` finds a user: some stored address equals the submitted one exactly, letter case included. |
| Server.PriceRejected | api/index.js:211 | A price is refused exactly when it is given and is not a number or is negative. |
| Server.Mentions | api/index.js:284-291 | The `$or` of the search: the title, the address or the description is set and contains the query, ignoring case. |
| Text.Trim | api/index.js:81 | `trim()` is never longer than its input; `TrimShape` proves what it removes. |
| Text.TrimStart | api/index.js:81 | Drops the leading white space and is never longer than its input; `TrimStartShape` proves it is a suffix whose dropped part is all white space. |
| Text.TrimEnd | api/index.js:81 | Drops the trailing white space and is never longer than its input; `TrimEndShape` proves it is a prefix whose dropped part is all white space. |
| Text.TrimStartShape | api/index.js:81 | The result of `TrimStart` is a suffix of its input, what it drops is all white space, and it does not start with white space. |
| Text.TrimEndShape | api/index.js:81 | The result of `TrimEnd` is a prefix of its input, what it drops is all white space, and it does not end with white space. |
| Text.Lower | api/index.js:100 | `toLowerCase()`: the same length, each character lower-cased on its own. |
| Text.ContainsIgnoringCase | api/index.js:284 | The regular expression built with flag `i` matches, read as a literal pattern: the lower-cased query occurs in the lower-cased field. |
| Lists.FirstIndex | api/index.js:117 | `findOne`/`findById`: the index of the first element with the key, or none exactly when no element has it. |
| Lists.Filter | api/index.js:230 | `find` with a condition: every kept element is in the list and passes, every passing element is kept, and the result is no longer. |
| Lists.RemoveKey | client/src/pages/BookingsPage.jsx:30 | `filter(b => b._id !== id)`: every remaining element is from the list and has another key, and every element with another key remains. |
| Text.TrimShape | api/index.js:81 | `trim()` leaves no white space at either end. It is empty exactly for an all-white-space string, and it changes nothing already trimmed. |
| Text.TrimIdempotent | api/index.js:283 | Trimming twice is trimming once. |
| Lists.FilterMembers | api/index.js:230 | An element is kept exactly when it is in the list and passes the test. |
| Lists.FilterCommute | api/index.js:330 | Two filters can be applied in either order. |
| Lists.RemoveUniqueKey | api/index.js:345 | When one element has the id, the filter by id removes exactly that index. |

## Left out

- Uploads (`/upload-by-link`, `/upload`, `api/index.js:168-197`) are left out: they are file and network input/output.
- The rate limiter, CORS, cookie parsing, static serving, the database connection, `app.listen`, `/test` and `/logout` are left out: they are framework wiring.
- The 500 answers are left out. These are a failed `jwt.sign` and a failed database call. The model has no persistence failures.
- Registration's 422 `registration_failed` fallback (`api/index.js:104-106`) is left out for the same reason: it answers a failed database call.
- Regular-expression search is left out. Search is a literal substring test, so metacharacters and invalid patterns (which throw, giving 500) are not modelled.
- Case-insensitivity is ASCII only: there is no Unicode case folding. Lengths count Dafny characters, not UTF-16 code units.
- Mongoose schema casting and defaults are left out, except a review's date. `api/models/user.js`, `api/models/place.js` and `api/models/booking.js` are not part of this model. As a result, unique indexes, the casting of a non-numeric price or rating, and `populate` of a missing place are modelled as lookups only.
- The proofs do not rely on the server's behaviour for the case where bcrypt maps two passwords to one digest. The property "the stored credential never equals the plaintext" is about bcrypt itself, so it is not stated.
- Server.RegisterGuard: body fields are taken to be strings or absent. The `typeof name !== 'string'` half of the `invalid_name` test (`api/index.js:81`) is not modelled, nor is a non-string e-mail or password: a numeric password skips the length check at `api/index.js:88`, and a non-string login e-mail makes `toLowerCase()` throw at `api/index.js:117`, giving the 500 `server_error`.
- Each route runs as one atomic step. The source awaits between a check and its write: `findOne` and `create` at `api/index.js:93-98`, `findById` and `save` at `api/index.js:261-273`, `findById` and `findByIdAndDelete` at `api/index.js:339-346`. So two concurrent registrations of one address can both pass the duplicate check; `LowercaseDuplicateRejected` and the other multi-step lemmas hold for requests handled one after another.
- The debounce timer of the home page and the toast timers are left out: they are timer-driven. `Settle` stands for the moment the debounce fires.
- `HandleSearch`: clearing a pending timer is not modelled.
- Rendering is left out. The only rendering conditions modelled are the widget's total label, the star fill and a listed review's stars.
- `BookingWidget.Request`: the nightly price is taken to be a number. An undefined `place.price` would post `NaN`, which JSON sends as `null`.
- `ReviewSystem.StarsAsWritten`: ratings are integers, so a fractional rating (which also throws a `RangeError`) is not modelled.
- The login and place pages, the layout and footer, the image component and `BookingPlace.jsx` are left out: they are presentational or only look up by id.

## Findings

| source | as written | input that shows it | evidently intended | confidence | as-written member | corrected member |
|---|---|---|---|---|---|---|
| client/src/ReviewSystem.jsx:88-93 | `[...Array(review.rating)]` then `[...Array(5 - review.rating)]`, for any stored rating | a review posted with rating 6 (the route at `api/routes/reviewRoutes.js:17-20` stores it unchecked): `Array(-1)` throws a `RangeError` and the review list fails to render | every listed review shows five stars, with the rating clamped to 0..5 | not executed | ReviewSystem.StarsAsWritten, ReviewSystem.RatingSixBreaksList | ReviewSystem.StarCounts |
