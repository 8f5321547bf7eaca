/**
 * The booking box of a place page: the number of nights between the picked dates, the checks
 * made before `POST /bookings` is sent, the request it sends and what it does with the answer.
 * Dates are day numbers (an unset date input is `None`); the place's nightly price is a number.
 */
module BookingWidget {
  import opened Wrappers
  import opened Client
  import Server

  const LogInFirst := "Please log in to book a place"
  const SelectDates := "Please select check-in and check-out dates"
  const CheckOutAfterCheckIn := "Check-out must be after check-in"
  const FillInContact := "Please fill in your name and phone number"
  const Confirmed := "Booking confirmed!"
  const BookingFailed := "Booking failed. Please try again."

  /** `differenceInCalendarDays(checkOut, checkIn)` once both dates are set, else 0. */
  function NumberOfNights(checkIn: Option<int>, checkOut: Option<int>): (n: int)
    ensures checkIn.None? || checkOut.None? ==> n == 0
    ensures checkIn.Some? && checkOut.Some? ==> checkIn.value + n == checkOut.value
  {
    if checkIn.Some? && checkOut.Some? then checkOut.value - checkIn.value else 0
  }

  /** What the widget holds when the button is pressed. */
  datatype Form = Form(
    loggedIn: bool, checkIn: Option<int>, checkOut: Option<int>, guests: int,
    name: string, phone: string)

  /** The checks of `bookThisPlace`, in order: the toast of the first that fails. */
  function Problem(f: Form): (r: Option<string>)
    ensures r.None? <==>
      f.loggedIn && f.checkIn.Some? && f.checkOut.Some? && f.checkIn.value < f.checkOut.value &&
      f.name != "" && f.phone != ""
    ensures !f.loggedIn ==> r == Some(LogInFirst)
    ensures f.loggedIn && (f.checkIn.None? || f.checkOut.None?) ==> r == Some(SelectDates)
    ensures f.loggedIn && f.checkIn.Some? && f.checkOut.Some? && f.checkOut.value <= f.checkIn.value ==>
      r == Some(CheckOutAfterCheckIn)
    ensures f.loggedIn && f.checkIn.Some? && f.checkOut.Some? && f.checkIn.value < f.checkOut.value &&
      (f.name == "" || f.phone == "")
      ==> r == Some(FillInContact)
  {
    if !f.loggedIn then Some(LogInFirst)
    else if f.checkIn.None? || f.checkOut.None? then Some(SelectDates)
    else if NumberOfNights(f.checkIn, f.checkOut) <= 0 then Some(CheckOutAfterCheckIn)
    else if f.name == "" || f.phone == "" then Some(FillInContact)
    else None
  }

  /** The body `bookThisPlace` posts for the place `place` at `rate` a night. */
  function Request(f: Form, place: Server.Id, rate: int): (r: Server.BookingFields)
    ensures r.place == Some(place)
    ensures r.price == Server.Num(NumberOfNights(f.checkIn, f.checkOut) * rate)
    ensures r.checkIn == f.checkIn && r.checkOut == f.checkOut
    ensures r.name == Some(f.name) && r.phone == Some(f.phone) && r.numberOfGuests == Some(f.guests)
  {
    Server.BookingFields(
      Some(place), f.checkIn, f.checkOut, Some(f.guests), Some(f.name), Some(f.phone),
      Server.Num(NumberOfNights(f.checkIn, f.checkOut) * rate))
  }

  /**
   * Every request the widget sends is one the server accepts as far as its own checks go, as long
   * as the nightly price is not negative; and its check-out is after its check-in, which the
   * server never checks.
   */
  lemma SentRequestAccepted(f: Form, place: Server.Id, rate: int)
    requires Problem(f).None? && rate >= 0
    ensures Server.BookingGuard(Request(f, place, rate)).None?
    ensures Request(f, place, rate).checkIn.value < Request(f, place, rate).checkOut.value
  {
  }

  /** The widget's state for one place. */
  class Widget {
    const place: Server.Id
    const rate: int
    const loggedIn: bool
    var checkIn: Option<int>
    var checkOut: Option<int>
    var numberOfGuests: int
    var name: string
    var phone: string
    var redirect: Option<Server.Id>
    var notice: Option<Notice>

    function State(): Form
      reads this
    {
      Form(loggedIn, checkIn, checkOut, numberOfGuests, name, phone)
    }

    /** `user` is the signed-in user's name, if any; the effect on `user` copies it into `name`. */
    constructor (place: Server.Id, rate: int, user: Option<string>)
      ensures this.place == place && this.rate == rate && loggedIn == user.Some?
      ensures checkIn == None && checkOut == None && numberOfGuests == 1 && phone == ""
      ensures name == (if user.Some? then user.value else "")
      ensures redirect == None && notice == None
    {
      this.place, this.rate, loggedIn := place, rate, user.Some?;
      checkIn, checkOut, numberOfGuests, phone := None, None, 1, "";
      name := if user.Some? then user.value else "";
      redirect, notice := None, None;
    }

    /** The contact fields and the total are rendered only for a positive number of nights. */
    function TotalLabel(): (r: Option<int>)
      reads this
      ensures r.Some? <==> NumberOfNights(checkIn, checkOut) > 0
      ensures r.Some? ==> r.value == NumberOfNights(checkIn, checkOut) * rate
    {
      var n := NumberOfNights(checkIn, checkOut);
      if n > 0 then Some(n * rate) else None
    }

    /** The checks of `bookThisPlace`: a failure raises its toast and sends nothing. */
    method BookThisPlace() returns (request: Option<Server.BookingFields>)
      modifies this
      ensures request.None? <==> Problem(State()).Some?
      ensures request.None? ==> notice == Some(Failure(Problem(State()).value))
      ensures request.Some? ==> request.value == Request(State(), place, rate) && notice == old(notice)
      ensures State() == old(State()) && redirect == old(redirect)
    {
      if !loggedIn {
        notice := Some(Failure(LogInFirst));
        return None;
      }
      if checkIn.None? || checkOut.None? {
        notice := Some(Failure(SelectDates));
        return None;
      }
      var nights := NumberOfNights(checkIn, checkOut);
      if nights <= 0 {
        notice := Some(Failure(CheckOutAfterCheckIn));
        return None;
      }
      if name == "" || phone == "" {
        notice := Some(Failure(FillInContact));
        return None;
      }
      return Some(Server.BookingFields(
        Some(place), checkIn, checkOut, Some(numberOfGuests), Some(name), Some(phone),
        Server.Num(nights * rate)));
    }

    /** The answer: a booking redirects to its page; a failure shows the server's message. */
    method OnBookingReply(reply: Reply<Server.Booking>)
      modifies this
      ensures reply.Resolved? ==> notice == Some(Success(Confirmed)) && redirect == Some(reply.data.id)
      ensures reply.Rejected? ==>
        notice == Some(Failure(MessageOr(reply.message, BookingFailed))) && redirect == old(redirect)
      ensures State() == old(State())
    {
      match reply
      case Resolved(booking) =>
        notice := Some(Success(Confirmed));
        redirect := Some(booking.id);
      case Rejected(_, message) =>
        notice := Some(Failure(MessageOr(message, BookingFailed)));
    }
  }
}
