/**
 * The signed-in user's bookings page: the list loaded from `GET /bookings`, and cancelling a
 * booking from it with `DELETE /bookings/:id`.
 */
module BookingsPage {
  import opened Wrappers
  import opened Client
  import Lists
  import Server
  import ServerProperties

  const Cancelled := "Booking cancelled successfully"
  const CancelFailed := "Failed to cancel booking"

  function ViewId(v: Server.BookingView): Server.Id { v.booking.id }

  /** Joining places in commutes with dropping a booking id. */
  lemma {:induction false} ViewsRemoveKey(places: seq<Server.Place>, own: seq<Server.Booking>, id: Server.Id)
    ensures Server.Views(places, Lists.RemoveKey(own, Server.BookingId, id))
         == Lists.RemoveKey(Server.Views(places, own), ViewId, id)
  {
    if own != [] {
      var views := Server.Views(places, own);
      assert views[1..] == Server.Views(places, own[1..]);
      ViewsRemoveKey(places, own[1..], id);
      var kept := Lists.RemoveKey(own[1..], Server.BookingId, id);
      if own[0].id != id {
        assert Lists.RemoveKey(own, Server.BookingId, id) == [own[0]] + kept;
        assert Server.Views(places, [own[0]] + kept) == [views[0]] + Server.Views(places, kept);
      }
    }
  }

  /**
   * After a cancel the server accepts, the page's list with that id filtered out is exactly what
   * `GET /bookings` would now return.
   */
  lemma CancelMatchesServer(db: Server.Db, token: Server.Token, id: Server.Id)
    requires Server.ValidDb(db)
    requires Server.CancelBookingSpec(db, token, id).reply.Ok?
    ensures
      var after := Server.CancelBookingSpec(db, token, id).db;
      && Server.ListBookingsSpec(db, token).Ok?
      && Server.ListBookingsSpec(after, token)
         == Server.Ok(Lists.RemoveKey(Server.ListBookingsSpec(db, token).value, ViewId, id))
  {
    var c := token.claims;
    ServerProperties.CancelRemovesExactlyOne(db, token, id);
    Lists.FilterCommute(db.bookings, Lists.KeyIsNot(Server.BookingId, id), Server.BookedBy(c.id));
    ViewsRemoveKey(db.places, Lists.Filter(db.bookings, Server.BookedBy(c.id)), id);
  }

  /** The page's state. */
  class Page {
    var bookings: seq<Server.BookingView>
    var loading: bool
    var notice: Option<Notice>

    constructor ()
      ensures bookings == [] && loading && notice == None
    {
      bookings, loading, notice := [], true, None;
    }

    /** The load on mount settles: the answer is kept, or on failure the list stays as it was. */
    method OnLoad(reply: Reply<seq<Server.BookingView>>)
      modifies this
      ensures !loading
      ensures bookings == (if reply.Resolved? then reply.data else old(bookings))
      ensures notice == old(notice)
    {
      if reply.Resolved? {
        bookings := reply.data;
      }
      loading := false;
    }

    /**
     * `cancelBooking`: `confirmed` is the answer to the confirmation dialog and `reply` the answer
     * the delete request gets if it is sent. A success drops that booking and keeps the rest in
     * order; a failure only raises a toast.
     */
    method CancelBooking(id: Server.Id, confirmed: bool, reply: Reply<bool>) returns (sent: bool)
      modifies this
      ensures sent == confirmed
      ensures !confirmed ==> bookings == old(bookings) && notice == old(notice)
      ensures confirmed && reply.Resolved? ==>
        bookings == Lists.RemoveKey(old(bookings), ViewId, id) && notice == Some(Success(Cancelled))
      ensures confirmed && reply.Rejected? ==>
        bookings == old(bookings) && notice == Some(Failure(CancelFailed))
      ensures loading == old(loading)
    {
      if !confirmed {
        return false;
      }
      if reply.Resolved? {
        bookings := Lists.RemoveKey(bookings, ViewId, id);
        notice := Some(Success(Cancelled));
      } else {
        notice := Some(Failure(CancelFailed));
      }
      return true;
    }
  }

  /** Mounting the page and loading: a failed load leaves an empty list and no spinner. */
  method Mount(reply: Reply<seq<Server.BookingView>>) returns (p: Page)
    ensures fresh(p) && !p.loading
    ensures p.bookings == (if reply.Resolved? then reply.data else [])
  {
    p := new Page();
    p.OnLoad(reply);
  }

  /** A cancel drops the bookings with that id and keeps the others in their order. */
  lemma CancelKeepsOrder(front: seq<Server.BookingView>, v: Server.BookingView, back: seq<Server.BookingView>)
    ensures Lists.RemoveKey(front + [v] + back, ViewId, v.booking.id)
         == Lists.RemoveKey(front, ViewId, v.booking.id) + Lists.RemoveKey(back, ViewId, v.booking.id)
  {
    var id := v.booking.id;
    Lists.RemoveKeyAppend(front + [v], back, ViewId, id);
    Lists.RemoveKeyAppend(front, [v], ViewId, id);
    assert Lists.RemoveKey([v], ViewId, id) == [];
  }
}
