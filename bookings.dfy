/**
 * The bookings page: the user's bookings, the two views that split them by
 * status, the per-booking line total, and the cancellation flow (select a
 * booking, confirm, and the booking with that id becomes cancelled).
 */
module Bookings {
  import opened JsLib

  datatype Status = Confirmed | Pending | Cancelled

  datatype Booking = Booking(
    id: string,
    title: string,
    date: string,
    time: string,
    location: string,
    image: string,
    status: Status,
    price: int,
    ticketCount: int)

  /** The bookings the page starts with. */
  const MockBookings: seq<Booking> := [
    Booking("1", "Summer Gala 2024", "Jul 15, 2024", "7:00 PM", "The Ritz-Carlton, New York",
            "https://images.unsplash.com/photo-1540575467063-178a50c2df87?w=400&q=80",
            Confirmed, 350, 2),
    Booking("2", "Tech Innovation Summit", "Aug 22, 2024", "9:00 AM", "Silicon Valley Convention Center",
            "https://images.unsplash.com/photo-1505373877841-8d25f7d46678?w=400&q=80",
            Confirmed, 499, 1),
    Booking("3", "Jazz Night: An Exclusive Evening", "Jul 5, 2024", "8:00 PM", "The Blue Note, Chicago",
            "https://images.unsplash.com/photo-1514320291840-2e0a9bf2a9ae?w=400&q=80",
            Pending, 150, 2),
    Booking("4", "Vintage Wine Tasting Experience", "Jun 28, 2024", "6:00 PM", "Château de Lumière, Napa Valley",
            "https://images.unsplash.com/photo-1510812431401-41d2bd2722f3?w=400&q=80",
            Cancelled, 175, 1)
  ]

  // ---------------------------------------------------------------------------
  // Cancellation
  // ---------------------------------------------------------------------------

  /**
   * `bookings.map((b) => b.id === id ? { ...b, status: 'cancelled' } : b)`:
   * every booking with the given id becomes cancelled, in place in the list;
   * every other booking, and every other field, is unchanged.
   */
  function CancelById(bookings: seq<Booking>, id: string): (r: seq<Booking>)
    ensures |r| == |bookings|
    ensures forall i :: 0 <= i < |bookings| ==>
      r[i] == if bookings[i].id == id then bookings[i].(status := Cancelled) else bookings[i]
    decreases |bookings|
  {
    if bookings == [] then []
    else
      var b := bookings[0];
      [if b.id == id then b.(status := Cancelled) else b] + CancelById(bookings[1..], id)
  }

  /** After a cancel, the bookings with that id are cancelled and the ids are those of before. */
  lemma CancelSpec(bookings: seq<Booking>, id: string)
    ensures forall i :: 0 <= i < |bookings| ==> CancelById(bookings, id)[i].id == bookings[i].id
    ensures forall b :: b in CancelById(bookings, id) && b.id == id ==> b.status == Cancelled
    ensures forall i :: 0 <= i < |bookings| && bookings[i].id != id ==> CancelById(bookings, id)[i] == bookings[i]
  {
  }

  /** Cancelling twice is cancelling once. */
  lemma CancelIdempotent(bookings: seq<Booking>, id: string)
    ensures CancelById(CancelById(bookings, id), id) == CancelById(bookings, id)
  {
  }

  /** Cancelling a booking that is already cancelled leaves the list unchanged. */
  lemma CancelAlreadyCancelled(bookings: seq<Booking>, id: string)
    requires forall b :: b in bookings && b.id == id ==> b.status == Cancelled
    ensures CancelById(bookings, id) == bookings
  {
    forall i | 0 <= i < |bookings|
      ensures CancelById(bookings, id)[i] == bookings[i]
    {
      assert bookings[i] in bookings;
    }
  }

  // ---------------------------------------------------------------------------
  // The two views
  // ---------------------------------------------------------------------------

  predicate IsActive(b: Booking) {
    b.status != Cancelled
  }

  predicate IsCancelled(b: Booking) {
    b.status == Cancelled
  }

  /** `bookings.filter((b) => b.status !== 'cancelled')`. */
  function ActiveBookings(bookings: seq<Booking>): (r: seq<Booking>)
    ensures forall b :: b in r <==> b in bookings && b.status != Cancelled
  {
    Filter(bookings, IsActive)
  }

  /** `bookings.filter((b) => b.status === 'cancelled')`. */
  function CancelledBookings(bookings: seq<Booking>): (r: seq<Booking>)
    ensures forall b :: b in r <==> b in bookings && b.status == Cancelled
  {
    Filter(bookings, IsCancelled)
  }

  /** The lengths of the two views add up to the length of the list. */
  lemma ViewsLength(bookings: seq<Booking>)
    ensures |ActiveBookings(bookings)| + |CancelledBookings(bookings)| == |bookings|
  {
    FilterSplitsLength(bookings, IsCancelled, IsActive);
  }

  /**
   * The two views partition the list: each keeps list order, their lengths
   * add up to the total, and together they hold every booking exactly as
   * often as the list does.
   */
  lemma ViewsPartition(bookings: seq<Booking>)
    ensures |ActiveBookings(bookings)| + |CancelledBookings(bookings)| == |bookings|
    ensures Subsequence(ActiveBookings(bookings), bookings)
    ensures Subsequence(CancelledBookings(bookings), bookings)
    ensures multiset(ActiveBookings(bookings)) + multiset(CancelledBookings(bookings)) == multiset(bookings)
  {
    ViewsLength(bookings);
    FilterIsSubsequence(bookings, IsActive);
    FilterIsSubsequence(bookings, IsCancelled);
    FilterMultiset(bookings, IsActive);
    FilterMultiset(bookings, IsCancelled);
    assert multiset(ActiveBookings(bookings)) + multiset(CancelledBookings(bookings)) == multiset(bookings);
  }

  /** A cancel by an id no booking carries changes nothing. */
  lemma {:induction false} CancelAbsent(bookings: seq<Booking>, id: string)
    requires forall i :: 0 <= i < |bookings| ==> bookings[i].id != id
    ensures CancelById(bookings, id) == bookings
  {
    forall i | 0 <= i < |bookings|
      ensures CancelById(bookings, id)[i] == bookings[i]
    {
    }
  }

  /** The active view of a non-empty list counts its first booking, then the rest. */
  lemma ActiveCount(bookings: seq<Booking>)
    requires bookings != []
    ensures |ActiveBookings(bookings)|
         == (if IsActive(bookings[0]) then 1 else 0) + |ActiveBookings(bookings[1..])|
  {
    FilterCons(bookings, IsActive);
  }

  /** Cancelling the one active booking that carries an id shrinks the active view by one. */
  lemma {:induction false} CancelShrinksActive(bookings: seq<Booking>, id: string, k: nat)
    requires k < |bookings| && bookings[k].id == id && IsActive(bookings[k])
    requires forall j :: 0 <= j < |bookings| && bookings[j].id == id ==> j == k
    ensures |ActiveBookings(CancelById(bookings, id))| == |ActiveBookings(bookings)| - 1
    decreases |bookings|
  {
    var rest := bookings[1..];
    var after := CancelById(bookings, id);
    assert after[1..] == CancelById(rest, id);
    ActiveCount(bookings);
    ActiveCount(after);
    if k == 0 {
      CancelAbsent(rest, id);
    } else {
      CancelShrinksActive(rest, id, k - 1);
    }
  }

  /**
   * Cancelling the one active booking that carries an id moves it from the
   * active view to the cancelled view.
   */
  lemma CancelMovesOne(bookings: seq<Booking>, id: string, k: nat)
    requires k < |bookings| && bookings[k].id == id && IsActive(bookings[k])
    requires forall j :: 0 <= j < |bookings| && bookings[j].id == id ==> j == k
    ensures |ActiveBookings(CancelById(bookings, id))| == |ActiveBookings(bookings)| - 1
    ensures |CancelledBookings(CancelById(bookings, id))| == |CancelledBookings(bookings)| + 1
  {
    CancelShrinksActive(bookings, id, k);
    ViewsLength(bookings);
    ViewsLength(CancelById(bookings, id));
  }

  // ---------------------------------------------------------------------------
  // Line totals
  // ---------------------------------------------------------------------------

  /** The amount shown on a booking: unit price times the number of tickets. */
  function LineTotal(b: Booking): (total: int)
    ensures b.price >= 0 && b.ticketCount >= 1 ==> total >= b.price
    ensures b.ticketCount == 1 ==> total == b.price
  {
    b.price * b.ticketCount
  }

  /** No tickets cost nothing, and each further ticket adds the unit price. */
  lemma LineTotalPerTicket(b: Booking)
    ensures LineTotal(b.(ticketCount := 0)) == 0
    ensures LineTotal(b.(ticketCount := b.ticketCount + 1)) == LineTotal(b) + b.price
  {
  }

  /** A list of three active bookings followed by a cancelled one: its active view. */
  lemma ThreeActiveFirst(bookings: seq<Booking>)
    requires |bookings| == 4
    requires IsActive(bookings[0]) && IsActive(bookings[1]) && IsActive(bookings[2])
    requires IsCancelled(bookings[3])
    ensures ActiveBookings(bookings) == bookings[..3]
  {
    var m := bookings;
    FilterCons(m[3..], IsActive);
    assert m[3..][1..] == [];
    FilterCons(m[2..], IsActive);
    assert m[2..][1..] == m[3..];
    FilterCons(m[1..], IsActive);
    assert m[1..][1..] == m[2..];
    FilterCons(m, IsActive);
    assert m[..3] == [m[0], m[1], m[2]];
  }

  /** A list of three active bookings followed by a cancelled one: its cancelled view. */
  lemma OneCancelledLast(bookings: seq<Booking>)
    requires |bookings| == 4
    requires IsActive(bookings[0]) && IsActive(bookings[1]) && IsActive(bookings[2])
    requires IsCancelled(bookings[3])
    ensures CancelledBookings(bookings) == bookings[3..]
  {
    var m := bookings;
    FilterCons(m[3..], IsCancelled);
    assert m[3..][1..] == [];
    FilterCons(m[2..], IsCancelled);
    assert m[2..][1..] == m[3..];
    FilterCons(m[1..], IsCancelled);
    assert m[1..][1..] == m[2..];
    FilterCons(m, IsCancelled);
  }

  /** The starting bookings: the first three are active and the last is cancelled. */
  lemma MockBookingsViews()
    ensures ActiveBookings(MockBookings) == MockBookings[..3]
    ensures CancelledBookings(MockBookings) == MockBookings[3..]
  {
    ThreeActiveFirst(MockBookings);
    OneCancelledLast(MockBookings);
  }

  /** The starting bookings have distinct ids and line totals 700, 499, 300 and 175. */
  lemma MockBookingsTotals()
    ensures forall i, j :: 0 <= i < j < |MockBookings| ==> MockBookings[i].id != MockBookings[j].id
    ensures LineTotal(MockBookings[0]) == 700 && LineTotal(MockBookings[1]) == 499
    ensures LineTotal(MockBookings[2]) == 300 && LineTotal(MockBookings[3]) == 175
  {
  }

  // ---------------------------------------------------------------------------
  // The page state
  // ---------------------------------------------------------------------------

  class Page {
    var bookings: seq<Booking>
    var cancelBooking: Option<Booking>
    var isCancelling: bool

    constructor ()
      ensures bookings == MockBookings && cancelBooking == None && !isCancelling
    {
      bookings := MockBookings;
      cancelBooking := None;
      isCancelling := false;
    }

    /** The Cancel button, which is shown on active bookings only. */
    method SelectForCancel(b: Booking)
      requires b in ActiveBookings(bookings)
      modifies this
      ensures cancelBooking == Some(b)
      ensures bookings == old(bookings) && isCancelling == old(isCancelling)
    {
      cancelBooking := Some(b);
    }

    /** "Keep Booking", or closing the dialog. */
    method Dismiss()
      modifies this
      ensures cancelBooking == None
      ensures bookings == old(bookings) && isCancelling == old(isCancelling)
    {
      cancelBooking := None;
    }

    /**
     * `handleCancel`: with nothing selected, nothing changes; otherwise the
     * bookings with the selected id become cancelled, and the dialog closes.
     */
    method HandleCancel()
      modifies this
      ensures old(cancelBooking).None? ==>
                bookings == old(bookings)
                && cancelBooking == old(cancelBooking) && isCancelling == old(isCancelling)
      ensures old(cancelBooking).Some? ==>
                bookings == CancelById(old(bookings), old(cancelBooking).value.id)
                && cancelBooking == None && !isCancelling
    {
      if cancelBooking.None? {
        return;
      }
      isCancelling := true;
      bookings := CancelById(bookings, cancelBooking.value.id);
      isCancelling := false;
      cancelBooking := None;
    }
  }
}
