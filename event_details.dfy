/**
 * The event detail page: the event found by its slug, up to three related
 * events of the same category, the spots still free, the booking total, and
 * the Book-Now button, which sends a signed-out visitor to the sign-in page
 * after remembering where to come back to.
 */
module EventDetails {
  import opened JsLib
  import opened EventsData
  import opened AuthStore
  import Api

  // ---------------------------------------------------------------------------
  // Related events
  // ---------------------------------------------------------------------------

  /** Same category as the displayed event, but not the displayed event itself (by id). */
  predicate IsRelated(e: Event, shown: Event) {
    e.category == shown.category && e.id != shown.id
  }

  /** All catalogue events related to `shown`, in catalogue order. */
  function Candidates(events: seq<Event>, shown: Event): seq<Event> {
    Filter(events, (e: Event) => IsRelated(e, shown))
  }

  /** `events.filter(...).slice(0, 3)`. */
  function RelatedEvents(events: seq<Event>, shown: Event): (r: seq<Event>)
    ensures |r| <= 3
  {
    Take(Candidates(events, shown), 3)
  }

  /**
   * The related list holds catalogue events of the same category and a
   * different id, in catalogue order; it is the first three such events, and
   * all of them when there are at most three; it never holds the displayed
   * event.
   */
  lemma RelatedEventsSpec(events: seq<Event>, shown: Event)
    ensures forall e :: e in RelatedEvents(events, shown) ==> e in events && IsRelated(e, shown)
    ensures shown !in RelatedEvents(events, shown)
    ensures Subsequence(RelatedEvents(events, shown), events)
    ensures RelatedEvents(events, shown) <= Candidates(events, shown)
    ensures |RelatedEvents(events, shown)| == Min(3, |Candidates(events, shown)|)
    ensures forall e :: e in events && IsRelated(e, shown) && |Candidates(events, shown)| <= 3
                        ==> e in RelatedEvents(events, shown)
  {
    var c := Candidates(events, shown);
    FilterIsSubsequence(events, (e: Event) => IsRelated(e, shown));
    PrefixOfSubsequence(c, events, Min(3, |c|));
    assert RelatedEvents(events, shown) == c[..Min(3, |c|)];
    forall e | e in RelatedEvents(events, shown) ensures e in c {
    }
  }

  // ---------------------------------------------------------------------------
  // Figures shown on the page
  // ---------------------------------------------------------------------------

  /** The flat service fee added to a single ticket in the booking dialog. */
  const ServiceFee: int := 5

  /** `event.maxAttendees - event.attendees`. */
  function SpotsLeft(e: Event): int {
    e.maxAttendees - e.attendees
  }

  /** With the capacity invariant, the number of free spots lies between 0 and the capacity. */
  lemma SpotsLeftBounds(e: Event)
    requires WellFormed(e)
    ensures 0 <= SpotsLeft(e) <= e.maxAttendees
    ensures SpotsLeft(e) + e.attendees == e.maxAttendees
  {
  }

  /** A remote event at position `i` has 150 + 20i free spots. */
  lemma RemoteSpotsLeft(a: Api.APIEvent, i: nat)
    ensures SpotsLeft(Api.TransformAPIEvent(a, i)) == 150 + 20 * i
  {
  }

  /** The dialog total: one ticket at the event's price plus the service fee. */
  function BookingTotal(e: Event): int {
    e.price + ServiceFee
  }

  /** Every catalogue event costs at least the fee, and a remote event at position `i` costs 104 + 50i. */
  lemma BookingTotalBounds(e: Event, a: Api.APIEvent, i: nat)
    ensures WellFormed(e) ==> BookingTotal(e) >= ServiceFee
    ensures BookingTotal(Api.TransformAPIEvent(a, i)) == 104 + 50 * i
  {
  }

  // ---------------------------------------------------------------------------
  // Book Now
  // ---------------------------------------------------------------------------

  /** A template literal shows a missing value as "undefined". */
  function TemplateText(slug: Option<string>): string {
    if slug.Some? then slug.value else "undefined"
  }

  /** The store, the dialog flag and the navigation after pressing Book Now. */
  datatype BookNow = BookNow(state: AuthState, showBookingModal: bool, navigateTo: Option<string>)

  /**
   * `handleBookNow`: a signed-out visitor gets the return address
   * "/events/<slug>" and is sent to "/login" with the dialog left as it was;
   * a signed-in visitor gets the dialog, and the store is untouched.
   */
  function BookNowStep(s: AuthState, showBookingModal: bool, slug: Option<string>): (r: BookNow)
    ensures !s.isAuthenticated ==>
      && r.state == WithReturnUrl(s, Some("/events/" + TemplateText(slug)))
      && r.navigateTo == Some("/login")
      && r.showBookingModal == showBookingModal
    ensures s.isAuthenticated ==> r.state == s && r.showBookingModal && r.navigateTo == None
  {
    if !s.isAuthenticated then BookNow(WithReturnUrl(s, Some("/events/" + TemplateText(slug))), showBookingModal, Some("/login"))
    else BookNow(s, true, None)
  }

  /** Book Now never signs anyone in or out, and keeps the session invariant. */
  lemma BookNowKeepsSession(s: AuthState, showBookingModal: bool, slug: Option<string>)
    ensures BookNowStep(s, showBookingModal, slug).state.user == s.user
    ensures BookNowStep(s, showBookingModal, slug).state.token == s.token
    ensures BookNowStep(s, showBookingModal, slug).state.isAuthenticated == s.isAuthenticated
    ensures Consistent(s) ==> Consistent(BookNowStep(s, showBookingModal, slug).state)
  {
  }

  // ---------------------------------------------------------------------------
  // The page state
  // ---------------------------------------------------------------------------

  /** The state of the detail page for the route parameter `slug`. */
  class Page {
    const slug: Option<string>
    var event: Option<Event>
    var relatedEvents: seq<Event>
    var isLoading: bool
    var showBookingModal: bool
    var isBooking: bool

    constructor (slug: Option<string>)
      ensures this.slug == slug
      ensures event == None && relatedEvents == [] && isLoading
      ensures !showBookingModal && !isBooking
    {
      this.slug := slug;
      event := None;
      relatedEvents := [];
      isLoading := true;
      showBookingModal := false;
      isBooking := false;
    }

    /**
     * The callback of the two fetches: store the looked-up event, recompute
     * the related list only when the lookup found it, and stop loading.
     */
    method Receive(eventData: Option<Event>, events: seq<Event>)
      modifies this
      ensures event == eventData && !isLoading
      ensures eventData.Some? ==> relatedEvents == RelatedEvents(events, eventData.value)
      ensures eventData.None? ==> relatedEvents == old(relatedEvents)
      ensures showBookingModal == old(showBookingModal) && isBooking == old(isBooking)
    {
      event := eventData;
      if eventData.Some? {
        relatedEvents := RelatedEvents(events, eventData.value);
      }
      isLoading := false;
    }

    /**
     * The load effect. Without a slug nothing happens. Otherwise the lookup
     * and the catalogue come from two separate fetches; the related list is
     * recomputed only when the lookup found the event.
     */
    method Load(lookup: Api.RemoteEvents, listing: Api.RemoteEvents)
      modifies this
      ensures slug.None? || slug.value == "" ==>
        event == old(event) && relatedEvents == old(relatedEvents) && isLoading == old(isLoading)
      ensures slug.Some? && slug.value != "" ==>
        && event == Api.FetchEventBySlug(slug.value, lookup)
        && !isLoading
        && (event.Some? ==> relatedEvents == RelatedEvents(Api.FetchEvents(listing).events, event.value))
        && (event.None? ==> relatedEvents == old(relatedEvents))
      ensures showBookingModal == old(showBookingModal) && isBooking == old(isBooking)
    {
      if slug.None? || slug.value == "" {
        return;
      }
      isLoading := true;
      Receive(Api.FetchEventBySlug(slug.value, lookup), Api.FetchEvents(listing).events);
    }

    /** `handleBookNow`, returning where the page navigates. */
    method HandleBookNow(store: Store) returns (navigateTo: Option<string>)
      modifies this, store
      ensures BookNow(store.State(), showBookingModal, navigateTo)
           == BookNowStep(old(store.State()), old(showBookingModal), slug)
      ensures event == old(event) && relatedEvents == old(relatedEvents)
      ensures isLoading == old(isLoading) && isBooking == old(isBooking)
    {
      if !store.isAuthenticated {
        store.SetReturnUrl(Some("/events/" + TemplateText(slug)));
        navigateTo := Some("/login");
        return;
      }
      showBookingModal := true;
      navigateTo := None;
    }

    /** `confirmBooking`: the dialog closes and the page goes to the booking list. */
    method ConfirmBooking() returns (navigateTo: string)
      modifies this
      ensures !isBooking && !showBookingModal
      ensures navigateTo == "/dashboard/bookings"
      ensures event == old(event) && relatedEvents == old(relatedEvents) && isLoading == old(isLoading)
    {
      isBooking := true;
      isBooking := false;
      showBookingModal := false;
      navigateTo := "/dashboard/bookings";
    }
  }
}
