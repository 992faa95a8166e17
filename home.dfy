/**
 * The home page: up to four featured events from the catalogue, the
 * provenance flag, and the testimonial carousel with its wrap-around index.
 */
module Home {
  import opened JsLib
  import opened EventsData
  import Api

  // ---------------------------------------------------------------------------
  // Featured events
  // ---------------------------------------------------------------------------

  /** `e.featured` is truthy: present and true. */
  predicate IsFeatured(e: Event) {
    e.featured == Some(true)
  }

  /** `events.filter((e) => e.featured).slice(0, 4)`. */
  function FeaturedEvents(events: seq<Event>): (r: seq<Event>)
    ensures |r| <= 4
  {
    Take(Filter(events, IsFeatured), 4)
  }

  /**
   * The featured list holds featured catalogue events only, in catalogue
   * order: the first four of them, or all when there are at most four.
   */
  lemma FeaturedEventsSpec(events: seq<Event>)
    ensures forall e :: e in FeaturedEvents(events) ==> e in events && IsFeatured(e)
    ensures Subsequence(FeaturedEvents(events), events)
    ensures FeaturedEvents(events) <= Filter(events, IsFeatured)
    ensures |FeaturedEvents(events)| == Min(4, |Filter(events, IsFeatured)|)
  {
    var f := Filter(events, IsFeatured);
    FilterIsSubsequence(events, IsFeatured);
    PrefixOfSubsequence(f, events, Min(4, |f|));
    assert FeaturedEvents(events) == f[..Min(4, |f|)];
    forall e | e in FeaturedEvents(events) ensures e in f {
    }
  }

  /**
   * A list whose first `m` entries are featured and whose other entries are
   * not has exactly those `m` entries as its featured part.
   */
  lemma {:induction false} FeaturedPrefix(events: seq<Event>, m: nat)
    requires m <= |events|
    requires forall i :: 0 <= i < m ==> IsFeatured(events[i])
    requires forall i :: m <= i < |events| ==> !IsFeatured(events[i])
    ensures Filter(events, IsFeatured) == events[..m]
    decreases |events|
  {
    if events != [] {
      var rest := events[1..];
      if m > 0 {
        FeaturedPrefix(rest, m - 1);
        assert events[..m] == [events[0]] + rest[..m - 1];
      } else {
        FeaturedPrefix(rest, 0);
      }
    }
  }

  /** On a remote catalogue of `n` events the featured list is its first min(4, n) events. */
  lemma RemoteFeatured(data: seq<Api.APIEvent>)
    ensures FeaturedEvents(Api.FetchEvents(Api.RemoteOk(data)).events)
         == Api.FetchEvents(Api.RemoteOk(data)).events[..Min(4, |data|)]
  {
    var events := Api.FetchEvents(Api.RemoteOk(data)).events;
    FeaturedPrefix(events, Min(4, |data|));
  }

  /** A catalogue whose first four events, and only those, are featured. */
  lemma FirstFourFeatured(events: seq<Event>)
    requires |events| >= 4
    requires forall i :: 0 <= i < |events| ==> events[i].featured == (if i < 4 then Some(true) else None)
    ensures FeaturedEvents(events) == events[..4]
  {
    FeaturedPrefix(events, 4);
  }

  /** On the fallback catalogue the featured list is its first four events. */
  lemma FallbackFeatured()
    ensures FeaturedEvents(DummyEvents) == DummyEvents[..4]
  {
    DummyEventsIds();
    DummyEventsFeatured();
    FirstFourFeatured(DummyEvents);
  }

  // ---------------------------------------------------------------------------
  // The testimonial carousel
  // ---------------------------------------------------------------------------

  /** `(prev + 1) % n`. */
  function NextIndex(k: int, n: int): (r: int)
    requires n > 0
    ensures k >= -1 ==> 0 <= r < n
  {
    JsRem(k + 1, n)
  }

  /** `(prev - 1 + n) % n`. */
  function PrevIndex(k: int, n: int): (r: int)
    requires n > 0
    ensures k >= 1 - n ==> 0 <= r < n
  {
    JsRem(k - 1 + n, n)
  }

  /** On an index in [0, n), the forward step moves one place, wrapping from the last to 0. */
  lemma NextStep(k: int, n: int)
    requires n > 0 && 0 <= k < n
    ensures NextIndex(k, n) == if k == n - 1 then 0 else k + 1
  {
    if k == n - 1 {
      RemSelf(n);
    } else {
      RemBelow(k + 1, n);
    }
  }

  /** On an index in [0, n), the backward step moves one place, wrapping from 0 to the last. */
  lemma PrevStep(k: int, n: int)
    requires n > 0 && 0 <= k < n
    ensures PrevIndex(k, n) == if k == 0 then n - 1 else k - 1
  {
    if k == 0 {
      RemBelow(n - 1, n);
    } else {
      RemWrap(k - 1, n);
    }
  }

  /** On indexes in [0, n) each step undoes the other. */
  lemma CarouselStepsInverse(k: int, n: int)
    requires n > 0 && 0 <= k < n
    ensures PrevIndex(NextIndex(k, n), n) == k
    ensures NextIndex(PrevIndex(k, n), n) == k
  {
    NextStep(k, n);
    PrevStep(k, n);
    PrevStep(NextIndex(k, n), n);
    NextStep(PrevIndex(k, n), n);
  }

  lemma RemBelow(a: int, n: int)
    requires 0 <= a < n
    ensures a % n == a
  {
  }

  lemma RemSelf(n: int)
    requires n > 0
    ensures n % n == 0
  {
  }

  lemma RemWrap(a: int, n: int)
    requires 0 <= a < n
    ensures (a + n) % n == a
  {
  }

  // ---------------------------------------------------------------------------
  // The page state
  // ---------------------------------------------------------------------------

  class Page {
    var events: seq<Event>
    var isFromAPI: bool
    var currentTestimonial: int

    /** The carousel index always names a testimonial. */
    predicate Valid()
      reads this
    {
      0 <= currentTestimonial < |Testimonials|
    }

    constructor ()
      ensures events == [] && isFromAPI && currentTestimonial == 0
      ensures Valid()
    {
      events := [];
      isFromAPI := true;
      currentTestimonial := 0;
    }

    /** The catalogue fetch resolves. */
    method Load(remote: Api.RemoteEvents)
      modifies this
      ensures events == Api.FetchEvents(remote).events
      ensures isFromAPI == Api.FetchEvents(remote).isFromAPI
      ensures currentTestimonial == old(currentTestimonial)
    {
      var catalog := Api.FetchEvents(remote);
      events := catalog.events;
      isFromAPI := catalog.isFromAPI;
    }

    /** The featured events shown for the current catalogue. */
    function Featured(): seq<Event>
      reads this
    {
      FeaturedEvents(events)
    }

    method NextTestimonial()
      requires Valid()
      modifies this
      ensures currentTestimonial == NextIndex(old(currentTestimonial), |Testimonials|)
      ensures events == old(events) && isFromAPI == old(isFromAPI)
      ensures Valid()
    {
      currentTestimonial := (currentTestimonial + 1) % |Testimonials|;
    }

    method PrevTestimonial()
      requires Valid()
      modifies this
      ensures currentTestimonial == PrevIndex(old(currentTestimonial), |Testimonials|)
      ensures events == old(events) && isFromAPI == old(isFromAPI)
      ensures Valid()
    {
      currentTestimonial := (currentTestimonial - 1 + |Testimonials|) % |Testimonials|;
    }
  }
}
