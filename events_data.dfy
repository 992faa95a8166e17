/**
 * The event record shape and the constant data of the client: the fallback
 * catalogue shown when the remote service is unreachable, the category list
 * and the testimonials of the home page.
 */
module EventsData {
  import opened JsLib

  datatype Organizer = Organizer(name: string, avatar: string)

  /**
   * A bookable event. Prices and attendee counts are JavaScript numbers that
   * only ever hold whole values, so they are integers here; `featured` is an
   * optional field, `None` when the record omits it.
   */
  datatype Event = Event(
    id: string,
    slug: string,
    title: string,
    date: string,
    time: string,
    description: string,
    location: string,
    category: string,
    price: int,
    image: string,
    organizer: Organizer,
    attendees: int,
    maxAttendees: int,
    featured: Option<bool>)

  /** The capacity and price invariant every catalogue entry is meant to keep. */
  predicate WellFormed(e: Event) {
    0 <= e.attendees <= e.maxAttendees && e.price >= 0
  }

  /** No two entries of a catalogue share a slug. */
  predicate UniqueSlugs(events: seq<Event>) {
    forall i, j :: 0 <= i < j < |events| ==> events[i].slug != events[j].slug
  }

  /** No two entries of a catalogue share an id. */
  predicate UniqueIds(events: seq<Event>) {
    forall i, j :: 0 <= i < j < |events| ==> events[i].id != events[j].id
  }

  // The eight entries of the fallback catalogue, in the order they are listed.
  const SummerGala: Event := Event(
    id := "1",
    slug := "summer-gala-2024",
    title := "Summer Gala 2024",
    date := "2024-07-15",
    time := "19:00",
    description := "Join us for an unforgettable evening of elegance, fine dining, and live entertainment at our annual Summer Gala. Experience world-class cuisine, networking opportunities, and performances by renowned artists in a stunning venue.",
    location := "Grand Ballroom, The Ritz-Carlton, New York",
    category := "Corporate",
    price := 350,
    image := "https://images.unsplash.com/photo-1540575467063-178a50c2df87?w=800&q=80",
    organizer := Organizer(name := "Elite Events Co.", avatar := "https://api.dicebear.com/7.x/initials/svg?seed=EE"),
    attendees := 420,
    maxAttendees := 500,
    featured := Some(true))

  const TechSummit: Event := Event(
    id := "2",
    slug := "tech-innovation-summit",
    title := "Tech Innovation Summit",
    date := "2024-08-22",
    time := "09:00",
    description := "The premier technology conference bringing together industry leaders, innovators, and visionaries. Discover the latest trends in AI, blockchain, and sustainable tech through keynotes, workshops, and hands-on demos.",
    location := "Silicon Valley Convention Center, San Francisco",
    category := "Corporate",
    price := 499,
    image := "https://images.unsplash.com/photo-1505373877841-8d25f7d46678?w=800&q=80",
    organizer := Organizer(name := "TechVentures Inc.", avatar := "https://api.dicebear.com/7.x/initials/svg?seed=TV"),
    attendees := 1200,
    maxAttendees := 1500,
    featured := Some(true))

  const WineTasting: Event := Event(
    id := "3",
    slug := "vintage-wine-tasting",
    title := "Vintage Wine Tasting Experience",
    date := "2024-06-28",
    time := "18:00",
    description := "Embark on a sensory journey through the world's finest vineyards. Sample rare vintages, learn from master sommeliers, and enjoy gourmet pairings in an intimate château setting.",
    location := "Château de Lumière, Napa Valley",
    category := "Private Parties",
    price := 175,
    image := "https://images.unsplash.com/photo-1510812431401-41d2bd2722f3?w=800&q=80",
    organizer := Organizer(name := "Vino Elite", avatar := "https://api.dicebear.com/7.x/initials/svg?seed=VE"),
    attendees := 45,
    maxAttendees := 60,
    featured := Some(true))

  const WeddingExpo: Event := Event(
    id := "4",
    slug := "luxury-wedding-expo",
    title := "Luxury Wedding Expo 2024",
    date := "2024-09-10",
    time := "10:00",
    description := "Discover your dream wedding at the most prestigious bridal showcase. Meet top designers, planners, florists, and photographers. Exclusive runway shows and complimentary champagne reception.",
    location := "The Plaza Hotel, New York",
    category := "Weddings",
    price := 75,
    image := "https://images.unsplash.com/photo-1519741497674-611481863552?w=800&q=80",
    organizer := Organizer(name := "Bridal Dreams", avatar := "https://api.dicebear.com/7.x/initials/svg?seed=BD"),
    attendees := 800,
    maxAttendees := 1000,
    featured := Some(true))

  const JazzNight: Event := Event(
    id := "5",
    slug := "jazz-night-exclusive",
    title := "Jazz Night: An Exclusive Evening",
    date := "2024-07-05",
    time := "20:00",
    description := "An intimate evening featuring Grammy-winning jazz artists in a historic speakeasy setting. Premium cocktails, fine dining, and unforgettable music.",
    location := "The Blue Note, Chicago",
    category := "Concerts",
    price := 150,
    image := "https://images.unsplash.com/photo-1514320291840-2e0a9bf2a9ae?w=800&q=80",
    organizer := Organizer(name := "Rhythm & Soul Events", avatar := "https://api.dicebear.com/7.x/initials/svg?seed=RS"),
    attendees := 180,
    maxAttendees := 200,
    featured := None)

  const PhotographyMasterclass: Event := Event(
    id := "6",
    slug := "masterclass-photography",
    title := "Masterclass: Professional Photography",
    date := "2024-08-05",
    time := "10:00",
    description := "Learn from award-winning photographers in this intensive two-day workshop. Covering portrait, landscape, and commercial photography with hands-on sessions.",
    location := "Creative Arts Studio, Los Angeles",
    category := "Workshops",
    price := 299,
    image := "https://images.unsplash.com/photo-1542038784456-1ea8e935640e?w=800&q=80",
    organizer := Organizer(name := "Lens Academy", avatar := "https://api.dicebear.com/7.x/initials/svg?seed=LA"),
    attendees := 25,
    maxAttendees := 30,
    featured := None)

  const CharityGala: Event := Event(
    id := "7",
    slug := "charity-gala-children",
    title := "Children's Hope Charity Gala",
    date := "2024-10-12",
    time := "18:30",
    description := "An elegant evening supporting children's education worldwide. Silent auction, celebrity appearances, gourmet dinner, and live entertainment.",
    location := "Beverly Wilshire Hotel, Beverly Hills",
    category := "Corporate",
    price := 500,
    image := "https://images.unsplash.com/photo-1511795409834-ef04bbd61622?w=800&q=80",
    organizer := Organizer(name := "Hope Foundation", avatar := "https://api.dicebear.com/7.x/initials/svg?seed=HF"),
    attendees := 350,
    maxAttendees := 400,
    featured := None)

  const PitchNight: Event := Event(
    id := "8",
    slug := "startup-pitch-night",
    title := "Startup Pitch Night",
    date := "2024-07-25",
    time := "18:00",
    description := "Watch the next generation of innovators present their groundbreaking ideas to top investors. Networking, refreshments, and exclusive investment opportunities.",
    location := "WeWork HQ, San Francisco",
    category := "Corporate",
    price := 50,
    image := "https://images.unsplash.com/photo-1475721027785-f74eccf877e2?w=800&q=80",
    organizer := Organizer(name := "Venture Hub", avatar := "https://api.dicebear.com/7.x/initials/svg?seed=VH"),
    attendees := 150,
    maxAttendees := 200,
    featured := None)

  /** The sample catalogue used when the remote service cannot be reached. */
  const DummyEvents: seq<Event> :=
    [SummerGala, TechSummit, WineTasting, WeddingExpo, JazzNight, PhotographyMasterclass, CharityGala, PitchNight]

  datatype Category = Category(name: string, icon: string, color: string)

  const Categories: seq<Category> := [
    Category(name := "Weddings", icon := "Heart", color := "from-pink-500 to-rose-500"),
    Category(name := "Corporate", icon := "Building2", color := "from-indigo-500 to-purple-500"),
    Category(name := "Concerts", icon := "Music", color := "from-orange-500 to-red-500"),
    Category(name := "Workshops", icon := "GraduationCap", color := "from-emerald-500 to-teal-500"),
    Category(name := "Private Parties", icon := "PartyPopper", color := "from-amber-500 to-yellow-500")
  ]

  /** The names of the categories, in display order. */
  function CategoryNames(): (names: seq<string>)
    ensures |names| == |Categories|
    ensures forall i :: 0 <= i < |Categories| ==> names[i] == Categories[i].name
  {
    seq(|Categories|, i requires 0 <= i < |Categories| => Categories[i].name)
  }

  datatype Testimonial = Testimonial(
    id: string,
    name: string,
    role: string,
    avatar: string,
    content: string,
    rating: int)

  const Testimonials: seq<Testimonial> := [
    Testimonial(
      id := "1",
      name := "Sarah Johnson",
      role := "CEO, TechStart Inc.",
      avatar := "https://api.dicebear.com/7.x/avataaars/svg?seed=sarah",
      content := "Eventify transformed our annual conference into an unforgettable experience. The platform made managing 1,000+ attendees seamless.",
      rating := 5),
    Testimonial(
      id := "2",
      name := "Michael Chen",
      role := "Wedding Planner",
      avatar := "https://api.dicebear.com/7.x/avataaars/svg?seed=michael",
      content := "As a wedding planner, I've used many platforms. Eventify stands out with its elegant design and intuitive booking system.",
      rating := 5),
    Testimonial(
      id := "3",
      name := "Emma Davis",
      role := "Event Coordinator",
      avatar := "https://api.dicebear.com/7.x/avataaars/svg?seed=emma",
      content := "The customer support is exceptional. They helped us customize everything for our corporate retreat. Highly recommended!",
      rating := 5)
  ]

  /** The fallback catalogue has eight entries whose ids are "1" to "8" in order. */
  lemma DummyEventsIds()
    ensures |DummyEvents| == 8
    ensures forall i :: 0 <= i < |DummyEvents| ==> DummyEvents[i].id == NatToString(i + 1)
    ensures UniqueIds(DummyEvents)
  {
  }

  /** Slug lookup on the fallback catalogue can match at most one entry. */
  lemma DummyEventsUniqueSlugs()
    ensures UniqueSlugs(DummyEvents)
  {
    var s := DummyEvents;
    assert s[0].slug != s[1].slug;
    assert s[0].slug != s[2].slug;
    assert s[0].slug != s[3].slug;
    assert s[0].slug != s[4].slug;
    assert s[0].slug != s[5].slug;
    assert s[0].slug != s[6].slug;
    assert s[0].slug != s[7].slug;
    assert s[1].slug != s[2].slug;
    assert s[1].slug != s[3].slug;
    assert s[1].slug != s[4].slug;
    assert s[1].slug != s[5].slug;
    assert s[1].slug != s[6].slug;
    assert s[1].slug != s[7].slug;
    assert s[2].slug != s[3].slug;
    assert s[2].slug != s[4].slug;
    assert s[2].slug != s[5].slug;
    assert s[2].slug != s[6].slug;
    assert s[2].slug != s[7].slug;
    assert s[3].slug != s[4].slug;
    assert s[3].slug != s[5].slug;
    assert s[3].slug != s[6].slug;
    assert s[3].slug != s[7].slug;
    assert s[4].slug != s[5].slug;
    assert s[4].slug != s[6].slug;
    assert s[4].slug != s[7].slug;
    assert s[5].slug != s[6].slug;
    assert s[5].slug != s[7].slug;
    assert s[6].slug != s[7].slug;
  }

  /** Every fallback entry keeps 0 <= attendees <= maxAttendees and price >= 0. */
  lemma DummyEventsWellFormed()
    ensures forall e :: e in DummyEvents ==> WellFormed(e)
  {
  }

  /** Exactly the first four fallback entries are featured; the others omit the flag. */
  lemma DummyEventsFeatured()
    ensures forall i :: 0 <= i < |DummyEvents| ==> DummyEvents[i].featured == (if i < 4 then Some(true) else None)
  {
  }

  /** Every fallback entry belongs to one of the five listed categories. */
  lemma DummyEventsCategories()
    ensures |CategoryNames()| == 5
    ensures forall e :: e in DummyEvents ==> e.category in CategoryNames()
  {
    assert CategoryNames() == ["Weddings", "Corporate", "Concerts", "Workshops", "Private Parties"];
  }

  /** The testimonial carousel has three entries, so its modulus is positive. */
  lemma TestimonialsCount()
    ensures |Testimonials| == 3
  {
  }
}
