/**
 * The catalogue source: it turns the records of the remote events service
 * into `Event`s, falls back to the sample catalogue when the service fails,
 * and looks events up by slug. The HTTP exchange itself is an input: a
 * `RemoteEvents` value says what the GET request produced.
 */
module Api {
  import opened JsLib
  import opened EventsData

  /** A record as the remote service returns it. */
  datatype APIEvent = APIEvent(title: string, date: string, description: string, location: string)

  /** The outcome of GET /events. */
  datatype RemoteEvents =
    | RemoteOk(data: seq<APIEvent>)  // an ok status and a JSON array body
    | RemoteFail                     // a non-ok status, a network error or an unreadable body

  /** A catalogue snapshot and whether it came from the remote service. */
  datatype Catalog = Catalog(events: seq<Event>, isFromAPI: bool)

  /** The categories assigned to remote records in turn. */
  const RemoteCategories: seq<string> :=
    ["Corporate", "Weddings", "Concerts", "Workshops", "Private Parties"]

  /** The images assigned to remote records in turn. */
  const RemoteImages: seq<string> := [
    "https://images.unsplash.com/photo-1540575467063-178a50c2df87?w=800&q=80",
    "https://images.unsplash.com/photo-1505373877841-8d25f7d46678?w=800&q=80",
    "https://images.unsplash.com/photo-1510812431401-41d2bd2722f3?w=800&q=80",
    "https://images.unsplash.com/photo-1519741497674-611481863552?w=800&q=80",
    "https://images.unsplash.com/photo-1514320291840-2e0a9bf2a9ae?w=800&q=80"
  ]

  // ---------------------------------------------------------------------------
  // The slug rule: lower-case, each whitespace run becomes one '-', then
  // everything outside [a-z0-9-] is removed.
  // ---------------------------------------------------------------------------

  predicate IsSlugChar(c: char) {
    'a' <= c <= 'z' || '0' <= c <= '9' || c == '-'
  }

  /** `s` without its leading whitespace. */
  function DropWhitespace(s: string): (r: string)
    ensures |r| <= |s| && r == s[|s| - |r|..]
    ensures r == [] || !IsWhitespace(r[0])
    ensures forall i :: 0 <= i < |s| - |r| ==> IsWhitespace(s[i])
    decreases |s|
  {
    if s != [] && IsWhitespace(s[0]) then DropWhitespace(s[1..]) else s
  }

  /** `s.replace(/\s+/g, '-')`: every maximal run of whitespace becomes a single '-'. */
  function ReplaceWhitespaceRuns(s: string): (r: string)
    ensures forall i :: 0 <= i < |r| ==> !IsWhitespace(r[i])
    decreases |s|
  {
    if s == [] then []
    else if IsWhitespace(s[0]) then "-" + ReplaceWhitespaceRuns(DropWhitespace(s[1..]))
    else [s[0]] + ReplaceWhitespaceRuns(s[1..])
  }

  /** `s.replace(/[^a-z0-9-]/g, '')`. */
  function KeepSlugChars(s: string): (r: string)
    ensures forall i :: 0 <= i < |r| ==> IsSlugChar(r[i])
  {
    var r := Filter(s, IsSlugChar);
    assert forall i :: 0 <= i < |r| ==> r[i] in r;
    r
  }

  /** The slug the remote path derives from a title. */
  function Slugify(title: string): (slug: string)
    ensures forall i :: 0 <= i < |slug| ==> IsSlugChar(slug[i])
  {
    KeepSlugChars(ReplaceWhitespaceRuns(Lower(title)))
  }

  /** Text without whitespace passes through the run replacement unchanged. */
  lemma {:induction false} ReplaceWhitespaceRunsKeepsPlainText(s: string)
    requires forall i :: 0 <= i < |s| ==> !IsWhitespace(s[i])
    ensures ReplaceWhitespaceRuns(s) == s
    decreases |s|
  {
    if s != [] {
      ReplaceWhitespaceRunsKeepsPlainText(s[1..]);
    }
  }

  /** Text without upper-case letters is its own lower-case form. */
  lemma LowerKeepsLowerText(s: string)
    requires forall i :: 0 <= i < |s| ==> !IsAsciiUpper(s[i])
    ensures Lower(s) == s
  {
  }

  /** The slug rule is idempotent: a slug is its own slug. */
  lemma SlugifyIdempotent(title: string)
    ensures Slugify(Slugify(title)) == Slugify(title)
  {
    var s := Slugify(title);
    LowerKeepsLowerText(s);
    ReplaceWhitespaceRunsKeepsPlainText(s);
    FilterKeepsAll(s, IsSlugChar);
  }

  /** A whitespace-free word in front of the text is kept as it is. */
  lemma {:induction false} ReplaceWhitespaceRunsAfterWord(word: string, rest: string)
    requires forall i :: 0 <= i < |word| ==> !IsWhitespace(word[i])
    ensures ReplaceWhitespaceRuns(word + rest) == word + ReplaceWhitespaceRuns(rest)
    decreases |word|
  {
    if word == [] {
      assert word + rest == rest;
    } else {
      assert (word + rest)[0] == word[0] && !IsWhitespace(word[0]);
      assert (word + rest)[1..] == word[1..] + rest;
      ReplaceWhitespaceRunsAfterWord(word[1..], rest);
      assert word == [word[0]] + word[1..];
    }
  }

  /** The leading whitespace of `ws + rest` is exactly `ws` when `rest` does not start with whitespace. */
  lemma {:induction false} DropWhitespaceRun(ws: string, rest: string)
    requires forall i :: 0 <= i < |ws| ==> IsWhitespace(ws[i])
    requires rest == [] || !IsWhitespace(rest[0])
    ensures DropWhitespace(ws + rest) == rest
    decreases |ws|
  {
    if ws == [] {
      assert ws + rest == rest;
    } else {
      assert (ws + rest)[1..] == ws[1..] + rest;
      DropWhitespaceRun(ws[1..], rest);
    }
  }

  /** A maximal run of whitespace, however long, becomes a single '-'. */
  lemma ReplaceWhitespaceRunsRun(ws: string, rest: string)
    requires ws != [] && forall i :: 0 <= i < |ws| ==> IsWhitespace(ws[i])
    requires rest == [] || !IsWhitespace(rest[0])
    ensures ReplaceWhitespaceRuns(ws + rest) == "-" + ReplaceWhitespaceRuns(rest)
  {
    assert (ws + rest)[0] == ws[0];
    assert (ws + rest)[1..] == ws[1..] + rest;
    DropWhitespaceRun(ws[1..], rest);
  }

  predicate IsSlugText(s: string) {
    forall i :: 0 <= i < |s| ==> IsSlugChar(s[i])
  }

  /** A whitespace run between a slug word and the rest of the text becomes one '-'. */
  lemma ReplaceWhitespaceRunsWordSpace(first: string, ws: string, rest: string)
    requires IsSlugText(first) && rest != [] && !IsWhitespace(rest[0])
    requires ws != [] && forall i :: 0 <= i < |ws| ==> IsWhitespace(ws[i])
    ensures ReplaceWhitespaceRuns(first + ws + rest) == first + "-" + ReplaceWhitespaceRuns(rest)
  {
    assert first + ws + rest == first + (ws + rest);
    ReplaceWhitespaceRunsRun(ws, rest);
    ReplaceWhitespaceRunsAfterWord(first, ws + rest);
  }

  /** A title that lower-cases to two slug words separated by a whitespace run. */
  lemma SlugifyTwoWords(title: string, w1: string, ws: string, w2: string)
    requires Lower(title) == w1 + ws + w2
    requires ws != [] && forall i :: 0 <= i < |ws| ==> IsWhitespace(ws[i])
    requires IsSlugText(w1) && IsSlugText(w2) && w2 != []
    ensures Slugify(title) == w1 + "-" + w2
  {
    ReplaceWhitespaceRunsKeepsPlainText(w2);
    ReplaceWhitespaceRunsWordSpace(w1, ws, w2);
    assert IsSlugText(w1 + "-" + w2);
    FilterKeepsAll(w1 + "-" + w2, IsSlugChar);
  }

  lemma LowerGalaNight(title: string)
    requires title == "Gala Night"
    ensures Lower(title) == "gala" + " " + "night"
  {
  }

  /**
   * The documented example: "Gala Night" has the slug "gala-night". The
   * title is a parameter fixed by the precondition, which keeps the solver
   * from evaluating the slug rule character by character on the literal.
   */
  lemma SlugifyGalaNight(title: string)
    requires title == "Gala Night"
    ensures Slugify(title) == "gala-night"
  {
    LowerGalaNight(title);
    SlugifyTwoWords(title, "gala", " ", "night");
  }

  lemma LowerGalaTabNight(title: string)
    requires title == "Gala \t Night"
    ensures Lower(title) == "gala" + " \t " + "night"
  {
  }

  /** A run of a space, a tab and a space gives one '-' as well: "Gala \t Night" has the slug "gala-night". */
  lemma SlugifyGalaTabNight(title: string)
    requires title == "Gala \t Night"
    ensures Slugify(title) == "gala-night"
  {
    LowerGalaTabNight(title);
    SlugifyTwoWords(title, "gala", " \t ", "night");
  }

  /** Three slug words separated by single spaces: each space becomes '-'. */
  lemma ReplaceWhitespaceRunsThreeWords(w1: string, w2: string, w3: string)
    requires IsSlugText(w1) && IsSlugText(w2) && IsSlugText(w3)
    requires w2 != [] && w3 != []
    ensures ReplaceWhitespaceRuns(w1 + " " + (w2 + " " + w3)) == w1 + "-" + (w2 + "-" + w3)
  {
    ReplaceWhitespaceRunsKeepsPlainText(w3);
    ReplaceWhitespaceRunsWordSpace(w2, " ", w3);
    assert (w2 + " " + w3)[0] == w2[0];
    ReplaceWhitespaceRunsWordSpace(w1, " ", w2 + " " + w3);
  }

  /** A title that lower-cases to four slug words separated by single spaces. */
  lemma SlugifyFourWords(title: string, w1: string, w2: string, w3: string, w4: string)
    requires Lower(title) == w1 + " " + (w2 + " " + (w3 + " " + w4))
    requires IsSlugText(w1) && IsSlugText(w2) && IsSlugText(w3) && IsSlugText(w4)
    requires w2 != [] && w3 != [] && w4 != []
    ensures Slugify(title) == w1 + "-" + (w2 + "-" + (w3 + "-" + w4))
  {
    ReplaceWhitespaceRunsThreeWords(w2, w3, w4);
    var tail := w2 + " " + (w3 + " " + w4);
    assert tail[0] == w2[0];
    ReplaceWhitespaceRunsWordSpace(w1, " ", tail);
    var slug := w1 + "-" + (w2 + "-" + (w3 + "-" + w4));
    assert IsSlugText(slug);
    FilterKeepsAll(slug, IsSlugChar);
  }

  lemma LowerVintageTitle(title: string)
    requires title == "Vintage Wine Tasting Experience"
    ensures Lower(title) == "vintage" + " " + ("wine" + " " + ("tasting" + " " + "experience"))
  {
  }

  /**
   * The slug rule gives "vintage-wine-tasting-experience", 31 characters. The
   * words are parameters fixed by the precondition, as in `SlugifyGalaNight`.
   */
  lemma SlugifyVintageWords(title: string, w1: string, w2: string, w3: string, w4: string)
    requires w1 == "vintage" && w2 == "wine" && w3 == "tasting" && w4 == "experience"
    requires Lower(title) == w1 + " " + (w2 + " " + (w3 + " " + w4))
    ensures Slugify(title) == w1 + "-" + (w2 + "-" + (w3 + "-" + w4))
    ensures |Slugify(title)| == 31
  {
    SlugifyFourWords(title, w1, w2, w3, w4);
  }

  /**
   * The fallback catalogue's slugs are not derived by the slug rule: the third
   * entry's slug is "vintage-wine-tasting" (20 characters), while its title
   * "Vintage Wine Tasting Experience" gives "vintage-wine-tasting-experience".
   */
  lemma FallbackSlugNotDerived()
    ensures DummyEvents[2].slug != Slugify(DummyEvents[2].title)
  {
    assert DummyEvents[2] == WineTasting;
    LowerVintageTitle(WineTasting.title);
    SlugifyVintageWords(WineTasting.title, "vintage", "wine", "tasting", "experience");
    assert |WineTasting.slug| == 20;
  }

  // ---------------------------------------------------------------------------
  // The record transform
  // ---------------------------------------------------------------------------

  /** The event built from the remote record at position `index` of the response. */
  function TransformAPIEvent(a: APIEvent, index: nat): (e: Event)
    ensures WellFormed(e) && e.price >= 99
    ensures e.featured == Some(index < 4)
    ensures e.category == RemoteCategories[index % 5] && e.category in CategoryNames()
    ensures forall i :: 0 <= i < |e.slug| ==> IsSlugChar(e.slug[i])
    ensures e.title == a.title && e.date == a.date && e.time == "19:00"
    ensures e.description == a.description && e.location == a.location
    ensures e.id == NatToString(index + 1) && DecimalValue(e.id) == index + 1
    ensures e.slug == Slugify(a.title) && e.image == RemoteImages[index % 5]
    ensures e.price == 99 + 50 * index
    ensures e.attendees == 50 + 30 * index && e.maxAttendees == 200 + 50 * index
  {
    DecimalValueOfNatToString(index + 1);
    assert CategoryNames() == ["Weddings", "Corporate", "Concerts", "Workshops", "Private Parties"];
    Event(
      id := NatToString(index + 1),
      slug := Slugify(a.title),
      title := a.title,
      date := a.date,
      time := "19:00",
      description := a.description,
      location := a.location,
      category := RemoteCategories[index % |RemoteCategories|],
      price := 99 + index * 50,
      image := RemoteImages[index % |RemoteImages|],
      organizer := Organizer(
        name := "Event Organizer",
        avatar := "https://api.dicebear.com/7.x/initials/svg?seed=EO" + NatToString(index)),
      attendees := 50 + index * 30,
      maxAttendees := 200 + index * 50,
      featured := Some(index < 4))
  }

  /** `data.map((event, index) => transformAPIEvent(event, index))`. */
  function TransformAll(data: seq<APIEvent>): (events: seq<Event>)
    ensures |events| == |data|
    ensures forall i :: 0 <= i < |data| ==> events[i] == TransformAPIEvent(data[i], i)
  {
    seq(|data|, i requires 0 <= i < |data| => TransformAPIEvent(data[i], i))
  }

  /** Scenario: one remote record "Gala Night" becomes a featured Corporate event priced 99. */
  lemma TransformGalaNight()
    ensures var e := TransformAPIEvent(APIEvent("Gala Night", "2024-09-01", "d", "NYC"), 0);
      && e.id == "1" && e.slug == "gala-night" && e.category == "Corporate"
      && e.price == 99 && e.attendees == 50 && e.maxAttendees == 200
      && e.featured == Some(true) && e.time == "19:00"
  {
    SlugifyGalaNight("Gala Night");
  }

  // ---------------------------------------------------------------------------
  // fetchEvents and fetchEventBySlug
  // ---------------------------------------------------------------------------

  /** The catalogue: the transformed remote list, or the sample list when the request failed. */
  function FetchEvents(remote: RemoteEvents): (c: Catalog)
    ensures c.isFromAPI <==> remote.RemoteOk?
    ensures remote.RemoteOk? ==> c.events == TransformAll(remote.data)
    ensures remote.RemoteFail? ==> c.events == DummyEvents
  {
    match remote
    case RemoteOk(data) => Catalog(TransformAll(data), true)
    case RemoteFail => Catalog(DummyEvents, false)
  }

  /** Every catalogue, whatever its source, keeps the capacity and price invariant. */
  lemma FetchEventsWellFormed(remote: RemoteEvents)
    ensures forall e :: e in FetchEvents(remote).events ==> WellFormed(e)
  {
    if remote.RemoteFail? {
      DummyEventsWellFormed();
    }
  }

  /** Every catalogue, whatever its source, has pairwise distinct ids. */
  lemma FetchEventsUniqueIds(remote: RemoteEvents)
    ensures UniqueIds(FetchEvents(remote).events)
  {
    var events := FetchEvents(remote).events;
    if remote.RemoteOk? {
      forall i, j | 0 <= i < j < |events|
        ensures events[i].id != events[j].id
      {
        NatToStringInjective(i + 1, j + 1);
      }
    } else {
      DummyEventsIds();
    }
  }

  /** On the remote path, the slug of each event is the slug of its title. */
  lemma RemoteSlugsDerived(data: seq<APIEvent>, i: nat)
    requires i < |data|
    ensures FetchEvents(RemoteOk(data)).events[i].slug == Slugify(data[i].title)
  {
  }

  /**
   * Remote slugs are not checked for uniqueness: two records whose titles
   * differ only in letter case get the same slug.
   */
  lemma RemoteSlugsCollide(data: seq<APIEvent>, i: nat, j: nat)
    requires i < j < |data|
    requires Lower(data[i].title) == Lower(data[j].title)
    ensures FetchEvents(RemoteOk(data)).events[i].slug == FetchEvents(RemoteOk(data)).events[j].slug
    ensures !UniqueSlugs(FetchEvents(RemoteOk(data)).events)
  {
  }

  /** The position of the first event with slug `slug`, or -1 when there is none. */
  function FindSlugIndex(events: seq<Event>, slug: string): (k: int)
    ensures -1 <= k < |events|
    ensures k == -1 <==> forall j :: 0 <= j < |events| ==> events[j].slug != slug
    ensures 0 <= k ==> events[k].slug == slug && forall j :: 0 <= j < k ==> events[j].slug != slug
    decreases |events|
  {
    if events == [] then -1
    else if events[0].slug == slug then 0
    else
      var k := FindSlugIndex(events[1..], slug);
      if k < 0 then -1 else k + 1
  }

  /** `events.find(event => event.slug === slug) || null`. */
  function FindBySlug(events: seq<Event>, slug: string): (r: Option<Event>)
    ensures r.None? <==> forall e :: e in events ==> e.slug != slug
    ensures r.Some? ==> r.value in events && r.value.slug == slug
  {
    var k := FindSlugIndex(events, slug);
    if k < 0 then None else Some(events[k])
  }

  /** `fetchEventBySlug`: a lookup in whatever catalogue the fetch produced. */
  function FetchEventBySlug(slug: string, remote: RemoteEvents): (r: Option<Event>)
    ensures r.Some? <==> exists e :: e in FetchEvents(remote).events && e.slug == slug
    ensures r.Some? ==> r.value in FetchEvents(remote).events && r.value.slug == slug
  {
    FindBySlug(FetchEvents(remote).events, slug)
  }

  /** The lookup returns the first matching event. */
  lemma FindBySlugFirst(events: seq<Event>, slug: string, i: nat)
    requires i < |events| && events[i].slug == slug
    requires forall j :: 0 <= j < i ==> events[j].slug != slug
    ensures FindBySlug(events, slug) == Some(events[i])
  {
    var k := FindSlugIndex(events, slug);
    assert k == i;
  }

  /** With unique slugs, looking up an entry's slug finds exactly that entry. */
  lemma {:induction false} FindBySlugUnique(events: seq<Event>, i: nat)
    requires UniqueSlugs(events) && i < |events|
    ensures FindBySlug(events, events[i].slug) == Some(events[i])
  {
    FindBySlugFirst(events, events[i].slug, i);
  }

  /** On the fallback path every sample entry is found by its own slug. */
  lemma FallbackLookupFindsEntry(i: nat)
    requires i < |DummyEvents|
    ensures FetchEventBySlug(DummyEvents[i].slug, RemoteFail) == Some(DummyEvents[i])
  {
    DummyEventsUniqueSlugs();
    FindBySlugUnique(DummyEvents, i);
  }
}
