# event-aura client core, modelled in Dafny

This project models the logic of the event-aura React booking client. It covers four parts.

- **Catalogue source and fallback data:** the catalogue comes from the remote events service. The client's transform turns each remote record into an `Event`. The slug comes from the title. The category, image, price and capacities depend on the record's position in the response. When the request fails, the eight-entry sample catalogue is used instead, and a provenance flag records which source was used. A slug lookup returns the first match.
- **Query engine and derived views:**
  - The events page searches case-insensitively in the title, description and location. It filters by an exact category and sorts by one of four stable orders.
  - The detail page shows up to three related events, the number of free spots and the booking total.
  - The home page shows up to four featured events and a testimonial carousel that wraps around.
- **Session store and return-address protocol:** the store has five fields and four operations, plus the projection that is persisted. The route guard remembers the path a signed-out visitor asked for. The Book-Now button does the same for an event page. The sign-in form sends the user back to that address and then clears it.
- **Booking cancellation:** cancelling marks every booking with the selected id as cancelled. The active and cancelled views split the list between them.

Each source file becomes one module:

| module | file | source |
|---|---|---|
| `JsLib` | `js_lib.dfy` | the JavaScript built-ins that the source relies on: `filter`, `slice`, `toLowerCase`, `includes`, `String(n)` and `%` |
| `EventsData` | `events_data.dfy` | `src/data/events.ts` |
| `Api` | `api.dfy` | `src/services/api.ts` |
| `EventsPage` | `events_page.dfy` | `src/pages/Events.tsx` |
| `EventDetails` | `event_details.dfy` | `src/pages/EventDetails.tsx` |
| `Home` | `home.dfy` | `src/pages/Home.tsx` |
| `AuthStore` | `auth_store.dfy` | `src/store/authStore.ts` |
| `ProtectedRoute` | `protected_route.dfy` | `src/components/ProtectedRoute.tsx` |
| `LoginPage` | `login_page.dfy` | `src/pages/Login.tsx` |
| `Bookings` | `bookings.dfy` | `src/pages/Bookings.tsx` |

Pure code is modelled with functions and lemmas. Code that changes state is modelled with classes:

- Every page's React state is a `class Page`, and its handlers are methods.
- The zustand store is `AuthStore.Store`.

Each method is proved to perform a transition function, and the properties are proved about those functions.

The events page's effect copies the filtered list into an array and sorts it in place. It uses a stable insertion sort. `Array.prototype.sort` has been stable since ES2019. `EventsPage.StableSortUnique` shows that only one permutation is both sorted and stable, so the insertion sort gives the same list as the engine's sort.

The network is not modelled; its outcomes are inputs:

- `Api.RemoteEvents` is `RemoteOk(data)` or `RemoteFail`.
- `AuthStore.LoginOutcome` is `LoginOk(user, token)` or `LoginFailed`.
- `AuthStore.SignupOutcome` is `SignupOk` or `SignupFailed`.

## Model

| member | source | states |
|---|---|---|
| `EventsData.DummyEventsIds` | src/data/events.ts:21-146 | The fallback catalogue has 8 entries. The ids are "1" to "8" in order, so they are distinct. |
| `EventsData.DummyEventsUniqueSlugs` | src/data/events.ts:21-146 | The fallback slugs are pairwise distinct. |
| `EventsData.DummyEventsWellFormed` | src/data/events.ts:21-146 | Every fallback entry has 0 <= attendees <= maxAttendees and price >= 0. |
| `EventsData.DummyEventsFeatured` | src/data/events.ts:36-84 | Exactly the first four fallback entries are featured. The others have no flag. |
| `EventsData.DummyEventsCategories` | src/data/events.ts:148-154 | There are five category names, and every fallback entry's category is one of them. |
| `EventsData.CategoryNames` | src/data/events.ts:148-154 | The category names in display order, one for each category. |
| `EventsData.TestimonialsCount` | src/data/events.ts:156-181 | There are three testimonials, so the carousel modulus is positive. |
| `Api.Slugify` | src/services/api.ts:24 | A slug contains only a-z, 0-9 and '-'. |
| `Api.DropWhitespace` | src/services/api.ts:24 | Removes exactly the leading run of whitespace. |
| `Api.ReplaceWhitespaceRuns` | src/services/api.ts:24 | No whitespace is left after the runs are replaced. |
| `Api.KeepSlugChars` | src/services/api.ts:24 | Only slug characters are kept. |
| `Api.SlugifyIdempotent` | src/services/api.ts:24 | The slug of a slug is the slug itself. |
| `Api.ReplaceWhitespaceRunsKeepsPlainText` | src/services/api.ts:24 | Text without whitespace passes through the run replacement unchanged. |
| `Api.DropWhitespaceRun` | src/services/api.ts:24 | Skipping the leading whitespace of a run followed by a non-whitespace character lands exactly after the run. |
| `Api.ReplaceWhitespaceRunsRun` | src/services/api.ts:24 | A maximal whitespace run of any length, one character or many and of any kind, becomes a single '-'. |
| `Api.ReplaceWhitespaceRunsWordSpace` | src/services/api.ts:24 | A whitespace run between a slug word and the rest of the text becomes a single '-'. |
| `Api.ReplaceWhitespaceRunsThreeWords` | src/services/api.ts:24 | Three slug words separated by single spaces become the words joined with '-'. |
| `Api.SlugifyGalaNight` | src/services/api.ts:24 | "Gala Night" has the slug "gala-night". |
| `Api.LowerGalaNight` | src/services/api.ts:24 | Lowercasing "Gala Night" gives "gala night". |
| `Api.SlugifyTwoWords` | src/services/api.ts:24 | A title that lowercases to two slug words separated by a whitespace run has those words joined with a single '-' as its slug. |
| `Api.LowerGalaTabNight` | src/services/api.ts:24 | Lowercasing "Gala \t Night" keeps the space-tab-space run between the words. |
| `Api.SlugifyGalaTabNight` | src/services/api.ts:24 | "Gala \t Night", with a space, a tab and a space between the words, also has the slug "gala-night". |
| `Api.SlugifyFourWords` | src/services/api.ts:24 | Four slug words separated by single spaces are joined with '-'. |
| `Api.LowerVintageTitle` | src/services/api.ts:24 | Lowercasing "Vintage Wine Tasting Experience" gives its four words in lower case, separated by single spaces. |
| `Api.SlugifyVintageWords` | src/services/api.ts:24 | "Vintage Wine Tasting Experience" has the 31-character slug "vintage-wine-tasting-experience". |
| `Api.FallbackSlugNotDerived` | src/data/events.ts:56-57 | The slug of fallback entry 3 is not the slug of its title. Slug = slugify(title) holds only on the remote path. |
| `Api.TransformAPIEvent` | src/services/api.ts:12-41 | For the record at index i:<br>- id is the decimal numeral of i+1 and reads back as i+1;<br>- slug is the slug of the title;<br>- category and image are entry i mod 5 of their lists, and the category is one of the five names;<br>- price is 99+50i (so at least 99);<br>- attendees is 50+30i and maxAttendees is 200+50i, so the capacity invariant holds;<br>- featured is exactly i < 4;<br>- time is "19:00";<br>- title, date, description and location are copied. |
| `Api.TransformAll` | src/services/api.ts:52 | The list has the same length, and element i is the transform of record i at index i. |
| `Api.TransformGalaNight` | src/services/api.ts:12-41 | The record "Gala Night" at index 0 gets id "1", slug "gala-night", category Corporate, price 99, capacity 50/200, featured, 19:00. |
| `Api.FetchEvents` | src/services/api.ts:43-60 | An ok response gives the transformed list with the flag true. A failure gives the fallback list unchanged with the flag false. |
| `Api.FetchEventsWellFormed` | src/services/api.ts:43-60 | Every catalogue, from either source, keeps the capacity and price invariant. |
| `Api.FetchEventsUniqueIds` | src/services/api.ts:23 | Every catalogue, from either source, has pairwise distinct ids. |
| `Api.RemoteSlugsDerived` | src/services/api.ts:24-52 | On the remote path, event i's slug is the slug of record i's title. |
| `Api.RemoteSlugsCollide` | src/services/api.ts:24 | Two remote titles that differ only in case get the same slug, so remote slugs need not be unique. |
| `Api.FindSlugIndex` | src/services/api.ts:64 | Returns the first index whose slug matches, or -1 exactly when no slug matches. |
| `Api.FindBySlug` | src/services/api.ts:64 | Returns None exactly when no event has the slug. Otherwise it returns a catalogue event with that slug. |
| `Api.FetchEventBySlug` | src/services/api.ts:62-65 | Returns a result exactly when some event in the fetched catalogue has the slug, and that result is such an event. |
| `Api.FindBySlugFirst` | src/services/api.ts:64 | The lookup returns the first matching event. |
| `Api.FindBySlugUnique` | src/services/api.ts:64 | With unique slugs, looking up an entry's slug returns that entry. |
| `Api.FallbackLookupFindsEntry` | src/services/api.ts:62-65 | On the fallback path, every sample entry is found by its own slug. |
| `EventsPage.SortOrder` | src/pages/Events.tsx:59-72 | Each of the four sort values selects its comparator. Any other value selects no sort. |
| `EventsPage.LexLeReflexive` | src/pages/Events.tsx:61 | The date order is reflexive. |
| `EventsPage.LexLeTotal` | src/pages/Events.tsx:61 | The date order is total. |
| `EventsPage.LexLeTransitive` | src/pages/Events.tsx:61 | The date order is transitive. |
| `EventsPage.BeforeTotalPreorder` | src/pages/Events.tsx:59-72 | Each of the four comparators is a total preorder. |
| `EventsPage.TiesWithConcat` | src/pages/Events.tsx:59-72 | The events tying with x in s + t are those of s followed by those of t. |
| `EventsPage.InsertSortedMultiset` | src/pages/Events.tsx:59-72 | Insertion adds exactly the inserted event. |
| `EventsPage.StableSortMultiset` | src/pages/Events.tsx:59-72 | Sorting is a permutation. |
| `EventsPage.InsertSortedSorted` | src/pages/Events.tsx:59-72 | Insertion into a sorted list keeps it sorted. |
| `EventsPage.StableSortSorted` | src/pages/Events.tsx:59-72 | The sorted list is in comparator order. |
| `EventsPage.InsertSortedTies` | src/pages/Events.tsx:59-72 | Insertion appends x after the events it ties with and does not reorder ties. |
| `EventsPage.StableSortTies` | src/pages/Events.tsx:59-72 | Stability: events that compare equal keep their input order. |
| `EventsPage.SortedStableUnique` | src/pages/Events.tsx:59-72 | Two sorted lists that are permutations of each other, with the same order among ties, are equal. |
| `EventsPage.StableSortUnique` | src/pages/Events.tsx:59-72 | Any sorted, stable permutation of s is the stable sort of s, so the engine's stable sort gives this list. |
| `EventsPage.StableSortOfSorted` | src/pages/Events.tsx:59-72 | Sorting a list that is already sorted returns it unchanged. |
| `EventsPage.InsertSortedAt` | src/pages/Events.tsx:59-72 | Insertion puts x directly after the last element that may precede it. |
| `EventsPage.InsertInPlace` | src/pages/Events.tsx:59-72 | The array prefix a[..i+1] becomes the insertion of a[i] into a[..i], and the rest of the array is unchanged. |
| `EventsPage.StableSortStep` | src/pages/Events.tsx:59-72 | Sorting one more input element is inserting it into the sorted prefix. |
| `EventsPage.SortPass` | src/pages/Events.tsx:59-72 | One pass of the sort: if a[..i] is the sorted input prefix and the rest is untouched input, then afterwards a[..i+1] is the sorted prefix one longer and the rest is still untouched. |
| `EventsPage.SortInPlace` | src/pages/Events.tsx:59-72 | Sorting the array in place leaves exactly the stable sort of its old contents. |
| `EventsPage.FilteredIsFilter` | src/pages/Events.tsx:44-56 | The two filter steps keep exactly the events that pass both predicates, in catalogue order. |
| `EventsPage.QueryResultMultiset` | src/pages/Events.tsx:41-74 | The result is a permutation of the passing catalogue events. Each passing event keeps its multiplicity and no other event appears. |
| `JsLib.IncludesIffOccurs` | src/pages/Events.tsx:47-49 | `includes` holds exactly when the query occurs as a contiguous block at some position of the text. |
| `EventsPage.FieldLacksQuery` | src/pages/Events.tsx:47-49 | A field that holds some lower-case letter of the query in neither case does not contain the lower-cased query. |
| `EventsPage.NoMatchForMissingLetters` | src/pages/Events.tsx:44-51 | An event whose title, description and location each lack some letter of the query, in either case, does not match the search. |
| `EventsPage.SearchSelectsOne` | src/pages/Events.tsx:41-75 | With category "all", a search that exactly one catalogue event matches shows that event alone, whatever the sort. |
| `EventsPage.QueryResultMatchesSearch` | src/pages/Events.tsx:44-51 | After a non-empty search, every shown event contains the lower-cased query in its lower-cased title, description or location. |
| `EventsPage.QueryResultMatchesCategory` | src/pages/Events.tsx:54-56 | A category other than "" and "all" keeps only events of exactly that category. |
| `EventsPage.EmptyQueryKeepsAll` | src/pages/Events.tsx:44-56 | An empty search with category "" or "all" removes nothing. The result is a permutation of the catalogue. |
| `EventsPage.QueryResultOrder` | src/pages/Events.tsx:59-72 | The orders:<br>- "date" gives non-decreasing dates;<br>- "price-low" gives non-decreasing prices;<br>- "price-high" gives non-increasing prices;<br>- "popularity" gives non-increasing attendees;<br>- in every sorted order, ties keep their filtered order;<br>- any other value gives exactly the filtered list. |
| `EventsPage.QueryResultIdempotent` | src/pages/Events.tsx:41-74 | Applying the query to its own result returns that result. |
| `EventsPage.ApplyQuery` | src/pages/Events.tsx:40-75 | The effect copies the list, filters it, sorts the array in place and yields exactly the query result. |
| `EventsPage.CorporateFilter` | src/pages/Events.tsx:54-56 | On a catalogue with the fallback categories, "Corporate" keeps entries 1, 2, 7 and 8 in order. |
| `EventsPage.PriceLowFour` | src/pages/Events.tsx:63-65 | Prices 350, 499, 500 and 50 sort by ascending price as 50, 350, 499, 500. |
| `EventsPage.CorporateByPrice` | src/pages/Events.tsx:44-64 | For the fallback categories and prices, "Corporate" sorted by "price-low" gives entries 8, 1, 2, 7. |
| `EventsPage.CorporateByPriceExample` | src/pages/Events.tsx:44-64 | On the fallback catalogue, "Corporate" sorted by "price-low" lists ids 8, 1, 2 and 7. |
| `EventsPage.Page.constructor` | src/pages/Events.tsx:22-29 | The initial state:<br>- the category is the URL parameter when present and non-empty, otherwise "all";<br>- the search is empty and the sort is "date";<br>- nothing is loaded, and the loading and provenance flags are true. |
| `EventsPage.Page.Refresh` | src/pages/Events.tsx:40-75 | The shown list becomes the query result of the current catalogue and controls. Nothing else changes. |
| `EventsPage.Page.Load` | src/pages/Events.tsx:31-38 | The catalogue and provenance come from the fetch and loading ends. The shown list is re-derived. |
| `EventsPage.Page.SetSearchQuery` | src/pages/Events.tsx:27-75 | Only the search changes, and the shown list is re-derived. |
| `EventsPage.Page.SetCategory` | src/pages/Events.tsx:28-75 | Only the category changes, and the shown list is re-derived. |
| `EventsPage.Page.SetSortBy` | src/pages/Events.tsx:29-75 | Only the sort changes, and the shown list is re-derived. |
| `EventsPage.Page.ClearFilters` | src/pages/Events.tsx:77-84 | Sets search "", category "all" and sort "date", and drops the URL parameter. Afterwards no filter is active and the shown list is a permutation of the whole catalogue. |
| `EventDetails.RelatedEvents` | src/pages/EventDetails.tsx:53-57 | At most three events. |
| `EventDetails.RelatedEventsSpec` | src/pages/EventDetails.tsx:53-57 | The related list:<br>- holds catalogue events with the same category and a different id, in catalogue order;<br>- is the first three of them, or all of them when there are at most three;<br>- never holds the displayed event. |
| `EventDetails.SpotsLeftBounds` | src/pages/EventDetails.tsx:131 | Under the capacity invariant, 0 <= spotsLeft <= maxAttendees and spotsLeft + attendees = maxAttendees. |
| `EventDetails.RemoteSpotsLeft` | src/pages/EventDetails.tsx:131 | A remote event at index i has 150+20i free spots. |
| `EventDetails.BookingTotalBounds` | src/pages/EventDetails.tsx:368-377 | A well-formed event's dialog total is at least the service fee of 5. A remote event at index i has the total 104+50i, its price 99+50i plus the fee. |
| `EventDetails.BookNowStep` | src/pages/EventDetails.tsx:64-71 | Signed out: the return address becomes "/events/" + slug, the page goes to "/login" and the dialog is not opened. Signed in: the dialog opens and the store is unchanged. |
| `EventDetails.BookNowKeepsSession` | src/pages/EventDetails.tsx:64-71 | Book Now never changes the user, the token or the authenticated flag, and it keeps the session invariant. |
| `EventDetails.Page.constructor` | src/pages/EventDetails.tsx:38-43 | Initially there is no event and no related events. The page is loading and neither the dialog nor the booking flag is on. |
| `EventDetails.Page.Load` | src/pages/EventDetails.tsx:45-62 | Without a slug nothing changes. With a slug:<br>- the event comes from the slug lookup and loading ends;<br>- the related list is recomputed from the catalogue fetch only when the event was found. |
| `EventDetails.Page.Receive` | src/pages/EventDetails.tsx:50-60 | The looked-up event is stored and loading ends. When the event was found, the related list is recomputed from the catalogue. The dialog and booking flags are unchanged. |
| `EventDetails.Page.HandleBookNow` | src/pages/EventDetails.tsx:64-71 | Performs `BookNowStep` on the store and the page, and changes nothing else. |
| `EventDetails.Page.ConfirmBooking` | src/pages/EventDetails.tsx:73-84 | The dialog closes, the booking flag ends false and the page goes to "/dashboard/bookings". |
| `Home.FeaturedEvents` | src/pages/Home.tsx:63 | At most four events. |
| `Home.FeaturedEventsSpec` | src/pages/Home.tsx:63 | The featured list holds only featured catalogue events, in catalogue order. It is the first min(4, number featured) of them. |
| `Home.FeaturedPrefix` | src/pages/Home.tsx:63 | When exactly the first m events are featured, the featured filter keeps exactly those m. |
| `Home.RemoteFeatured` | src/pages/Home.tsx:63 | On a remote catalogue of n events, the featured list is the first min(4, n) events. |
| `Home.FirstFourFeatured` | src/pages/Home.tsx:63 | A catalogue whose first four entries are exactly the featured ones shows those four. |
| `Home.FallbackFeatured` | src/pages/Home.tsx:63 | On the fallback catalogue, the featured list is its first four events. |
| `Home.NextIndex` | src/pages/Home.tsx:65-67 | The next index stays in [0, n). |
| `Home.PrevIndex` | src/pages/Home.tsx:69-71 | The previous index stays in [0, n). |
| `Home.NextStep` | src/pages/Home.tsx:65-67 | On [0, n) the next index is k+1, or 0 after the last. |
| `Home.PrevStep` | src/pages/Home.tsx:69-71 | On [0, n) the previous index is k-1, or n-1 before the first. |
| `Home.CarouselStepsInverse` | src/pages/Home.tsx:65-71 | On [0, n), prev(next(k)) = k and next(prev(k)) = k. |
| `Home.Page.constructor` | src/pages/Home.tsx:52-54 | Initially there are no events, the provenance flag is true and the carousel is at 0. |
| `Home.Page.Load` | src/pages/Home.tsx:56-61 | After the fetch, the events and the provenance flag are the catalogue's. |
| `Home.Page.NextTestimonial` | src/pages/Home.tsx:65-67 | The carousel moves to the next index and stays in range. |
| `Home.Page.PrevTestimonial` | src/pages/Home.tsx:69-71 | The carousel moves to the previous index and stays in range. |
| `AuthStore.LocalPart` | src/store/authStore.ts:59 | `split('@')[0]` gives a prefix of the email that holds no '@' and is followed by '@' or the end of the email. |
| `AuthStore.LocalPartWithoutAt` | src/store/authStore.ts:59 | An email without '@' is its own username. |
| `AuthStore.LocalPartOfAddress` | src/store/authStore.ts:59 | The username of name@domain is name. |
| `AuthStore.MockUser` | src/store/authStore.ts:57-62 | The demo user has id "1", the local part as username, the email, and an avatar seeded by the email. |
| `AuthStore.LoggedIn` | src/store/authStore.ts:34-71 | An ok response sets the user and token from the body. A failure sets the mock user and mock token. Either way the session is authenticated, loading ends and the return address is kept. |
| `AuthStore.SignedUp` | src/store/authStore.ts:73-93 | Only loading changes, to false, whatever the outcome. |
| `AuthStore.LoggedOut` | src/store/authStore.ts:95-102 | The user, token, authenticated flag and return address are cleared. Loading is kept. |
| `AuthStore.WithReturnUrl` | src/store/authStore.ts:104-106 | Only the return address changes. |
| `AuthStore.TransitionsKeepConsistent` | src/store/authStore.ts:28-101 | "Authenticated exactly when a user and a token are present":<br>- holds initially;<br>- holds after login exactly when an ok response carries both;<br>- is kept by signup and by setReturnUrl;<br>- is restored by logout. |
| `AuthStore.SignupDoesNotAuthenticate` | src/store/authStore.ts:73-93 | Signing up never signs the user in. |
| `AuthStore.Partialize` | src/store/authStore.ts:108-114 | The persisted record is exactly the user, the token and the authenticated flag. |
| `AuthStore.Rehydrate` | src/store/authStore.ts:28-114 | Rehydration overlays the persisted fields on the initial state. |
| `AuthStore.PersistRoundTrip` | src/store/authStore.ts:108-114 | The persisted fields survive a restart. A state survives unchanged exactly when it is not loading and has no return address. The session invariant survives. |
| `AuthStore.Store.constructor` | src/store/authStore.ts:28-32 | The initial state: null user, token and return address, and both flags false. |
| `AuthStore.Store.Restore` | src/store/authStore.ts:108-114 | Starting from storage gives the rehydrated state. |
| `AuthStore.Store.Login` | src/store/authStore.ts:34-71 | Returns true and performs `LoggedIn`. |
| `AuthStore.Store.Signup` | src/store/authStore.ts:73-93 | Returns true and performs `SignedUp`. |
| `AuthStore.Store.Logout` | src/store/authStore.ts:95-102 | Performs `LoggedOut`. |
| `AuthStore.Store.SetReturnUrl` | src/store/authStore.ts:104-106 | Performs `WithReturnUrl`. |
| `ProtectedRoute.Decision` | src/components/ProtectedRoute.tsx:19-23 | The children are rendered exactly when the session is authenticated. Otherwise the guard redirects to "/login" with replace. |
| `ProtectedRoute.Guarded` | src/components/ProtectedRoute.tsx:13-17 | Signed out: the return address becomes the pathname. Signed in: the store is unchanged. |
| `ProtectedRoute.GuardKeepsSession` | src/components/ProtectedRoute.tsx:10-23 | The guard never changes the user, token, authenticated flag or loading flag, and it keeps the session invariant. |
| `ProtectedRoute.Guard` | src/components/ProtectedRoute.tsx:9-24 | Renders `Decision` for the session and performs `Guarded` on the store. |
| `LoginPage.RedirectTarget` | src/pages/Login.tsx:42 | The target is the return address when it is present and non-empty, otherwise "/dashboard". It is never empty. |
| `LoginPage.Submitted` | src/pages/Login.tsx:35-52 | The page navigates to the redirect target of the return address read before login. The store ends signed in with no return address. |
| `LoginPage.SecondSubmitGoesToDashboard` | src/pages/Login.tsx:42-44 | After a submit the session is authenticated with no return address, so a second submit goes to "/dashboard". |
| `LoginPage.GuardThenSubmit` | src/pages/Login.tsx:36-44 | A signed-out visit to a protected path, then a sign-in, lands on that exact path and leaves no return address. |
| `LoginPage.BookNowThenSubmit` | src/pages/Login.tsx:36-44 | Book Now on "/events/s" while signed out, then a sign-in, lands on "/events/s" and leaves no return address. |
| `LoginPage.OnSubmit` | src/pages/Login.tsx:35-52 | Performs `Submitted` on the store and returns its navigation. |
| `Bookings.CancelById` | src/pages/Bookings.tsx:93-97 | Length and order are kept. Each booking with the id becomes cancelled, and every other booking and every other field is unchanged. |
| `Bookings.CancelSpec` | src/pages/Bookings.tsx:93-97 | The ids are kept, and every booking with the id is cancelled. Bookings with other ids are unchanged. |
| `Bookings.CancelIdempotent` | src/pages/Bookings.tsx:93-97 | Cancelling twice is cancelling once. |
| `Bookings.CancelAlreadyCancelled` | src/pages/Bookings.tsx:95 | Cancelling an already cancelled booking leaves the list unchanged. |
| `Bookings.CancelAbsent` | src/pages/Bookings.tsx:93-97 | Cancelling an id that no booking carries leaves the list unchanged. |
| `Bookings.ActiveBookings` | src/pages/Bookings.tsx:106 | Holds exactly the bookings whose status is not cancelled. |
| `Bookings.CancelledBookings` | src/pages/Bookings.tsx:107 | Holds exactly the bookings whose status is cancelled. |
| `Bookings.ViewsLength` | src/pages/Bookings.tsx:106-107 | The lengths of the two views add up to the length of the list. |
| `Bookings.ActiveCount` | src/pages/Bookings.tsx:106 | The active count of a non-empty list is its tail's count, plus one when the head is active. |
| `Bookings.CancelShrinksActive` | src/pages/Bookings.tsx:93-106 | Cancelling the one active booking with a given id shrinks the active view by exactly one. |
| `Bookings.ViewsPartition` | src/pages/Bookings.tsx:106-107 | The two views partition the list. Each keeps list order, their lengths add up to the total, and together they hold each booking as often as the list does. |
| `Bookings.CancelMovesOne` | src/pages/Bookings.tsx:93-107 | Cancelling the one active booking with a given id makes the active count drop by one and the cancelled count rise by one. |
| `Bookings.LineTotal` | src/pages/Bookings.tsx:161 | The line total is the price for one ticket, and at least the price for one or more tickets when the price is not negative. |
| `Bookings.LineTotalPerTicket` | src/pages/Bookings.tsx:161 | No tickets cost nothing, and each further ticket adds the unit price, so the line total is the price times the ticket count. |
| `Bookings.ThreeActiveFirst` | src/pages/Bookings.tsx:106 | For three active bookings followed by a cancelled one, the active view is the first three. |
| `Bookings.OneCancelledLast` | src/pages/Bookings.tsx:107 | For three active bookings followed by a cancelled one, the cancelled view is the last one. |
| `Bookings.MockBookingsViews` | src/pages/Bookings.tsx:30-107 | The starting bookings split into three active and one cancelled. |
| `Bookings.MockBookingsTotals` | src/pages/Bookings.tsx:30-161 | The starting bookings have distinct ids and line totals 700, 499, 300 and 175. |
| `Bookings.Page.constructor` | src/pages/Bookings.tsx:85-87 | Starts with the mock bookings, nothing selected and no cancellation in progress. |
| `Bookings.Page.SelectForCancel` | src/pages/Bookings.tsx:189-193 | Selects the booking and changes nothing else. |
| `Bookings.Page.Dismiss` | src/pages/Bookings.tsx:238-251 | Clears the selection and changes nothing else. |
| `Bookings.Page.HandleCancel` | src/pages/Bookings.tsx:89-104 | With nothing selected nothing changes. Otherwise the bookings with the selected id become cancelled, the selection is cleared and the cancelling flag ends false. |

## Left out

- **Rendering:** JSX, styling, animation, icons, toasts and dialog markup are not modelled. The `viewMode` switch of the events page is not modelled either.
- **Network:** `fetch`, `response.json()` and `console.log` are not modelled. The outcome of each request is a parameter. A login response body's `user` and `token` fields are taken as optional values, as the code does.
- **Password:** the login and signup password is only forwarded to the server, so it is not modelled.
- **Persistence:** the internals of zustand's `create`/`persist` and of `localStorage` are not modelled. Only the `partialize` projection and the rehydration overlay are.
- **Dates:** the date sort parses dates with `new Date(...).getTime()`. The model assumes every `date` is a well-formed `yyyy-mm-dd` string and compares dates as strings, which gives the same order for such dates. Other strings are not ordered as the page orders them. For example, "2024-9-1" sorts after "2024-10-01" as a string but before it by time. For an unparsable date the page's comparator returns NaN, which the model does not represent. Remote dates are passed through unchecked, so the assumption is not enforced on that path. `toLocaleDateString` formatting is not modelled.
- **`spotsPercentage`:** it is a floating-point ratio and is not modelled.
- **Latency:** the `setTimeout` delays in `confirmBooking` and `handleCancel` are not modelled. Each handler is one atomic step.
- **Concurrent fetches:** the two fetches behind `Promise.all` on the detail page are two independent outcome parameters. Their interleaving is not modelled.
- **Lower-casing:** `toLowerCase` is modelled for ASCII letters only. Other letters are left as they are.
- **Search on the fallback catalogue:** the example that the query "jazz" on the fallback catalogue yields only the event with id "5" is not proved. `EventsPage.SearchSelectsOne` reduces it to one fact per event, and `EventsPage.NoMatchForMissingLetters` reduces each of those to a letter that is missing from each searched field. The remaining step is to show that 'z' or 'j' is absent from the description literals of up to 230 characters, and the solver does not decide membership in string literals of that length. `EventsPage.QueryResultMatchesSearch` and `EventsPage.QueryResultMultiset` state the general behaviour.
- **Slug collision example:** the slug collision is stated for any two titles that differ only in case (`Api.RemoteSlugsCollide`), not for one concrete response.
- **`EventsPage.SortInPlace`:** it sorts a local array with an insertion sort rather than the engine's algorithm. `EventsPage.StableSortUnique` shows that the result is the same for every stable sort.
- **`Bookings.Page.SelectForCancel`:** it requires the booking to be in the active view, because the Cancel button is rendered only for active bookings.
- **`Home.Page.NextTestimonial`, `Home.Page.PrevTestimonial`:** they require the page invariant (index in range). The page establishes it and keeps it.
