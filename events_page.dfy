/**
 * The events listing page: a case-insensitive text search, an exact category
 * filter and one of four sort orders applied to the catalogue, recomputed
 * whenever the catalogue or one of the three query controls changes.
 *
 * `Array.prototype.sort` is stable, so the sorted list is determined by the
 * comparator alone; it is modelled by a stable insertion sort (`StableSort`),
 * and `StableSortUnique` shows that any sorted, stable permutation is that
 * same list.
 */
module EventsPage {
  import opened JsLib
  import opened EventsData
  import Api

  // ---------------------------------------------------------------------------
  // Sort orders and their comparators
  // ---------------------------------------------------------------------------

  /** The four values of the sort control that select a comparator. */
  datatype SortKey = ByDate | ByPriceLow | ByPriceHigh | ByPopularity

  /** The `switch (sortBy)`: an unrecognised value selects no sort at all. */
  function SortOrder(sortBy: string): (k: Option<SortKey>)
    ensures k == Some(ByDate) <==> sortBy == "date"
    ensures k == Some(ByPriceLow) <==> sortBy == "price-low"
    ensures k == Some(ByPriceHigh) <==> sortBy == "price-high"
    ensures k == Some(ByPopularity) <==> sortBy == "popularity"
  {
    if sortBy == "date" then Some(ByDate)
    else if sortBy == "price-low" then Some(ByPriceLow)
    else if sortBy == "price-high" then Some(ByPriceHigh)
    else if sortBy == "popularity" then Some(ByPopularity)
    else None
  }

  /**
   * Lexicographic order on strings. Event dates are ISO `yyyy-mm-dd` strings,
   * for which it agrees with the order of the instants they denote.
   */
  predicate LexLe(a: string, b: string)
    decreases |a|
  {
    a == [] || (b != [] && (a[0] < b[0] || (a[0] == b[0] && LexLe(a[1..], b[1..]))))
  }

  lemma {:induction false} LexLeReflexive(a: string)
    ensures LexLe(a, a)
    decreases |a|
  {
    if a != [] {
      LexLeReflexive(a[1..]);
    }
  }

  lemma {:induction false} LexLeTotal(a: string, b: string)
    ensures LexLe(a, b) || LexLe(b, a)
    decreases |a|
  {
    if a != [] && b != [] && a[0] == b[0] {
      LexLeTotal(a[1..], b[1..]);
    }
  }

  lemma {:induction false} LexLeTransitive(a: string, b: string, c: string)
    requires LexLe(a, b) && LexLe(b, c)
    ensures LexLe(a, c)
    decreases |a|
  {
    if a != [] && a[0] == b[0] && b[0] == c[0] {
      LexLeTransitive(a[1..], b[1..], c[1..]);
    }
  }

  /**
   * `compare(a, b) <= 0` for the comparator of sort order `k`: a stable sort
   * may leave `a` in front of `b`.
   */
  predicate Before(k: SortKey, a: Event, b: Event) {
    match k
    case ByDate => LexLe(a.date, b.date)
    case ByPriceLow => a.price <= b.price
    case ByPriceHigh => b.price <= a.price
    case ByPopularity => b.attendees <= a.attendees
  }

  /** The comparator returns 0: the two events are equal in sort order `k`. */
  predicate Ties(k: SortKey, a: Event, b: Event) {
    Before(k, a, b) && Before(k, b, a)
  }

  /** Every comparator is a total preorder. */
  lemma BeforeTotalPreorder(k: SortKey, a: Event, b: Event, c: Event)
    ensures Before(k, a, a)
    ensures Before(k, a, b) || Before(k, b, a)
    ensures Before(k, a, b) && Before(k, b, c) ==> Before(k, a, c)
  {
    if k == ByDate {
      LexLeReflexive(a.date);
      LexLeTotal(a.date, b.date);
      if Before(k, a, b) && Before(k, b, c) {
        LexLeTransitive(a.date, b.date, c.date);
      }
    }
  }

  /** `s` is in the order of comparator `k`. */
  predicate Sorted(s: seq<Event>, k: SortKey) {
    forall i, j :: 0 <= i < j < |s| ==> Before(k, s[i], s[j])
  }

  /** The events of `s` that compare equal to `x`, in their order in `s`. */
  function TiesWith(s: seq<Event>, k: SortKey, x: Event): (r: seq<Event>)
    ensures |r| <= |s|
    decreases |s|
  {
    if s == [] then [] else (if Ties(k, s[0], x) then [s[0]] else []) + TiesWith(s[1..], k, x)
  }

  lemma {:induction false} TiesWithConcat(s: seq<Event>, t: seq<Event>, k: SortKey, x: Event)
    ensures TiesWith(s + t, k, x) == TiesWith(s, k, x) + TiesWith(t, k, x)
    decreases |s|
  {
    if s == [] {
      assert s + t == t;
    } else {
      assert (s + t)[1..] == s[1..] + t;
      TiesWithConcat(s[1..], t, k, x);
    }
  }

  // ---------------------------------------------------------------------------
  // The stable sort
  // ---------------------------------------------------------------------------

  /**
   * Insert `x` into `sorted` behind every element that may precede it,
   * scanning from the back as an insertion sort does.
   */
  function InsertSorted(sorted: seq<Event>, x: Event, k: SortKey): (r: seq<Event>)
    ensures |r| == |sorted| + 1
    decreases |sorted|
  {
    if sorted == [] then [x]
    else if Before(k, sorted[|sorted| - 1], x) then sorted + [x]
    else InsertSorted(sorted[..|sorted| - 1], x, k) + [sorted[|sorted| - 1]]
  }

  /** The list `Array.prototype.sort` produces with the comparator of `k`. */
  function StableSort(s: seq<Event>, k: SortKey): (r: seq<Event>)
    ensures |r| == |s|
    decreases |s|
  {
    if s == [] then [] else InsertSorted(StableSort(s[..|s| - 1], k), s[|s| - 1], k)
  }

  lemma {:induction false} InsertSortedMultiset(sorted: seq<Event>, x: Event, k: SortKey)
    ensures multiset(InsertSorted(sorted, x, k)) == multiset(sorted) + multiset{x}
    decreases |sorted|
  {
    if sorted != [] && !Before(k, sorted[|sorted| - 1], x) {
      var init := sorted[..|sorted| - 1];
      InsertSortedMultiset(init, x, k);
      assert sorted == init + [sorted[|sorted| - 1]];
    }
  }

  /** Sorting neither adds, drops nor duplicates an event. */
  lemma {:induction false} StableSortMultiset(s: seq<Event>, k: SortKey)
    ensures multiset(StableSort(s, k)) == multiset(s)
    decreases |s|
  {
    if s != [] {
      var init := s[..|s| - 1];
      StableSortMultiset(init, k);
      InsertSortedMultiset(StableSort(init, k), s[|s| - 1], k);
      assert s == init + [s[|s| - 1]];
    }
  }

  lemma {:induction false} InsertSortedSorted(sorted: seq<Event>, x: Event, k: SortKey)
    requires Sorted(sorted, k)
    ensures Sorted(InsertSorted(sorted, x, k), k)
    decreases |sorted|
  {
    if sorted != [] {
      var last := sorted[|sorted| - 1];
      var r := InsertSorted(sorted, x, k);
      if Before(k, last, x) {
        forall i, j | 0 <= i < j < |r| ensures Before(k, r[i], r[j]) {
          if j == |sorted| && i < |sorted| - 1 {
            BeforeTotalPreorder(k, r[i], last, x);
          }
        }
      } else {
        var init := sorted[..|sorted| - 1];
        var front := InsertSorted(init, x, k);
        InsertSortedSorted(init, x, k);
        InsertSortedMultiset(init, x, k);
        BeforeTotalPreorder(k, last, x, x);
        forall i, j | 0 <= i < j < |r| ensures Before(k, r[i], r[j]) {
          if j == |r| - 1 {
            assert r[i] == front[i];
            assert r[i] in multiset(init) + multiset{x};
            assert r[i] == x || r[i] in init;
          }
        }
      }
    }
  }

  /** The sorted list is in the order of the comparator. */
  lemma {:induction false} StableSortSorted(s: seq<Event>, k: SortKey)
    ensures Sorted(StableSort(s, k), k)
    decreases |s|
  {
    if s != [] {
      StableSortSorted(s[..|s| - 1], k);
      InsertSortedSorted(StableSort(s[..|s| - 1], k), s[|s| - 1], k);
    }
  }

  /** Inserting `x` appends it to the events it ties with and moves no other tie. */
  lemma {:induction false} InsertSortedTies(sorted: seq<Event>, x: Event, k: SortKey, y: Event)
    ensures TiesWith(InsertSorted(sorted, x, k), k, y)
         == TiesWith(sorted, k, y) + (if Ties(k, x, y) then [x] else [])
    decreases |sorted|, 1
  {
    if sorted == [] {
    } else if Before(k, sorted[|sorted| - 1], x) {
      TiesWithConcat(sorted, [x], k, y);
    } else {
      InsertSortedTiesShift(sorted, x, k, y);
    }
  }

  /** The case where `x` moves in front of the last element. */
  lemma {:induction false} InsertSortedTiesShift(sorted: seq<Event>, x: Event, k: SortKey, y: Event)
    requires sorted != [] && !Before(k, sorted[|sorted| - 1], x)
    ensures TiesWith(InsertSorted(sorted, x, k), k, y)
         == TiesWith(sorted, k, y) + (if Ties(k, x, y) then [x] else [])
    decreases |sorted|, 0
  {
    var last := sorted[|sorted| - 1];
    var init := sorted[..|sorted| - 1];
    var front := InsertSorted(init, x, k);
    var xs: seq<Event> := if Ties(k, x, y) then [x] else [];
    var ls: seq<Event> := if Ties(k, last, y) then [last] else [];
    var common := TiesWith(init, k, y);
    assert TiesWith(front + [last], k, y) == common + xs + ls by {
      InsertSortedTies(init, x, k, y);
      TiesWithConcat(front, [last], k, y);
      assert TiesWith([last], k, y) == ls;
    }
    assert TiesWith(sorted, k, y) == common + ls by {
      TiesWithConcat(init, [last], k, y);
      assert sorted == init + [last];
      assert TiesWith([last], k, y) == ls;
    }
    assert xs + ls == ls + xs by {
      TiesExcludeEachOther(k, last, x, y);
    }
    assert InsertSorted(sorted, x, k) == front + [last];
    SwapTail(common, xs, ls);
  }

  lemma SwapTail<T>(c: seq<T>, xs: seq<T>, ls: seq<T>)
    requires xs + ls == ls + xs
    ensures c + xs + ls == c + ls + xs
  {
    calc {
      c + xs + ls;
      c + (xs + ls);
      c + (ls + xs);
      c + ls + xs;
    }
  }

  /** An event that must follow `x` cannot tie with anything `x` ties with. */
  lemma TiesExcludeEachOther(k: SortKey, last: Event, x: Event, y: Event)
    requires !Before(k, last, x)
    ensures !(Ties(k, x, y) && Ties(k, last, y))
  {
    BeforeTotalPreorder(k, last, y, x);
  }

  /** Stability: events that compare equal keep their relative input order. */
  lemma {:induction false} StableSortTies(s: seq<Event>, k: SortKey, y: Event)
    ensures TiesWith(StableSort(s, k), k, y) == TiesWith(s, k, y)
    decreases |s|
  {
    if s != [] {
      var init := s[..|s| - 1];
      StableSortTies(init, k, y);
      InsertSortedTies(StableSort(init, k), s[|s| - 1], k, y);
      assert s == init + [s[|s| - 1]];
      TiesWithConcat(init, [s[|s| - 1]], k, y);
    }
  }

  lemma TiesWithTail(s: seq<Event>, k: SortKey, y: Event)
    requires s != []
    ensures TiesWith(s[1..], k, y) == TiesWith(s, k, y)[if Ties(k, s[0], y) then 1 else 0..]
  {
  }

  /** The first elements of two sorted permutations of each other compare equal. */
  lemma SortedHeadsTie(t: seq<Event>, u: seq<Event>, k: SortKey)
    requires t != [] && multiset(t) == multiset(u)
    requires Sorted(t, k) && Sorted(u, k)
    ensures u != [] && Ties(k, u[0], t[0])
  {
    assert t[0] in multiset(u);
    assert u != [] && u[0] in multiset(t);
    var i :| 0 <= i < |t| && t[i] == u[0];
    var j :| 0 <= j < |u| && u[j] == t[0];
    BeforeTotalPreorder(k, t[0], t[0], t[0]);
    BeforeTotalPreorder(k, u[0], u[0], u[0]);
  }

  /** Two sorted, stable permutations of each other start with the same event. */
  lemma SortedStableHeads(t: seq<Event>, u: seq<Event>, k: SortKey)
    requires t != [] && multiset(t) == multiset(u)
    requires Sorted(t, k) && Sorted(u, k)
    requires TiesWith(t, k, t[0]) == TiesWith(u, k, t[0])
    ensures u != [] && u[0] == t[0]
  {
    SortedHeadsTie(t, u, k);
    BeforeTotalPreorder(k, t[0], t[0], t[0]);
    assert TiesWith(t, k, t[0])[0] == t[0];
  }

  lemma SortedTail(s: seq<Event>, k: SortKey)
    requires s != [] && Sorted(s, k)
    ensures Sorted(s[1..], k)
  {
    forall i, j | 0 <= i < j < |s| - 1 ensures Before(k, s[1..][i], s[1..][j]) {
      assert s[1..][i] == s[i + 1] && s[1..][j] == s[j + 1];
    }
  }

  lemma MultisetTail(t: seq<Event>, u: seq<Event>)
    requires t != [] && u != [] && t[0] == u[0]
    requires multiset(t) == multiset(u)
    ensures multiset(t[1..]) == multiset(u[1..])
  {
    assert t == [t[0]] + t[1..] && u == [u[0]] + u[1..];
    assert multiset(t[1..]) == multiset(t) - multiset{t[0]};
    assert multiset(u[1..]) == multiset(u) - multiset{u[0]};
  }

  lemma TiesWithTails(t: seq<Event>, u: seq<Event>, k: SortKey)
    requires t != [] && u != [] && t[0] == u[0]
    requires forall y :: TiesWith(t, k, y) == TiesWith(u, k, y)
    ensures forall y :: TiesWith(t[1..], k, y) == TiesWith(u[1..], k, y)
  {
    forall y ensures TiesWith(t[1..], k, y) == TiesWith(u[1..], k, y) {
      TiesWithTail(t, k, y);
      TiesWithTail(u, k, y);
    }
  }

  /**
   * A sorted, stable permutation is unique: two sorted lists with the same
   * elements and the same order among equal elements are the same list.
   */
  lemma {:induction false} SortedStableUnique(t: seq<Event>, u: seq<Event>, k: SortKey)
    requires multiset(t) == multiset(u)
    requires Sorted(t, k) && Sorted(u, k)
    requires forall y :: TiesWith(t, k, y) == TiesWith(u, k, y)
    ensures t == u
    decreases |t|
  {
    if t == [] {
      assert |u| == |multiset(u)| == 0;
    } else {
      SortedStableHeads(t, u, k);
      MultisetTail(t, u);
      SortedTail(t, k);
      SortedTail(u, k);
      TiesWithTails(t, u, k);
      SortedStableUnique(t[1..], u[1..], k);
      assert t == [t[0]] + t[1..] && u == [u[0]] + u[1..];
    }
  }

  /**
   * The sort's reference definition: any permutation of `s` that is sorted and
   * keeps equal events in input order is `StableSort(s, k)`.
   */
  lemma StableSortUnique(s: seq<Event>, k: SortKey, t: seq<Event>)
    requires multiset(t) == multiset(s)
    requires Sorted(t, k)
    requires forall y :: TiesWith(t, k, y) == TiesWith(s, k, y)
    ensures t == StableSort(s, k)
  {
    StableSortMultiset(s, k);
    StableSortSorted(s, k);
    forall y ensures TiesWith(t, k, y) == TiesWith(StableSort(s, k), k, y) {
      StableSortTies(s, k, y);
    }
    SortedStableUnique(t, StableSort(s, k), k);
  }

  /** Sorting a list that is already in order returns it unchanged. */
  lemma StableSortOfSorted(s: seq<Event>, k: SortKey)
    requires Sorted(s, k)
    ensures StableSort(s, k) == s
  {
    StableSortUnique(s, k, s);
  }

  /**
   * `x` is inserted at position `j` when the element in front of `j` may
   * precede it and every element from `j` on must follow it.
   */
  lemma {:induction false} InsertSortedAt(sorted: seq<Event>, x: Event, k: SortKey, j: nat)
    requires j <= |sorted|
    requires j == 0 || Before(k, sorted[j - 1], x)
    requires forall m :: j <= m < |sorted| ==> !Before(k, sorted[m], x)
    ensures InsertSorted(sorted, x, k) == sorted[..j] + [x] + sorted[j..]
    decreases |sorted|
  {
    if j < |sorted| {
      var init := sorted[..|sorted| - 1];
      InsertSortedAt(init, x, k, j);
      assert init[..j] == sorted[..j];
      assert sorted[j..] == init[j..] + [sorted[|sorted| - 1]];
    }
  }

  /**
   * One pass of the insertion sort: the element at `i` is shifted left into
   * the prefix `a[..i]`, past every element that must follow it.
   */
  method InsertInPlace(a: array<Event>, i: int, k: SortKey)
    requires 0 <= i < a.Length
    modifies a
    ensures a[..i + 1] == InsertSorted(old(a[..i]), old(a[i]), k)
    ensures a[i + 1..] == old(a[i + 1..])
  {
    ghost var sorted := a[..i];
    var x := a[i];
    var j := i;
    while j > 0 && !Before(k, a[j - 1], x)
      invariant 0 <= j <= i
      invariant a[..j] == sorted[..j]
      invariant a[j + 1..i + 1] == sorted[j..i]
      invariant a[i + 1..] == old(a[i + 1..])
      invariant forall m :: j <= m < i ==> !Before(k, sorted[m], x)
    {
      a[j] := a[j - 1];
      j := j - 1;
    }
    a[j] := x;
    InsertSortedAt(sorted, x, k, j);
    assert a[..i + 1] == sorted[..j] + [x] + sorted[j..];
  }

  /** Sorting one more element of the input is inserting it into the sorted prefix. */
  lemma StableSortStep(input: seq<Event>, i: nat, k: SortKey)
    requires i < |input|
    ensures StableSort(input[..i + 1], k) == InsertSorted(StableSort(input[..i], k), input[i], k)
  {
    assert input[..i + 1][..i] == input[..i];
  }

  /** One pass of the sort: the sorted prefix of the input grows by one element. */
  method SortPass(a: array<Event>, i: int, k: SortKey, ghost input: seq<Event>)
    requires 0 <= i < a.Length == |input|
    requires a[..i] == StableSort(input[..i], k) && a[i..] == input[i..]
    modifies a
    ensures a[..i + 1] == StableSort(input[..i + 1], k) && a[i + 1..] == input[i + 1..]
  {
    assert a[i] == input[i];
    ghost var rest := a[i + 1..];
    assert rest == input[i + 1..];
    InsertInPlace(a, i, k);
    StableSortStep(input, i, k);
  }

  /**
   * `result.sort(compare)`: an insertion sort in place, one pass per
   * element.
   */
  method SortInPlace(a: array<Event>, k: SortKey)
    modifies a
    ensures a[..] == StableSort(old(a[..]), k)
  {
    ghost var input := a[..];
    var i := 0;
    while i < a.Length
      invariant 0 <= i <= a.Length
      invariant a[..i] == StableSort(input[..i], k)
      invariant a[i..] == input[i..]
    {
      SortPass(a, i, k, input);
      i := i + 1;
    }
    assert input[..a.Length] == input;
  }

  // ---------------------------------------------------------------------------
  // The query: search, category, sort
  // ---------------------------------------------------------------------------

  /** The three query controls of the page. */
  datatype Query = Query(search: string, category: string, sortBy: string)

  /** The case-insensitive search: the query occurs in the title, description or location. */
  predicate MatchesSearch(e: Event, q: string) {
    Includes(Lower(e.title), Lower(q))
    || Includes(Lower(e.description), Lower(q))
    || Includes(Lower(e.location), Lower(q))
  }

  /** The search step runs only for a non-empty query. */
  function SearchStep(events: seq<Event>, q: string): seq<Event> {
    if q != "" then Filter(events, (e: Event) => MatchesSearch(e, q)) else events
  }

  /** The category step runs unless the category is empty or "all". */
  function CategoryStep(events: seq<Event>, c: string): seq<Event> {
    if c != "" && c != "all" then Filter(events, (e: Event) => e.category == c) else events
  }

  /** The sort step; an unrecognised sort value leaves the order as it is. */
  function SortStep(events: seq<Event>, sortBy: string): seq<Event> {
    match SortOrder(sortBy)
    case Some(k) => StableSort(events, k)
    case None => events
  }

  /** An event survives both filters of query `q`. */
  predicate Passes(e: Event, q: Query) {
    (q.search == "" || MatchesSearch(e, q.search))
    && (q.category == "" || q.category == "all" || e.category == q.category)
  }

  /** The two filters, in the order the page applies them. */
  function Filtered(events: seq<Event>, q: Query): seq<Event> {
    CategoryStep(SearchStep(events, q.search), q.category)
  }

  /** The list the page shows for catalogue `events` and query `q`. */
  function QueryResult(events: seq<Event>, q: Query): seq<Event> {
    SortStep(Filtered(events, q), q.sortBy)
  }

  /** The filters keep exactly the passing events, in catalogue order. */
  lemma FilteredIsFilter(events: seq<Event>, q: Query)
    ensures Filtered(events, q) == Filter(events, (e: Event) => Passes(e, q))
  {
    var p := (e: Event) => q.search == "" || MatchesSearch(e, q.search);
    var c := (e: Event) => q.category == "" || q.category == "all" || e.category == q.category;
    var pc := (e: Event) => Passes(e, q);
    FilterOfFilter(events, p, c, pc);
    if q.search != "" {
      FilterSame(events, p, (e: Event) => MatchesSearch(e, q.search));
    } else {
      FilterKeepsAll(events, p);
    }
    var searched := SearchStep(events, q.search);
    if q.category != "" && q.category != "all" {
      FilterSame(searched, c, (e: Event) => e.category == q.category);
    } else {
      FilterKeepsAll(searched, c);
    }
  }

  /**
   * The result is a permutation of the catalogue events that pass both
   * filters: each passing event occurs as often as in the catalogue, every
   * other event not at all.
   */
  lemma QueryResultMultiset(events: seq<Event>, q: Query)
    ensures forall e :: multiset(QueryResult(events, q))[e]
                     == if Passes(e, q) then multiset(events)[e] else 0
    ensures forall e :: e in QueryResult(events, q) <==> e in events && Passes(e, q)
  {
    FilteredIsFilter(events, q);
    FilterMultiset(events, (e: Event) => Passes(e, q));
    var f := Filtered(events, q);
    match SortOrder(q.sortBy)
    case Some(k) => StableSortMultiset(f, k);
    case None =>
    forall e ensures e in QueryResult(events, q) <==> e in events && Passes(e, q) {
      assert e in QueryResult(events, q) <==> multiset(QueryResult(events, q))[e] > 0;
    }
  }

  /** A non-empty search keeps only events whose title, description or location contain it. */
  lemma QueryResultMatchesSearch(events: seq<Event>, q: Query)
    requires q.search != ""
    ensures forall e :: e in QueryResult(events, q) ==> MatchesSearch(e, q.search)
  {
    QueryResultMultiset(events, q);
  }

  /** A category other than "" and "all" keeps only events of exactly that category. */
  lemma QueryResultMatchesCategory(events: seq<Event>, q: Query)
    requires q.category != "" && q.category != "all"
    ensures forall e :: e in QueryResult(events, q) ==> e.category == q.category
  {
    QueryResultMultiset(events, q);
  }

  /**
   * With an empty search and category "" or "all", no event is removed: the
   * result is a permutation of the catalogue.
   */
  lemma EmptyQueryKeepsAll(events: seq<Event>, q: Query)
    requires q.search == "" && (q.category == "" || q.category == "all")
    ensures multiset(QueryResult(events, q)) == multiset(events)
  {
    QueryResultMultiset(events, q);
    assert forall e :: Passes(e, q);
  }

  /**
   * The four sort values give the documented orders, and in each the events
   * that compare equal keep their filtered order; any other value keeps the
   * filtered order exactly.
   */
  lemma QueryResultOrder(events: seq<Event>, q: Query)
    ensures q.sortBy == "date" ==> forall i, j :: 0 <= i < j < |QueryResult(events, q)| ==>
      LexLe(QueryResult(events, q)[i].date, QueryResult(events, q)[j].date)
    ensures q.sortBy == "price-low" ==> forall i, j :: 0 <= i < j < |QueryResult(events, q)| ==>
      QueryResult(events, q)[i].price <= QueryResult(events, q)[j].price
    ensures q.sortBy == "price-high" ==> forall i, j :: 0 <= i < j < |QueryResult(events, q)| ==>
      QueryResult(events, q)[i].price >= QueryResult(events, q)[j].price
    ensures q.sortBy == "popularity" ==> forall i, j :: 0 <= i < j < |QueryResult(events, q)| ==>
      QueryResult(events, q)[i].attendees >= QueryResult(events, q)[j].attendees
    ensures SortOrder(q.sortBy).Some? ==> forall y ::
      TiesWith(QueryResult(events, q), SortOrder(q.sortBy).value, y)
      == TiesWith(Filtered(events, q), SortOrder(q.sortBy).value, y)
    ensures SortOrder(q.sortBy).None? ==> QueryResult(events, q) == Filter(events, (e: Event) => Passes(e, q))
  {
    FilteredIsFilter(events, q);
    match SortOrder(q.sortBy)
    case Some(k) =>
      StableSortSorted(Filtered(events, q), k);
      forall y ensures TiesWith(QueryResult(events, q), k, y) == TiesWith(Filtered(events, q), k, y) {
        StableSortTies(Filtered(events, q), k, y);
      }
    case None =>
  }

  /** The result, once computed, is a fixed point: re-applying the query changes nothing. */
  lemma QueryResultIdempotent(events: seq<Event>, q: Query)
    ensures QueryResult(QueryResult(events, q), q) == QueryResult(events, q)
  {
    var r := QueryResult(events, q);
    QueryResultMultiset(events, q);
    FilteredIsFilter(r, q);
    FilterKeepsAll(r, (e: Event) => Passes(e, q));
    match SortOrder(q.sortBy)
    case Some(k) =>
      StableSortSorted(Filtered(events, q), k);
      StableSortOfSorted(r, k);
    case None =>
  }

  /**
   * The effect of the page: copy the catalogue, filter it, sort the copy in
   * place with the selected comparator.
   */
  method ApplyQuery(events: seq<Event>, q: Query) returns (result: seq<Event>)
    ensures result == QueryResult(events, q)
  {
    var filtered := events;
    // The verifier treats each occurrence of a lambda as a term of its own, so
    // `FilterSame` identifies the filter below with the one in `SearchStep`,
    // and likewise for `CategoryStep`.
    if q.search != "" {
      filtered := Filter(filtered, (e: Event) => MatchesSearch(e, q.search));
      FilterSame(events, (e: Event) => MatchesSearch(e, q.search), (e: Event) => MatchesSearch(e, q.search));
    }
    assert filtered == SearchStep(events, q.search);
    if q.category != "" && q.category != "all" {
      ghost var searched := filtered;
      filtered := Filter(filtered, (e: Event) => e.category == q.category);
      FilterSame(searched, (e: Event) => e.category == q.category, (e: Event) => e.category == q.category);
    }
    assert filtered == Filtered(events, q);
    var a := new Event[|filtered|](i requires 0 <= i < |filtered| => filtered[i]);
    assert a[..] == filtered;
    var order := SortOrder(q.sortBy);
    if order.Some? {
      SortInPlace(a, order.value);
    }
    result := a[..];
  }

  /** The category step on a catalogue with the fallback catalogue's categories. */
  lemma CorporateFilter(d: seq<Event>)
    requires |d| == 8
    requires d[0].category == "Corporate" && d[1].category == "Corporate"
    requires d[2].category == "Private Parties" && d[3].category == "Weddings"
    requires d[4].category == "Concerts" && d[5].category == "Workshops"
    requires d[6].category == "Corporate" && d[7].category == "Corporate"
    ensures Filtered(d, Query("", "Corporate", "price-low")) == [d[0], d[1], d[6], d[7]]
  {
    var p := (e: Event) => e.category == "Corporate";
    FilterFallbackShape(d, p);
    assert Filtered(d, Query("", "Corporate", "price-low")) == Filter(d, p);
  }

  /** Sorting four events priced 350, 499, 500 and 50 by ascending price. */
  lemma PriceLowFour(a: Event, b: Event, c: Event, e: Event)
    requires a.price == 350 && b.price == 499 && c.price == 500 && e.price == 50
    ensures StableSort([a, b, c, e], ByPriceLow) == [e, a, b, c]
  {
    var f := [a, b, c, e];
    assert f[..1][..0] == [];
    assert StableSort(f[..1], ByPriceLow) == [a];
    assert f[..2][..1] == f[..1];
    assert StableSort(f[..2], ByPriceLow) == [a, b];
    assert f[..3][..2] == f[..2];
    assert StableSort(f[..3], ByPriceLow) == [a, b, c];
    assert f[..4] == f && f[..3] == [a, b, c];
    assert InsertSorted([a], e, ByPriceLow) == [e, a];
    assert InsertSorted([a, b], e, ByPriceLow) == [e, a, b];
    assert InsertSorted([a, b, c], e, ByPriceLow) == [e, a, b, c];
  }

  /**
   * The category/price query on any eight-entry catalogue whose categories and
   * prices are those of the fallback catalogue.
   */
  lemma CorporateByPrice(d: seq<Event>)
    requires |d| == 8
    requires d[0].category == "Corporate" && d[1].category == "Corporate"
    requires d[2].category == "Private Parties" && d[3].category == "Weddings"
    requires d[4].category == "Concerts" && d[5].category == "Workshops"
    requires d[6].category == "Corporate" && d[7].category == "Corporate"
    requires d[0].price == 350 && d[1].price == 499 && d[6].price == 500 && d[7].price == 50
    ensures QueryResult(d, Query("", "Corporate", "price-low")) == [d[7], d[0], d[1], d[6]]
  {
    CorporateFilter(d);
    PriceLowFour(d[0], d[1], d[6], d[7]);
  }

  /**
   * On the fallback catalogue, category "Corporate" sorted by ascending price
   * lists the events with ids 8, 1, 2 and 7 (prices 50, 350, 499, 500).
   */
  lemma CorporateByPriceExample()
    ensures |QueryResult(DummyEvents, Query("", "Corporate", "price-low"))| == 4
    ensures QueryResult(DummyEvents, Query("", "Corporate", "price-low"))[0].id == "8"
    ensures QueryResult(DummyEvents, Query("", "Corporate", "price-low"))[1].id == "1"
    ensures QueryResult(DummyEvents, Query("", "Corporate", "price-low"))[2].id == "2"
    ensures QueryResult(DummyEvents, Query("", "Corporate", "price-low"))[3].id == "7"
  {
    CorporateByPrice(DummyEvents);
  }

  /** A field holding, in neither case, some lower-case letter of the query does not contain the query. */
  lemma FieldLacksQuery(t: string, q: string, c: char)
    requires 'a' <= c <= 'z' && c in Lower(q)
    requires c !in t && (c as int - 32) as char !in t
    ensures !Includes(Lower(t), Lower(q))
  {
    LowerLacks(t, c);
    MissingCharNotIncluded(Lower(t), Lower(q), c);
  }

  /** An event each of whose searched fields lacks some letter of the query does not match it. */
  lemma NoMatchForMissingLetters(e: Event, q: string, ct: char, cd: char, cl: char)
    requires 'a' <= ct <= 'z' && ct in Lower(q) && ct !in e.title && (ct as int - 32) as char !in e.title
    requires 'a' <= cd <= 'z' && cd in Lower(q) && cd !in e.description && (cd as int - 32) as char !in e.description
    requires 'a' <= cl <= 'z' && cl in Lower(q) && cl !in e.location && (cl as int - 32) as char !in e.location
    ensures !MatchesSearch(e, q)
  {
    FieldLacksQuery(e.title, q, ct);
    FieldLacksQuery(e.description, q, cd);
    FieldLacksQuery(e.location, q, cl);
  }

  /**
   * A search that exactly one catalogue event matches, with every category,
   * yields that event alone whatever the sort.
   */
  lemma SearchSelectsOne(d: seq<Event>, q: Query, k: nat)
    requires q.search != "" && q.category == "all"
    requires k < |d| && MatchesSearch(d[k], q.search)
    requires forall i :: 0 <= i < |d| && i != k ==> !MatchesSearch(d[i], q.search)
    ensures QueryResult(d, q) == [d[k]]
  {
    FilterSingle(d, (e: Event) => MatchesSearch(e, q.search), k);
    assert Filtered(d, q) == [d[k]];
    match SortOrder(q.sortBy)
    case Some(key) => StableSortOfSorted([d[k]], key);
    case None =>
  }

  // ---------------------------------------------------------------------------
  // The page state
  // ---------------------------------------------------------------------------

  /**
   * The state of the events page: the loaded catalogue, its provenance, the
   * three query controls, the `category` URL parameter, and the derived list.
   */
  class Page {
    var events: seq<Event>
    var filteredEvents: seq<Event>
    var isFromAPI: bool
    var isLoading: bool
    var searchQuery: string
    var selectedCategory: string
    var sortBy: string
    var urlCategory: Option<string>

    function CurrentQuery(): Query
      reads this
    {
      Query(searchQuery, selectedCategory, sortBy)
    }

    /** The derived list is up to date with the catalogue and the query. */
    predicate Valid()
      reads this
    {
      filteredEvents == QueryResult(events, CurrentQuery())
    }

    /** A search text, or a category other than "all", is in force. */
    predicate HasActiveFilters()
      reads this
    {
      searchQuery != "" || (selectedCategory != "" && selectedCategory != "all")
    }

    /** The first render: nothing loaded yet, the category taken from the URL. */
    constructor (urlCategory: Option<string>)
      ensures this.urlCategory == urlCategory
      ensures selectedCategory == if urlCategory.Some? && urlCategory.value != "" then urlCategory.value else "all"
      ensures searchQuery == "" && sortBy == "date"
      ensures events == [] && filteredEvents == []
      ensures isFromAPI && isLoading
      ensures Valid()
    {
      this.urlCategory := urlCategory;
      selectedCategory := if urlCategory.Some? && urlCategory.value != "" then urlCategory.value else "all";
      searchQuery := "";
      sortBy := "date";
      events := [];
      filteredEvents := [];
      isFromAPI := true;
      isLoading := true;
    }

    /** The derivation effect: recompute the shown list from the current state. */
    method Refresh()
      modifies this
      ensures filteredEvents == QueryResult(events, CurrentQuery())
      ensures events == old(events) && isFromAPI == old(isFromAPI) && isLoading == old(isLoading)
      ensures CurrentQuery() == old(CurrentQuery()) && urlCategory == old(urlCategory)
    {
      filteredEvents := ApplyQuery(events, CurrentQuery());
    }

    /** The catalogue fetch resolves; the derivation runs on the new catalogue. */
    method Load(remote: Api.RemoteEvents)
      modifies this
      ensures events == Api.FetchEvents(remote).events
      ensures isFromAPI == Api.FetchEvents(remote).isFromAPI
      ensures !isLoading
      ensures CurrentQuery() == old(CurrentQuery()) && urlCategory == old(urlCategory)
      ensures Valid()
    {
      var catalog := Api.FetchEvents(remote);
      events := catalog.events;
      isFromAPI := catalog.isFromAPI;
      isLoading := false;
      Refresh();
    }

    method SetSearchQuery(q: string)
      modifies this
      ensures searchQuery == q
      ensures selectedCategory == old(selectedCategory) && sortBy == old(sortBy)
      ensures events == old(events) && isFromAPI == old(isFromAPI) && isLoading == old(isLoading)
      ensures urlCategory == old(urlCategory)
      ensures Valid()
    {
      searchQuery := q;
      Refresh();
    }

    method SetCategory(c: string)
      modifies this
      ensures selectedCategory == c
      ensures searchQuery == old(searchQuery) && sortBy == old(sortBy)
      ensures events == old(events) && isFromAPI == old(isFromAPI) && isLoading == old(isLoading)
      ensures urlCategory == old(urlCategory)
      ensures Valid()
    {
      selectedCategory := c;
      Refresh();
    }

    method SetSortBy(s: string)
      modifies this
      ensures sortBy == s
      ensures searchQuery == old(searchQuery) && selectedCategory == old(selectedCategory)
      ensures events == old(events) && isFromAPI == old(isFromAPI) && isLoading == old(isLoading)
      ensures urlCategory == old(urlCategory)
      ensures Valid()
    {
      sortBy := s;
      Refresh();
    }

    /**
     * `clearFilters`: reset the three controls and drop the URL parameters;
     * afterwards no filter is active and the whole catalogue is shown, by date.
     */
    method ClearFilters()
      modifies this
      ensures searchQuery == "" && selectedCategory == "all" && sortBy == "date"
      ensures urlCategory == None
      ensures events == old(events) && isFromAPI == old(isFromAPI) && isLoading == old(isLoading)
      ensures !HasActiveFilters()
      ensures Valid()
      ensures multiset(filteredEvents) == multiset(events)
    {
      searchQuery := "";
      selectedCategory := "all";
      sortBy := "date";
      urlCategory := None;
      Refresh();
      EmptyQueryKeepsAll(events, CurrentQuery());
    }
  }
}
