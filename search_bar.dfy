/**
 * The search box of the front end: the bounded, most-recent-first list of
 * recent searches, the suggestion listbox shown while typing, keyboard
 * navigation of that listbox, and the route a search term leads to.
 */
module SearchBar {
  import opened Wrappers
  import opened Text
  import Uri

  /** The "Popular Searches" shown when no `suggestions` are passed in. */
  const DefaultSuggestions: seq<string> := [
    "Trending Movies", "Popular TV Shows", "New Releases", "Top Rated",
    "Action", "Comedy", "Thriller", "Family"
  ]

  /** The cap on recent searches when no `maxRecents` is passed in. */
  const DefaultMaxRecents: int := 8

  /** Search terms that lead to a fixed category page instead of a text search (keys lower-case). */
  const SpecialQueries: map<string, string> := map[
    "trending movies" := "/search?special=trending-movies",
    "popular tv shows" := "/search?special=popular-tv-shows",
    "new releases" := "/search?special=new-releases",
    "top rated" := "/search?special=top-rated"
  ]

  const SearchPrefix: string := "/search?query="

  /** The label of the first listbox entry, which stands for "search for what I typed". */
  const LabelOpen: string := "Search \U{201C}"
  const LabelClose: string := "\U{201D}"

  ghost predicate IsSubsequence<T>(a: seq<T>, b: seq<T>)
    decreases |b|
  {
    if a == [] then true
    else if b == [] then false
    else if a[0] == b[0] then IsSubsequence(a[1..], b[1..])
    else IsSubsequence(a, b[1..])
  }

  lemma {:induction false} SubsequenceOfPrefix<T>(p: seq<T>, a: seq<T>, b: seq<T>)
    requires p <= a && IsSubsequence(a, b)
    ensures IsSubsequence(p, b)
    decreases |b|
  {
    if p != [] && b != [] {
      if a[0] == b[0] {
        SubsequenceOfPrefix(p[1..], a[1..], b[1..]);
      } else {
        SubsequenceOfPrefix(p, a, b[1..]);
      }
    }
  }

  predicate Distinct<T(==)>(xs: seq<T>) {
    forall i, j :: 0 <= i < j < |xs| ==> xs[i] != xs[j]
  }

  // ---------------------------------------------------------------------
  // Recent searches
  // ---------------------------------------------------------------------

  /** `recents.filter(r => r.toLowerCase() !== lower)`. */
  function WithoutTerm(recents: seq<string>, lower: string): (r: seq<string>)
    ensures forall x :: x in r <==> x in recents && Lower(x) != lower
    ensures IsSubsequence(r, recents)
  {
    if recents == [] then []
    else if Lower(recents[0]) != lower then [recents[0]] + WithoutTerm(recents[1..], lower)
    else
      var r := WithoutTerm(recents[1..], lower);
      assert r == [] || r[0] != recents[0];
      r
  }

  /**
   * The recent-search list after saving `term`: unchanged for a blank term;
   * otherwise the trimmed term first, then the older entries that differ from
   * it ignoring case, in their old order, the whole cut by `slice(0, maxRecents)`.
   */
  function SavedRecents(recents: seq<string>, term: string, maxRecents: int): (r: seq<string>)
    ensures AllSpace(term) ==> r == recents
    ensures !AllSpace(term) && maxRecents >= 1 ==>
      |r| >= 1 && r[0] == Trim(term) && |r| <= maxRecents
    ensures !AllSpace(term) ==>
      (forall i :: 1 <= i < |r| ==> Lower(r[i]) != Lower(Trim(term)))
      && IsSubsequence(if r == [] then r else r[1..], recents)
    ensures !AllSpace(term) && |r| < maxRecents ==>
      forall x :: x in recents && Lower(x) != Lower(Trim(term)) ==> x in r
    ensures !AllSpace(term) && maxRecents >= 1 ==>
      r[1..] <= WithoutTerm(recents, Lower(Trim(term)))
      && |r| == if 1 + |WithoutTerm(recents, Lower(Trim(term)))| < maxRecents
                then 1 + |WithoutTerm(recents, Lower(Trim(term)))| else maxRecents
  {
    TrimEmptyIffAllSpace(term);
    var trimmed := Trim(term);
    if trimmed == [] then recents
    else
      SavedListFacts(trimmed, Lower(trimmed), recents, maxRecents);
      SliceTo([trimmed] + WithoutTerm(recents, Lower(trimmed)), maxRecents)
  }

  /** The saved list built from a non-blank trimmed term. */
  lemma SavedListFacts(trimmed: string, lower: string, recents: seq<string>, maxRecents: int)
    requires trimmed != []
    ensures var r := SliceTo([trimmed] + WithoutTerm(recents, lower), maxRecents);
      && (maxRecents >= 1 ==> |r| >= 1 && r[0] == trimmed && |r| <= maxRecents)
      && (forall i :: 1 <= i < |r| ==> Lower(r[i]) != lower)
      && IsSubsequence(if r == [] then r else r[1..], recents)
      && (|r| < maxRecents ==> forall x :: x in recents && Lower(x) != lower ==> x in r)
      && (maxRecents >= 1 ==>
            && r[1..] <= WithoutTerm(recents, lower)
            && |r| == if 1 + |WithoutTerm(recents, lower)| < maxRecents
                      then 1 + |WithoutTerm(recents, lower)| else maxRecents)
  {
    var rest := WithoutTerm(recents, lower);
    var r := SliceTo([trimmed] + rest, maxRecents);
    assert r != [] ==> r[1..] <= rest;
    assert r != [] ==> IsSubsequence(r[1..], recents) by {
      if r != [] { SubsequenceOfPrefix(r[1..], rest, recents); }
    }
    assert forall i :: 1 <= i < |r| ==> r[i] in rest;
    assert |r| < maxRecents ==> r == [trimmed] + rest;
  }

  /** Saving a term and saving its trimmed form give the same list. */
  lemma SavedTrimmed(recents: seq<string>, term: string, maxRecents: int)
    ensures SavedRecents(recents, Trim(term), maxRecents) == SavedRecents(recents, term, maxRecents)
  {
    TrimIdempotent(term);
    TrimEmptyIffAllSpace(term);
    TrimEmptyIffAllSpace(Trim(term));
  }

  lemma {:induction false} WithoutTermOfFiltered(xs: seq<string>, lower: string)
    requires forall i :: 0 <= i < |xs| ==> Lower(xs[i]) != lower
    ensures WithoutTerm(xs, lower) == xs
  {
    if xs != [] {
      WithoutTermOfFiltered(xs[1..], lower);
    }
  }

  /** Saving the same term twice in a row leaves the list as saving it once did. */
  lemma SaveRecentIdempotent(recents: seq<string>, term: string, maxRecents: int)
    requires maxRecents >= 0
    ensures SavedRecents(SavedRecents(recents, term, maxRecents), term, maxRecents)
         == SavedRecents(recents, term, maxRecents)
  {
    var once := SavedRecents(recents, term, maxRecents);
    var t := Trim(term);
    if t != [] && once != [] {
      TrimEmptyIffAllSpace(term);
      assert once[0] == t;
      var kept := once[1..];
      assert forall i :: 0 <= i < |kept| ==> Lower(kept[i]) != Lower(t);
      WithoutTermOfFiltered(kept, Lower(t));
      assert once == [t] + kept;
      assert Lower(once[0]) == Lower(t);
      assert WithoutTerm(once, Lower(t)) == kept;
      TrimIdempotent(term);
    }
  }

  // ---------------------------------------------------------------------
  // Suggestions
  // ---------------------------------------------------------------------

  /** `xs.filter(x => x.toLowerCase().includes(q))`. */
  function Matching(xs: seq<string>, q: string): (r: seq<string>)
    ensures forall x :: x in r <==> x in xs && Includes(Lower(x), q)
  {
    if xs == [] then []
    else (if Includes(Lower(xs[0]), q) then [xs[0]] else []) + Matching(xs[1..], q)
  }

  /** `[...new Set(xs)]`: the first occurrence of each element, in order. */
  function Dedup(xs: seq<string>): (r: seq<string>)
    ensures forall x :: x in r <==> x in xs
    ensures Distinct(r)
  {
    if xs == [] then []
    else
      var d := Dedup(xs[..|xs| - 1]);
      assert xs == xs[..|xs| - 1] + [xs[|xs| - 1]];
      if xs[|xs| - 1] in d then d else d + [xs[|xs| - 1]]
  }

  /**
   * Deduplication keeps first occurrences in order: a new element goes to the
   * end, a repeated one changes nothing.
   */
  lemma DedupSnoc(xs: seq<string>, x: string)
    ensures Dedup(xs + [x]) == if x in xs then Dedup(xs) else Dedup(xs) + [x]
  {
    assert (xs + [x])[..|xs + [x]| - 1] == xs;
  }

  /** The position of the first occurrence of `x`. */
  function FirstIndex(xs: seq<string>, x: string): (k: nat)
    requires x in xs
    ensures k < |xs| && xs[k] == x
    ensures forall i :: 0 <= i < k ==> xs[i] != x
  {
    if xs[0] == x then 0 else 1 + FirstIndex(xs[1..], x)
  }

  lemma FirstIndexSnoc(p: seq<string>, y: string, z: string)
    requires z in p
    ensures FirstIndex(p + [y], z) == FirstIndex(p, z)
  {
    var k1 := FirstIndex(p + [y], z);
    var k2 := FirstIndex(p, z);
    assert (p + [y])[k2] == z;
    assert k1 <= k2;
    assert p[k1] == z;
  }

  /** Deduplication lists each element in the order of its first occurrence. */
  lemma {:induction false} DedupFirstOccurrence(xs: seq<string>)
    ensures forall i, j :: 0 <= i < j < |Dedup(xs)| ==>
      FirstIndex(xs, Dedup(xs)[i]) < FirstIndex(xs, Dedup(xs)[j])
  {
    if xs != [] {
      var p := xs[..|xs| - 1];
      var y := xs[|xs| - 1];
      assert xs == p + [y];
      DedupFirstOccurrence(p);
      forall i, j | 0 <= i < j < |Dedup(p + [y])|
        ensures FirstIndex(p + [y], Dedup(p + [y])[i]) < FirstIndex(p + [y], Dedup(p + [y])[j])
      {
        DedupOrderStep(p, y, i, j);
      }
    }
  }

  /** One step of the induction above: appending `y` keeps the order of first occurrence. */
  lemma DedupOrderStep(p: seq<string>, y: string, i: int, j: int)
    requires forall i, j :: 0 <= i < j < |Dedup(p)| ==> FirstIndex(p, Dedup(p)[i]) < FirstIndex(p, Dedup(p)[j])
    requires 0 <= i < j < |Dedup(p + [y])|
    ensures FirstIndex(p + [y], Dedup(p + [y])[i]) < FirstIndex(p + [y], Dedup(p + [y])[j])
  {
    var d := Dedup(p);
    var r := Dedup(p + [y]);
    DedupSnoc(p, y);
    assert r[i] == d[i] && r[i] in p;
    FirstIndexSnoc(p, y, r[i]);
    if j < |d| {
      assert r[j] == d[j] && r[j] in p;
      FirstIndexSnoc(p, y, r[j]);
    } else {
      assert r[j] == y && y !in p;
      assert FirstIndex(p + [y], y) == |p|;
    }
  }

  /** Deduplicating `a + b` lists the elements of `a` first, then only elements not in `a`. */
  lemma {:induction false} DedupAppend(a: seq<string>, b: seq<string>)
    ensures Dedup(a) <= Dedup(a + b)
    ensures forall k :: |Dedup(a)| <= k < |Dedup(a + b)| ==> Dedup(a + b)[k] !in a
    decreases |b|
  {
    if b == [] {
      assert a + b == a;
    } else {
      var b' := b[..|b| - 1];
      DedupAppend(a, b');
      assert (a + b)[..|a + b| - 1] == a + b';
    }
  }

  function SearchLabel(query: string): string {
    LabelOpen + query + LabelClose
  }

  /**
   * The listbox entries while typing: nothing for a blank query; otherwise
   * "Search “query”" and then, once each, the recent and popular searches
   * that contain the trimmed query ignoring case.
   */
  function Suggestions(query: string, recents: seq<string>, popular: seq<string>): (r: seq<string>)
    ensures AllSpace(query) <==> r == []
    ensures !AllSpace(query) ==> r[0] == SearchLabel(query)
  {
    TrimEmptyIffAllSpace(query);
    var q := Lower(Trim(query));
    if q == [] then []
    else [SearchLabel(query)] + Dedup(Matching(recents, q) + Matching(popular, q))
  }

  /**
   * After the "Search “query”" entry, each suggestion appears once, contains the
   * trimmed query ignoring case and is a recent or popular search; every such
   * search is offered; and recent searches come before all the others.
   */
  lemma SuggestionsSpec(query: string, recents: seq<string>, popular: seq<string>)
    ensures var r := Suggestions(query, recents, popular);
      var q := Lower(Trim(query));
      && (r != [] ==> Distinct(r[1..]))
      && (forall i :: 1 <= i < |r| ==> Includes(Lower(r[i]), q) && (r[i] in recents || r[i] in popular))
      && (r != [] ==> forall x :: ((x in recents || x in popular) && Includes(Lower(x), q)) ==> x in r[1..])
      && (forall i, j :: 1 <= i < j < |r| && r[j] in recents ==> r[i] in recents)
  {
    var r := Suggestions(query, recents, popular);
    var q := Lower(Trim(query));
    if r != [] {
      var mr, mp := Matching(recents, q), Matching(popular, q);
      DedupAppend(mr, mp);
      var u := Dedup(mr + mp);
      assert r == [SearchLabel(query)] + u;
      assert r[1..] == u;
      forall i | 1 <= i < |r|
        ensures Includes(Lower(r[i]), q) && (r[i] in recents || r[i] in popular)
      {
        assert r[i] == u[i - 1];
        assert u[i - 1] in mr + mp;
      }
      forall i, j | 1 <= i < j < |r| && r[j] in recents
        ensures r[i] in recents
      {
        assert r[j] == u[j - 1] && r[i] == u[i - 1];
        assert u[j - 1] in mr;
        assert j - 1 < |Dedup(mr)|;
        assert u[i - 1] == Dedup(mr)[i - 1];
      }
    }
  }

  // ---------------------------------------------------------------------
  // Keyboard navigation
  // ---------------------------------------------------------------------

  lemma ModBelow(a: int, n: int)
    requires 0 <= a < n
    ensures a % n == a
  {
  }

  lemma ModOnce(a: int, n: int)
    requires 0 < n <= a < 2 * n
    ensures a % n == a - n
  {
    assert (a - n) % n == a - n by { ModBelow(a - n, n); }
  }

  /** JavaScript's `a % n` for `n > 0`: the remainder takes the sign of `a`. */
  function JsRem(a: int, n: int): (r: int)
    requires n > 0
    ensures -n < r < n
    ensures a >= 0 ==> r == a % n
  {
    if a >= 0 then a % n else -((-a) % n)
  }

  /** `(i + 1) % n`, the highlight after ArrowDown. */
  function ArrowDownIndex(i: int, n: int): int
    requires n > 0
  {
    JsRem(i + 1, n)
  }

  /** `(i - 1 + n) % n`, the highlight after ArrowUp. */
  function ArrowUpIndex(i: int, n: int): int
    requires n > 0
  {
    JsRem(i - 1 + n, n)
  }

  /**
   * From any highlight the component can hold (-1 for none, or a stale one past
   * the end) both keys land inside the list; within the list ArrowUp undoes
   * ArrowDown and the other way round; from no highlight ArrowDown picks the
   * first entry and ArrowUp the one before the last (the only one when n == 1).
   */
  lemma ArrowKeysStayInList(i: int, n: int)
    requires n > 0 && i >= -1
    ensures 0 <= ArrowDownIndex(i, n) < n && 0 <= ArrowUpIndex(i, n) < n
    ensures 0 <= i < n ==> ArrowUpIndex(ArrowDownIndex(i, n), n) == i
    ensures 0 <= i < n ==> ArrowDownIndex(ArrowUpIndex(i, n), n) == i
    ensures i == -1 ==> ArrowDownIndex(i, n) == 0
    ensures i == -1 ==> ArrowUpIndex(i, n) == if n == 1 then 0 else n - 2
  {
    if 0 <= i < n {
      var down := if i + 1 == n then 0 else i + 1;
      if i + 1 == n { ModOnce(i + 1, n); } else { ModBelow(i + 1, n); }
      assert ArrowDownIndex(i, n) == down;
      if down == 0 { ModBelow(n - 1, n); } else { ModOnce(down - 1 + n, n); }
      var up := if i == 0 then n - 1 else i - 1;
      if i == 0 { ModBelow(n - 1, n); } else { ModOnce(i - 1 + n, n); }
      assert ArrowUpIndex(i, n) == up;
      if up == n - 1 { ModOnce(n, n); } else { ModBelow(up + 1, n); }
    } else if i == -1 {
      ModBelow(0, n);
      if n == 1 {
        assert ArrowUpIndex(i, n) == -(1 % 1);
      } else {
        ModBelow(n - 2, n);
      }
    }
  }

  /** Both arrow keys land inside the list from any highlight the component can hold. */
  lemma ArrowKeysLandInList(i: int, n: int)
    requires n > 0 && i >= -1
    ensures 0 <= ArrowDownIndex(i, n) < n && 0 <= ArrowUpIndex(i, n) < n
  {
    ArrowKeysStayInList(i, n);
  }

  // ---------------------------------------------------------------------
  // Routes
  // ---------------------------------------------------------------------

  /**
   * The route a search term leads to: none for a blank term, the category
   * page of a special query, else the encoded text search.
   */
  function RouteFor(term: string): Option<string> {
    var trimmed := Trim(term);
    if trimmed == [] then None
    else if Lower(trimmed) in SpecialQueries then Some(SpecialQueries[Lower(trimmed)])
    else Some(SearchPrefix + Uri.EncodeUriComponent(trimmed))
  }

  /**
   * A blank term goes nowhere; a special term goes to its category page; any
   * other term goes to the text search, whose `query` parameter decodes back to
   * the trimmed term.
   */
  lemma RouteForSpec(term: string)
    ensures RouteFor(term) == None <==> AllSpace(term)
    ensures !AllSpace(term) && Lower(Trim(term)) in SpecialQueries ==>
      RouteFor(term) == Some(SpecialQueries[Lower(Trim(term))])
    ensures !AllSpace(term) && Lower(Trim(term)) !in SpecialQueries ==>
      var route := RouteFor(term).value;
      SearchPrefix <= route
      && Uri.DecodeUriComponent(route[|SearchPrefix|..]) == Some(Trim(term))
  {
    TrimEmptyIffAllSpace(term);
    var trimmed := Trim(term);
    if trimmed != [] && Lower(trimmed) !in SpecialQueries {
      var route := SearchPrefix + Uri.EncodeUriComponent(trimmed);
      assert route[|SearchPrefix|..] == Uri.EncodeUriComponent(trimmed);
      Uri.DecodeEncode(trimmed);
    }
  }

  /** What a listbox pick searches for: the typed query for the "Search “…”" entry, else the pick. */
  function PickedTerm(pick: string, query: string): string {
    if StartsWith(pick, LabelOpen) then query else pick
  }

  /**
   * The term Enter picks from the listbox before the form submits: the
   * highlighted entry's term while the list is open and the highlight is on
   * an entry, nothing otherwise.
   */
  function HighlightedTerm(openList: bool, filtered: seq<string>, activeIndex: int, query: string): (t: Option<string>)
    ensures t.Some? <==> openList && 0 <= activeIndex < |filtered|
    ensures t.Some? ==> t.value == PickedTerm(filtered[activeIndex], query)
  {
    if openList && 0 <= activeIndex < |filtered| then Some(PickedTerm(filtered[activeIndex], query)) else None
  }

  /** The routes `router.push` receives for an optional route: none or that one. */
  function Pushed(route: Option<string>): (r: seq<string>)
    ensures route.None? ==> r == []
    ensures route.Some? ==> r == [route.value]
  {
    if route.Some? then [route.value] else []
  }

  /**
   * Enter on the "Search “query”" entry searches the query twice: once from the
   * listbox and once from the form; the saved list is as if it were searched once.
   */
  lemma EnterOnSearchEntry(recents: seq<string>, query: string, maxRecents: int)
    requires maxRecents >= 0
    ensures var pick := PickedTerm(SearchLabel(query), query);
      pick == query
      && SavedRecents(SavedRecents(recents, pick, maxRecents), query, maxRecents)
         == SavedRecents(recents, query, maxRecents)
  {
    assert StartsWith(SearchLabel(query), LabelOpen);
    SaveRecentIdempotent(recents, query, maxRecents);
  }

  // ---------------------------------------------------------------------
  // Object-property lookup of special queries, as written
  // ---------------------------------------------------------------------

  /** What `SPECIAL_QUERIES[lower]` yields on a plain JavaScript object. */
  datatype Lookup = OwnPath(path: string) | Inherited(member: string)

  /** The members of `Object.prototype` whose names are all lower case. */
  const LowerCaseObjectMembers: set<string> := {"constructor", "__proto__"}

  /** `SPECIAL_QUERIES[lower]`: inherited members are found as well, and are truthy. */
  function SpecialLookupAsWritten(lower: string): Option<Lookup> {
    if lower in SpecialQueries then Some(OwnPath(SpecialQueries[lower]))
    else if lower in LowerCaseObjectMembers then Some(Inherited(lower))
    else None
  }

  /** What `navigateToSearch` pushes onto the router, as written. */
  function RouteAsWritten(term: string): Option<Lookup> {
    var trimmed := Trim(term);
    if trimmed == [] then None
    else match SpecialLookupAsWritten(Lower(trimmed))
      case Some(hit) => Some(hit)
      case None => Some(OwnPath(SearchPrefix + Uri.EncodeUriComponent(trimmed)))
  }

  /** A term that needs no trimming and no escaping goes to the text search as it is. */
  lemma RouteOfPlainWord(t: string)
    requires t != [] && Trim(t) == t && Lower(t) !in SpecialQueries
    requires Uri.AllUnreserved(t)
    ensures RouteFor(t) == Some(SearchPrefix + t)
  {
    RouteOfOrdinaryTerm(t);
    Uri.EncodeUnreservedIsIdentity(t);
  }

  lemma RouteOfOrdinaryTerm(term: string)
    requires Trim(term) != [] && Lower(Trim(term)) !in SpecialQueries
    ensures RouteFor(term) == Some(SearchPrefix + Uri.EncodeUriComponent(Trim(term)))
  {
  }

  lemma RouteOfInheritedName(t: string)
    requires t != [] && Trim(t) == t && Lower(t) in LowerCaseObjectMembers
    ensures RouteAsWritten(t) == Some(Inherited(Lower(t)))
  {
    LookupOfInheritedName(Lower(t));
  }

  lemma LookupOfInheritedName(l: string)
    requires l in LowerCaseObjectMembers
    ensures SpecialLookupAsWritten(l) == Some(Inherited(l))
  {
    InheritedNamesAreNotSpecial();
  }

  lemma InheritedNamesAreNotSpecial()
    ensures forall name :: name in LowerCaseObjectMembers ==> name !in SpecialQueries
  {
    assert "constructor" !in SpecialQueries;
    assert "__proto__" !in SpecialQueries;
  }

  /** The capitalised inherited name, as a user might type it. */
  const ConstructorTerm: string := "Constructor"

  lemma LowerConstructor(t: string)
    requires t == "Constructor"
    ensures Lower(t) == "constructor"
  {
    LowerEach(t, "constructor");
  }

  /** "Constructor" needs no trimming and no escaping. */
  lemma ConstructorIsPlain(t: string)
    requires t == "Constructor"
    ensures Trim(t) == t && Uri.AllUnreserved(t)
  {
    TrimKeepsInnerText(t);
  }

  /**
   * Searching for "Constructor" pushes `Object.prototype.constructor` (a
   * function) onto the router instead of a text-search route; the own-key
   * lookup sends it to the text search.
   */
  lemma ConstructorSearchAsWritten()
    ensures RouteAsWritten(ConstructorTerm) == Some(Inherited("constructor"))
    ensures RouteFor(ConstructorTerm) == Some(SearchPrefix + ConstructorTerm)
  {
    var t := ConstructorTerm;
    ConstructorIsPlain(t);
    LowerConstructor(t);
    assert "constructor" in LowerCaseObjectMembers;
    InheritedNamesAreNotSpecial();
    RouteOfPlainWord(t);
    RouteOfInheritedName(t);
  }

  /** The own-key lookup and the as-written one agree on every term except the inherited names. */
  lemma RouteAgreesOffInherited(term: string)
    requires Lower(Trim(term)) !in LowerCaseObjectMembers
    ensures RouteAsWritten(term) == match RouteFor(term)
      case None => None
      case Some(path) => Some(OwnPath(path))
  {
  }

  // ---------------------------------------------------------------------
  // The component's state
  // ---------------------------------------------------------------------

  datatype Key = ArrowDown | ArrowUp | Enter | Escape | OtherKey

  /** The state of one mounted search box. */
  class SearchBox {
    var query: string
    var activeIndex: int
    var recents: seq<string>
    var openList: bool
    const suggestions: seq<string>
    const maxRecents: int

    /** -1 means no highlight; the key handlers never produce anything smaller. */
    ghost predicate Valid()
      reads this
    {
      activeIndex >= -1
    }

    /** A fresh box; `stored` is what the saved recent searches load as. */
    constructor (suggestions: seq<string>, maxRecents: int, stored: seq<string>)
      ensures Valid()
      ensures this.suggestions == suggestions && this.maxRecents == maxRecents
      ensures query == [] && activeIndex == -1 && recents == stored && openList
    {
      this.suggestions := suggestions;
      this.maxRecents := maxRecents;
      query := [];
      activeIndex := -1;
      recents := stored;
      openList := true;
    }

    /** A box mounted without `suggestions` or `maxRecents`, which take their defaults. */
    constructor Default(stored: seq<string>)
      ensures Valid()
      ensures suggestions == DefaultSuggestions && maxRecents == DefaultMaxRecents
      ensures query == [] && activeIndex == -1 && recents == stored && openList
    {
      suggestions := DefaultSuggestions;
      maxRecents := DefaultMaxRecents;
      query := [];
      activeIndex := -1;
      recents := stored;
      openList := true;
    }

    /** The listbox entries for the current query. */
    function Filtered(): seq<string>
      reads this
    {
      Suggestions(query, recents, suggestions)
    }

    /** Typing into the input. */
    method OnChange(value: string)
      modifies this`query, this`openList, this`activeIndex
      ensures Valid()
      ensures query == value && openList && activeIndex == -1
    {
      query := value;
      openList := true;
      activeIndex := -1;
    }

    /** The clear button. */
    method HandleClear()
      modifies this`query, this`activeIndex
      ensures Valid()
      ensures query == [] && activeIndex == -1
    {
      query := [];
      activeIndex := -1;
    }

    method SaveRecent(term: string)
      modifies this`recents
      ensures recents == SavedRecents(old(recents), term, maxRecents)
    {
      var trimmed := Trim(term);
      if trimmed == [] {
        TrimEmptyIffAllSpace(term);
        return;
      }
      var next := SliceTo([trimmed] + WithoutTerm(recents, Lower(trimmed)), maxRecents);
      recents := next;
    }

    method ClearRecents()
      modifies this`recents
      ensures recents == []
    {
      recents := [];
    }

    /** Goes to the route of `term` and, when it is not blank, records it as a recent search. */
    method NavigateToSearch(term: string) returns (route: Option<string>)
      modifies this`recents
      ensures route == RouteFor(term)
      ensures recents == SavedRecents(old(recents), term, maxRecents)
    {
      var trimmed := Trim(term);
      if trimmed == [] {
        TrimEmptyIffAllSpace(term);
        return None;
      }
      var lower := Lower(trimmed);
      if lower in SpecialQueries {
        route := Some(SpecialQueries[lower]);
      } else {
        route := Some(SearchPrefix + Uri.EncodeUriComponent(trimmed));
      }
      SavedTrimmed(recents, term, maxRecents);
      SaveRecent(trimmed);
    }

    /** Submitting the form. */
    method HandleSearch() returns (route: Option<string>)
      modifies this`recents
      ensures route == RouteFor(query)
      ensures recents == SavedRecents(old(recents), query, maxRecents)
    {
      route := NavigateToSearch(query);
    }

    /** Clicking an entry of the listbox or of the popular and recent lists. */
    method OnPick(term: string) returns (route: Option<string>)
      modifies this`recents
      ensures route == RouteFor(PickedTerm(term, query))
      ensures recents == SavedRecents(old(recents), PickedTerm(term, query), maxRecents)
    {
      if StartsWith(term, LabelOpen) {
        route := NavigateToSearch(query);
      } else {
        route := NavigateToSearch(term);
      }
    }

    /**
     * A key press in the input. The listbox handles it only while it is open
     * and not empty: the arrows move the highlight around the list, Enter
     * searches for the highlighted entry, Escape closes the listbox. Enter
     * also submits the form in every case, which searches for the query; the
     * routes come back in the order they are pushed.
     */
    method OnKeyDown(key: Key) returns (routes: seq<string>)
      requires Valid()
      modifies this`activeIndex, this`openList, this`recents
      ensures Valid()
      ensures var n := |old(Filtered())|;
        ((!old(openList) || n == 0) && key != Enter) || key == OtherKey ==>
          routes == [] && activeIndex == old(activeIndex) && openList == old(openList)
          && recents == old(recents)
      ensures var n := |old(Filtered())|;
        old(openList) && n > 0 && key == ArrowDown ==>
          routes == [] && activeIndex == ArrowDownIndex(old(activeIndex), n)
          && 0 <= activeIndex < n && openList && recents == old(recents)
      ensures var n := |old(Filtered())|;
        old(openList) && n > 0 && key == ArrowUp ==>
          routes == [] && activeIndex == ArrowUpIndex(old(activeIndex), n)
          && 0 <= activeIndex < n && openList && recents == old(recents)
      ensures var n := |old(Filtered())|;
        old(openList) && n > 0 && key == Escape ==>
          routes == [] && activeIndex == old(activeIndex) && !openList && recents == old(recents)
      ensures key == Enter ==>
        var pick := HighlightedTerm(old(openList), old(Filtered()), old(activeIndex), query);
        var picked := if pick.Some? then SavedRecents(old(recents), pick.value, maxRecents) else old(recents);
        && routes == (if pick.Some? then Pushed(RouteFor(pick.value)) else []) + Pushed(RouteFor(query))
        && recents == SavedRecents(picked, query, maxRecents)
        && activeIndex == old(activeIndex) && openList == old(openList)
    {
      routes := KeyAndSubmit(key, Filtered());
    }

    /** The key press once the entries on show, `filtered`, are known. */
    method KeyAndSubmit(key: Key, filtered: seq<string>) returns (routes: seq<string>)
      requires Valid()
      modifies this`activeIndex, this`openList, this`recents
      ensures Valid()
      ensures var n := |filtered|;
        ((!old(openList) || n == 0) && key != Enter) || key == OtherKey ==>
          routes == [] && activeIndex == old(activeIndex) && openList == old(openList)
          && recents == old(recents)
      ensures var n := |filtered|;
        old(openList) && n > 0 && key == ArrowDown ==>
          routes == [] && activeIndex == ArrowDownIndex(old(activeIndex), n)
          && 0 <= activeIndex < n && openList && recents == old(recents)
      ensures var n := |filtered|;
        old(openList) && n > 0 && key == ArrowUp ==>
          routes == [] && activeIndex == ArrowUpIndex(old(activeIndex), n)
          && 0 <= activeIndex < n && openList && recents == old(recents)
      ensures var n := |filtered|;
        old(openList) && n > 0 && key == Escape ==>
          routes == [] && activeIndex == old(activeIndex) && !openList && recents == old(recents)
      ensures key == Enter ==>
        var pick := HighlightedTerm(old(openList), filtered, old(activeIndex), query);
        var picked := if pick.Some? then SavedRecents(old(recents), pick.value, maxRecents) else old(recents);
        && routes == (if pick.Some? then Pushed(RouteFor(pick.value)) else []) + Pushed(RouteFor(query))
        && recents == SavedRecents(picked, query, maxRecents)
        && activeIndex == old(activeIndex) && openList == old(openList)
    {
      if key == Enter {
        routes := EnterAndSubmit(filtered);
      } else {
        var route := KeyInList(key, filtered);
        routes := Pushed(route);
      }
    }

    /** Enter: the listbox searches the highlighted entry, then the form submits the query. */
    method EnterAndSubmit(filtered: seq<string>) returns (routes: seq<string>)
      requires Valid()
      modifies this`activeIndex, this`openList, this`recents
      ensures Valid()
      ensures var pick := HighlightedTerm(old(openList), filtered, old(activeIndex), query);
        var picked := if pick.Some? then SavedRecents(old(recents), pick.value, maxRecents) else old(recents);
        && routes == (if pick.Some? then Pushed(RouteFor(pick.value)) else []) + Pushed(RouteFor(query))
        && recents == SavedRecents(picked, query, maxRecents)
        && activeIndex == old(activeIndex) && openList == old(openList)
    {
      var route := PickHighlighted(filtered);
      var submitted := HandleSearch();
      routes := Pushed(route) + Pushed(submitted);
    }

    /** Enter's listbox part: searches the highlighted entry's term, if there is one. */
    method PickHighlighted(filtered: seq<string>) returns (route: Option<string>)
      modifies this`recents
      ensures var pick := HighlightedTerm(openList, filtered, activeIndex, query);
        && route == (if pick.Some? then RouteFor(pick.value) else None)
        && recents == if pick.Some? then SavedRecents(old(recents), pick.value, maxRecents) else old(recents)
    {
      if openList && 0 <= activeIndex < |filtered| {
        route := OnPick(filtered[activeIndex]);
      } else {
        route := None;
      }
    }

    /** The key handler once the entries on show, `filtered`, are known. */
    method KeyInList(key: Key, filtered: seq<string>) returns (route: Option<string>)
      requires Valid()
      modifies this`activeIndex, this`openList, this`recents
      ensures Valid()
      ensures var n := |filtered|;
        !old(openList) || n == 0 || key == OtherKey ==>
          route == None && activeIndex == old(activeIndex) && openList == old(openList)
          && recents == old(recents)
      ensures var n := |filtered|;
        old(openList) && n > 0 && key == ArrowDown ==>
          route == None && activeIndex == ArrowDownIndex(old(activeIndex), n)
          && 0 <= activeIndex < n && openList && recents == old(recents)
      ensures var n := |filtered|;
        old(openList) && n > 0 && key == ArrowUp ==>
          route == None && activeIndex == ArrowUpIndex(old(activeIndex), n)
          && 0 <= activeIndex < n && openList && recents == old(recents)
      ensures var n := |filtered|;
        old(openList) && n > 0 && key == Escape ==>
          route == None && activeIndex == old(activeIndex) && !openList && recents == old(recents)
      ensures var n := |filtered|;
        old(openList) && n > 0 && key == Enter && !(0 <= old(activeIndex) < n) ==>
          route == None && activeIndex == old(activeIndex) && openList && recents == old(recents)
      ensures var n := |filtered|;
        old(openList) && n > 0 && key == Enter && 0 <= old(activeIndex) < n ==>
          var term := PickedTerm(filtered[old(activeIndex)], query);
          route == RouteFor(term) && recents == SavedRecents(old(recents), term, maxRecents)
          && activeIndex == old(activeIndex) && openList
    {
      route := None;
      var n := |filtered|;
      if !openList || n == 0 {
        return;
      }
      ArrowKeysLandInList(activeIndex, n);
      match key {
        case ArrowDown =>
          activeIndex := ArrowDownIndex(activeIndex, n);
        case ArrowUp =>
          activeIndex := ArrowUpIndex(activeIndex, n);
        case Enter =>
          route := PickHighlighted(filtered);
        case Escape =>
          openList := false;
        case OtherKey =>
      }
    }
  }
}
