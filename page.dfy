/**
 * The advocates page `Home`: its three filter inputs, which feed the
 * `useAdvocates` hook, the dropdown options derived from the loaded rows,
 * the results summary and the choice of what is shown.
 */
module HomePage {
  import opened Results
  import opened JsStrings
  import opened Advocates
  import opened Sorting
  import opened UseAdvocates

  // ---------------------------------------------------------------------------
  // Dropdown options

  /** `set.add(x)` on a `Set` seen in insertion order: a value already present is not added again. */
  function AddToSet(s: seq<string>, x: string): (r: seq<string>)
    ensures forall y :: y in r <==> y in s || y == x
    ensures NoDuplicates(s) ==> NoDuplicates(r)
  {
    if x in s then s else s + [x]
  }

  /** `Array.from(new Set(xs))`: the values of `xs` in the order of their first occurrence. */
  function Distinct(xs: seq<string>): (r: seq<string>)
    ensures NoDuplicates(r)
    ensures forall y :: y in r <==> y in xs
  {
    if xs == [] then []
    else
      var init := xs[..|xs| - 1];
      assert xs == init + [xs[|xs| - 1]];
      AddToSet(Distinct(init), xs[|xs| - 1])
  }

  /** The cities of the rows, one per row: a helper that names the list `UniqueOptions` collects. */
  function CityList(advocates: seq<Advocate>): (cs: seq<string>)
    ensures |cs| == |advocates| && forall i :: 0 <= i < |advocates| ==> cs[i] == advocates[i].city
  {
    seq(|advocates|, i requires 0 <= i < |advocates| => advocates[i].city)
  }

  /** The degrees of the rows, one per row: a helper that names the list `UniqueOptions` collects. */
  function DegreeList(advocates: seq<Advocate>): (ds: seq<string>)
    ensures |ds| == |advocates| && forall i :: 0 <= i < |advocates| ==> ds[i] == advocates[i].degree
  {
    seq(|advocates|, i requires 0 <= i < |advocates| => advocates[i].degree)
  }

  /**
   * The `uniqueCities`/`uniqueDegrees` memo: one pass adding every row's city
   * and degree to two sets, then each set's values sorted. Each list holds
   * every value some row has and nothing else, once, in ascending order.
   */
  method UniqueOptions(advocates: seq<Advocate>) returns (uniqueCities: seq<string>, uniqueDegrees: seq<string>)
    ensures uniqueCities == SortStrings(Distinct(CityList(advocates)))
    ensures uniqueDegrees == SortStrings(Distinct(DegreeList(advocates)))
    ensures Increasing(uniqueCities) && Increasing(uniqueDegrees)
    ensures forall c :: c in uniqueCities <==> exists a :: a in advocates && a.city == c
    ensures forall d :: d in uniqueDegrees <==> exists a :: a in advocates && a.degree == d
  {
    var cities: seq<string> := [];
    var degrees: seq<string> := [];
    var i := 0;
    while i < |advocates|
      invariant 0 <= i <= |advocates|
      invariant cities == Distinct(CityList(advocates[..i]))
      invariant degrees == Distinct(DegreeList(advocates[..i]))
    {
      var a := advocates[i];
      assert CityList(advocates[..i + 1])[..i] == CityList(advocates[..i]);
      assert DegreeList(advocates[..i + 1])[..i] == DegreeList(advocates[..i]);
      cities := AddToSet(cities, a.city);
      degrees := AddToSet(degrees, a.degree);
      i := i + 1;
    }
    assert advocates[..i] == advocates;
    uniqueCities := SortStrings(cities);
    uniqueDegrees := SortStrings(degrees);
    IncreasingIff(uniqueCities);
    IncreasingIff(uniqueDegrees);
    forall c ensures c in uniqueCities <==> exists a :: a in advocates && a.city == c {
      SortKeepsElements(cities, c);
      InCityList(advocates, c);
    }
    forall d ensures d in uniqueDegrees <==> exists a :: a in advocates && a.degree == d {
      SortKeepsElements(degrees, d);
      InDegreeList(advocates, d);
    }
  }

  lemma InCityList(advocates: seq<Advocate>, c: string)
    ensures c in CityList(advocates) <==> exists a :: a in advocates && a.city == c
  {
    if exists a :: a in advocates && a.city == c {
      var a :| a in advocates && a.city == c;
      var i :| 0 <= i < |advocates| && advocates[i] == a;
      assert CityList(advocates)[i] == c;
    }
  }

  lemma InDegreeList(advocates: seq<Advocate>, d: string)
    ensures d in DegreeList(advocates) <==> exists a :: a in advocates && a.degree == d
  {
    if exists a :: a in advocates && a.degree == d {
      var a :| a in advocates && a.degree == d;
      var i :| 0 <= i < |advocates| && advocates[i] == a;
      assert DegreeList(advocates)[i] == d;
    }
  }

  // ---------------------------------------------------------------------------
  // The results summary

  /** "Showing N advocate", before the plural ending. */
  function SummaryHead(count: nat): string {
    "Showing " + NatToString(count) + " advocate"
  }

  /** The plural ending, for every count but 1. */
  function Plural(count: nat): string {
    if count != 1 then "s" else ""
  }

  const MatchingPrefix := " matching \""
  const InPrefix := " in "
  const WithPrefix := " with "

  function SearchPart(searchTerm: string): string {
    if searchTerm != "" then MatchingPrefix + searchTerm + "\"" else ""
  }

  function CityPart(cityFilter: string): string {
    if cityFilter != "" then InPrefix + cityFilter else ""
  }

  function DegreePart(degreeFilter: string): string {
    if degreeFilter != "" then WithPrefix + degreeFilter else ""
  }

  /** What follows the noun: one phrase per active filter. */
  function Qualifiers(searchTerm: string, cityFilter: string, degreeFilter: string): string {
    SearchPart(searchTerm) + CityPart(cityFilter) + DegreePart(degreeFilter)
  }

  /** The summary line above the table. */
  function Summary(count: nat, searchTerm: string, cityFilter: string, degreeFilter: string): string {
    SummaryHead(count) + Plural(count) + Qualifiers(searchTerm, cityFilter, degreeFilter)
  }

  /** The count can be read back from the summary. */
  lemma SummaryCount(count: nat, searchTerm: string, cityFilter: string, degreeFilter: string)
    ensures var r := Summary(count, searchTerm, cityFilter, degreeFilter);
            var n := NatToString(count);
            |r| >= 8 + |n| && ParseNat(r[8..8 + |n|]) == count
  {
    var n := NatToString(count);
    var h := SummaryHead(count);
    var rest := Plural(count) + Qualifiers(searchTerm, cityFilter, degreeFilter);
    assert Summary(count, searchTerm, cityFilter, degreeFilter) == h + rest;
    HeadDigits(count);
    assert (h + rest)[8..8 + |n|] == h[8..8 + |n|];
    ParseNatToString(count);
  }

  /** The digits of the count sit right after "Showing ". */
  lemma HeadDigits(count: nat)
    ensures var h := SummaryHead(count);
            var n := NatToString(count);
            |h| >= 8 + |n| && h[8..8 + |n|] == n
  {
    var p := "Showing ";
    var n := NatToString(count);
    assert |p| == 8;
    assert (p + n)[8..8 + |n|] == n;
    assert SummaryHead(count) == (p + n) + " advocate";
  }

  /** The noun takes an "s" exactly when the count is not 1. */
  lemma SummaryPlural(count: nat, searchTerm: string, cityFilter: string, degreeFilter: string)
    ensures var r := Summary(count, searchTerm, cityFilter, degreeFilter);
            var h := SummaryHead(count);
            StartsWith(r, h) && (count != 1 <==> |r| > |h| && r[|h|] == 's')
  {
    var h := SummaryHead(count);
    var q := Qualifiers(searchTerm, cityFilter, degreeFilter);
    var rest := Plural(count) + q;
    assert Summary(count, searchTerm, cityFilter, degreeFilter) == h + rest;
    if count == 1 && q != [] {
      QualifiersShape(searchTerm, cityFilter, degreeFilter);
    }
  }

  /**
   * After the noun come the active filters, each only when it is not empty,
   * in the order search, city, degree: the text starts with the phrase of
   * the first active filter, and what follows that phrase is the text for
   * the remaining filters.
   */
  lemma SummaryQualifiers(count: nat, searchTerm: string, cityFilter: string, degreeFilter: string)
    ensures var h := SummaryHead(count) + Plural(count);
            var r := Summary(count, searchTerm, cityFilter, degreeFilter);
            StartsWith(r, h)
            && var t := r[|h|..];
            && (searchTerm != "" <==> StartsWith(t, MatchingPrefix))
            && (searchTerm == "" ==> (cityFilter != "" <==> StartsWith(t, InPrefix)))
            && (searchTerm == "" && cityFilter == "" ==> (degreeFilter != "" <==> StartsWith(t, WithPrefix)))
            && (t == "" <==> searchTerm == "" && cityFilter == "" && degreeFilter == "")
            && t == Qualifiers(searchTerm, cityFilter, degreeFilter)
  {
    var h := SummaryHead(count) + Plural(count);
    var t := Qualifiers(searchTerm, cityFilter, degreeFilter);
    assert (h + t)[|h|..] == t;
    QualifiersTags(searchTerm, cityFilter, degreeFilter);
  }

  /**
   * The phrases follow one another: an active search's phrase is followed
   * by the text for the city and the degree alone, an active city's phrase
   * by the text for the degree alone, and an inactive filter adds nothing.
   */
  lemma QualifiersInOrder(searchTerm: string, cityFilter: string, degreeFilter: string)
    ensures searchTerm != "" ==>
      Qualifiers(searchTerm, cityFilter, degreeFilter) == MatchingPrefix + searchTerm + "\"" + Qualifiers("", cityFilter, degreeFilter)
    ensures searchTerm == "" ==> Qualifiers(searchTerm, cityFilter, degreeFilter) == Qualifiers("", cityFilter, degreeFilter)
    ensures cityFilter != "" ==> Qualifiers("", cityFilter, degreeFilter) == InPrefix + cityFilter + Qualifiers("", "", degreeFilter)
    ensures cityFilter == "" ==> Qualifiers("", cityFilter, degreeFilter) == Qualifiers("", "", degreeFilter)
    ensures Qualifiers("", "", degreeFilter) == if degreeFilter != "" then WithPrefix + degreeFilter else ""
  {
    var cp, dp := CityPart(cityFilter), DegreePart(degreeFilter);
    assert Qualifiers("", "", degreeFilter) == dp by {
      assert SearchPart("") == [] && CityPart("") == [];
    }
    assert Qualifiers("", cityFilter, degreeFilter) == cp + dp by {
      assert SearchPart("") == [];
    }
    if searchTerm != "" {
      assert Qualifiers(searchTerm, cityFilter, degreeFilter) == SearchPart(searchTerm) + (cp + dp);
    }
  }

  /** Which tag the qualifiers start with, by the filters that are active. */
  lemma QualifiersTags(searchTerm: string, cityFilter: string, degreeFilter: string)
    ensures var t := Qualifiers(searchTerm, cityFilter, degreeFilter);
            (searchTerm != "" <==> StartsWith(t, MatchingPrefix))
            && (searchTerm == "" ==> (cityFilter != "" <==> StartsWith(t, InPrefix)))
            && (searchTerm == "" && cityFilter == "" ==> (degreeFilter != "" <==> StartsWith(t, WithPrefix)))
            && (t == "" <==> searchTerm == "" && cityFilter == "" && degreeFilter == "")
  {
    var sp, cp, dp := SearchPart(searchTerm), CityPart(cityFilter), DegreePart(degreeFilter);
    var t := sp + cp + dp;
    QualifiersShape(searchTerm, cityFilter, degreeFilter);
    PrefixSeconds();
    if searchTerm != "" {
      StartsWithAppend(MatchingPrefix, searchTerm, MatchingPrefix);
      StartsWithAppend(MatchingPrefix + searchTerm, "\"", MatchingPrefix);
      StartsWithAppend(sp, cp + dp, MatchingPrefix);
      assert t == sp + (cp + dp);
    } else {
      NotStartsWith(t, MatchingPrefix);
      if cityFilter != "" {
        StartsWithAppend(InPrefix, cityFilter, InPrefix);
        StartsWithAppend(cp, dp, InPrefix);
      } else {
        NotStartsWith(t, InPrefix);
        if degreeFilter != "" {
          StartsWithAppend(WithPrefix, degreeFilter, WithPrefix);
        } else {
          NotStartsWith(t, WithPrefix);
        }
      }
    }
  }

  /** The qualifiers are empty exactly without filters; otherwise their second character names the first active one. */
  lemma QualifiersShape(searchTerm: string, cityFilter: string, degreeFilter: string)
    ensures var t := Qualifiers(searchTerm, cityFilter, degreeFilter);
            (t == "" <==> searchTerm == "" && cityFilter == "" && degreeFilter == "")
            && (t != "" ==> (|t| >= 2 && t[0] == ' '
                && t[1] == (if searchTerm != "" then 'm' else if cityFilter != "" then 'i' else 'w')))
  {
    var t := Qualifiers(searchTerm, cityFilter, degreeFilter);
    if searchTerm != "" {
      assert t[..2] == SearchPart(searchTerm)[..2] == MatchingPrefix[..2];
    } else if cityFilter != "" {
      assert t[..2] == CityPart(cityFilter)[..2] == InPrefix[..2];
    } else if degreeFilter != "" {
      assert t[..2] == DegreePart(degreeFilter)[..2] == WithPrefix[..2];
    }
  }

  /** The three tags differ in their second character. */
  lemma PrefixSeconds()
    ensures |MatchingPrefix| >= 2 && MatchingPrefix[1] == 'm'
    ensures |InPrefix| >= 2 && InPrefix[1] == 'i'
    ensures |WithPrefix| >= 2 && WithPrefix[1] == 'w'
  {
  }

  /** A string keeps its prefixes when something is appended to it. */
  lemma StartsWithAppend(a: string, b: string, p: string)
    requires StartsWith(a, p)
    ensures StartsWith(a + b, p)
  {
    assert (a + b)[..|p|] == a[..|p|];
  }

  /** A string too short for `p`, or whose second character differs from `p`'s, does not start with `p`. */
  lemma NotStartsWith(t: string, p: string)
    requires |p| >= 2 && (|t| < 2 || t[1] != p[1])
    ensures !StartsWith(t, p)
  {
    if |p| <= |t| {
      assert t[..|p|][1] == t[1];
    }
  }

  /** One row and no filters: "Showing 1 advocate". */
  lemma SummaryOfOne(r: string)
    requires r == "Showing 1 advocate"
    ensures Summary(1, "", "", "") == r
  {
    assert NatToString(1) == "1";
  }

  /** Three rows and all three filters. */
  lemma SummaryWithFilters(r: string)
    requires r == "Showing 3 advocates matching \"john\" in Austin with MD"
    ensures Summary(3, "john", "Austin", "MD") == r
  {
    assert NatToString(3) == "3";
    var head := SummaryHead(3) + "s";
    var m := " matching \"" + "john" + "\"";
    var c := " in " + "Austin";
    var d := " with " + "MD";
    assert head == "Showing 3 advocates";
    assert m == " matching \"john\"";
    assert c == " in Austin" && d == " with MD";
    JoinFour(head, m, c, d, r);
  }

  /** Proof helper for the lemma above: the four literal pieces of the summary joined. */
  lemma JoinFour(head: string, m: string, c: string, d: string, r: string)
    requires head == "Showing 3 advocates" && m == " matching \"john\"" && c == " in Austin" && d == " with MD"
    requires r == "Showing 3 advocates matching \"john\" in Austin with MD"
    ensures head + m + c + d == r
  {
  }

  // ---------------------------------------------------------------------------
  // What the page shows

  datatype Screen =
    | Spinner
    | ErrorPanel(message: string)
    | ResultsList(summary: string, rows: seq<Advocate>, noResults: bool)

  /**
   * The spinner while loading; else the error panel when the error is
   * truthy (an empty message is not); else the summary and the table, with
   * the no-results panel when there are no rows.
   */
  function View(isLoading: bool, error: Option<string>, rows: seq<Advocate>,
                searchTerm: string, cityFilter: string, degreeFilter: string): (v: Screen)
    ensures v.Spinner? <==> isLoading
    ensures v.ErrorPanel? <==> !isLoading && error.Some? && error.value != ""
    ensures v.ErrorPanel? ==> v.message == error.value
    ensures v.ResultsList? ==> v.rows == rows && (v.noResults <==> rows == [])
    ensures v.ResultsList? ==> v.summary == Summary(|rows|, searchTerm, cityFilter, degreeFilter)
  {
    if isLoading then Spinner
    else if error.Some? && error.value != "" then ErrorPanel(error.value)
    else ResultsList(Summary(|rows|, searchTerm, cityFilter, degreeFilter), rows, |rows| == 0)
  }

  // ---------------------------------------------------------------------------
  // The page's state and handlers

  class Home {
    var searchTerm: string
    var cityFilter: string
    var degreeFilter: string
    /** The state of the `useAdvocates` call. */
    const hook: AdvocatesHook

    /** The hook was last rendered with the page's filters and a 300 ms delay. */
    predicate Valid()
      reads this, hook
    {
      hook.Valid() && !hook.disposed && hook.Props() == Config(searchTerm, cityFilter, degreeFilter, 300)
    }

    /** The options the page passes to the hook. */
    function HookOptions(): Options
      reads this
    {
      Options(Some(searchTerm), Some(cityFilter), Some(degreeFilter), Some(300))
    }

    /** The first render: empty filters, and the hook's first request for every row. */
    constructor (encode: string -> string)
      ensures Valid() && fresh(hook) && hook.encode == encode
      ensures searchTerm == "" && cityFilter == "" && degreeFilter == ""
      ensures hook.fetchCalls == [Endpoint] && hook.isLoading && hook.advocates == []
    {
      searchTerm, cityFilter, degreeFilter := "", "", "";
      hook := new AdvocatesHook(encode, Options(Some(""), Some(""), Some(""), Some(300)));
    }

    /** What the page shows now. */
    function Shown(): Screen
      reads this, hook
    {
      View(hook.isLoading, hook.error, hook.advocates, searchTerm, cityFilter, degreeFilter)
    }

    /**
     * Typing in the search box: the hook re-renders with the new search. An
     * empty search is published at once; a new non-empty one waits for its
     * timer and issues no request yet.
     */
    method HandleSearchChange(value: string)
      requires Valid()
      modifies this, hook
      ensures Valid()
      ensures searchTerm == value && cityFilter == old(cityFilter) && degreeFilter == old(degreeFilter)
      ensures hook.advocates == old(hook.advocates)
      ensures var issued := EffectFetches(hook.encode, old(hook.Current()), hook.Current());
              && hook.fetchCalls == old(hook.fetchCalls) + issued
              && hook.inFlight == old(hook.inFlight) + |issued|
              && hook.isLoading == (old(hook.isLoading) || issued != [])
              && hook.error == (if issued != [] then None else old(hook.error))
      ensures value == "" ==> hook.debouncedSearch == "" && hook.timer.None?
      ensures value != "" && value != old(searchTerm) ==>
        hook.timer == Some(value) && hook.debouncedSearch == old(hook.debouncedSearch)
        && hook.fetchCalls == old(hook.fetchCalls)
      ensures value == old(searchTerm) ==>
        hook.fetchCalls == old(hook.fetchCalls) && hook.timer == old(hook.timer)
        && hook.isLoading == old(hook.isLoading) && hook.error == old(hook.error)
    {
      searchTerm := value;
      hook.Rerender(HookOptions());
    }

    /** Choosing a city: a changed city issues one request, with the debounced search as it was. */
    method HandleCityChange(value: string)
      requires Valid()
      modifies this, hook
      ensures Valid()
      ensures cityFilter == value && searchTerm == old(searchTerm) && degreeFilter == old(degreeFilter)
      ensures hook.advocates == old(hook.advocates) && hook.timer == old(hook.timer)
      ensures hook.debouncedSearch == old(hook.debouncedSearch)
      ensures hook.fetchCalls == old(hook.fetchCalls)
        + (if value != old(cityFilter) then [RequestUrl(hook.encode, hook.debouncedSearch, value, degreeFilter)] else [])
      ensures hook.inFlight == old(hook.inFlight) + (if value != old(cityFilter) then 1 else 0)
      ensures hook.isLoading == (old(hook.isLoading) || value != old(cityFilter))
      ensures hook.error == (if value != old(cityFilter) then None else old(hook.error))
    {
      cityFilter := value;
      hook.Rerender(HookOptions());
    }

    /** Choosing a degree: a changed degree issues one request, with the debounced search as it was. */
    method HandleDegreeChange(value: string)
      requires Valid()
      modifies this, hook
      ensures Valid()
      ensures degreeFilter == value && searchTerm == old(searchTerm) && cityFilter == old(cityFilter)
      ensures hook.advocates == old(hook.advocates) && hook.timer == old(hook.timer)
      ensures hook.debouncedSearch == old(hook.debouncedSearch)
      ensures hook.fetchCalls == old(hook.fetchCalls)
        + (if value != old(degreeFilter) then [RequestUrl(hook.encode, hook.debouncedSearch, cityFilter, value)] else [])
      ensures hook.inFlight == old(hook.inFlight) + (if value != old(degreeFilter) then 1 else 0)
      ensures hook.isLoading == (old(hook.isLoading) || value != old(degreeFilter))
      ensures hook.error == (if value != old(degreeFilter) then None else old(hook.error))
    {
      degreeFilter := value;
      hook.Rerender(HookOptions());
    }

    /**
     * `handleReset`: the three filters become empty and nothing else of the
     * page changes. The hook drops its timer and its debounced search; when
     * anything was filtered, its last request is the unfiltered one.
     */
    method HandleReset()
      requires Valid()
      modifies this, hook
      ensures Valid()
      ensures searchTerm == "" && cityFilter == "" && degreeFilter == ""
      ensures hook.debouncedSearch == "" && hook.timer.None? && hook.Current() == ("", "", "")
      ensures hook.advocates == old(hook.advocates)
      ensures var issued := EffectFetches(hook.encode, old(hook.Current()), ("", "", ""));
              && hook.fetchCalls == old(hook.fetchCalls) + issued
              && hook.inFlight == old(hook.inFlight) + |issued|
              && hook.isLoading == (old(hook.isLoading) || issued != [])
              && hook.error == (if issued != [] then None else old(hook.error))
      ensures old(hook.Current()) != ("", "", "") ==> hook.fetchCalls[|hook.fetchCalls| - 1] == Endpoint
    {
      searchTerm, cityFilter, degreeFilter := "", "", "";
      hook.Rerender(HookOptions());
    }

    /** The error panel's retry button: the hook fetches the current triple again. */
    method HandleRetry()
      requires Valid()
      modifies hook
      ensures Valid()
      ensures hook.fetchCalls == old(hook.fetchCalls) + [old(hook.CurrentUrl())] && hook.inFlight == old(hook.inFlight) + 1
      ensures hook.isLoading && hook.error.None? && hook.advocates == old(hook.advocates)
      ensures hook.debouncedSearch == old(hook.debouncedSearch) && hook.timer == old(hook.timer)
      ensures searchTerm == old(searchTerm) && cityFilter == old(cityFilter) && degreeFilter == old(degreeFilter)
    {
      hook.Retry();
    }
  }
}
