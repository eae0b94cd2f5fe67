/**
 * The in-memory filtering done by `GET /api/advocates`: every advocate row
 * is fetched, then narrowed by a free-text search, an exact city and an
 * exact degree, each only when its query parameter is present and not blank.
 */
module AdvocatesRoute {
  import opened Results
  import opened JsStrings
  import opened Seqs
  import opened Advocates

  /** The three query parameters as `URLSearchParams.get` returns them (None: absent). */
  datatype Query = Query(search: Option<string>, city: Option<string>, degree: Option<string>)

  /** The JSON body of a successful response. */
  datatype ListResponse = ListResponse(data: seq<Advocate>, count: nat, filters: Query)

  /**
   * `if (p) { const t = p.trim().toLowerCase(); if (t.length > 0) ... }`:
   * the term a lower-casing filter compares with, or None when the filter is off.
   */
  function LowerTerm(p: Option<string>): (t: Option<string>)
    ensures t.None? <==> p.None? || AllWhitespace(p.value)
    ensures t.Some? ==> t.value == ToLower(Trim(p.value)) && t.value != ""
  {
    if p.Some? && p.value != "" then
      var t := ToLower(Trim(p.value));
      if |t| > 0 then Some(t) else None
    else
      None
  }

  /** The same for the degree filter, which upper-cases. */
  function UpperTerm(p: Option<string>): (t: Option<string>)
    ensures t.None? <==> p.None? || AllWhitespace(p.value)
    ensures t.Some? ==> t.value == ToUpper(Trim(p.value)) && t.value != ""
  {
    if p.Some? && p.value != "" then
      var t := ToUpper(Trim(p.value));
      if |t| > 0 then Some(t) else None
    else
      None
  }

  /** The search predicate: the term occurs in a lower-cased field, a specialty, or the years of experience. */
  predicate MatchesSearch(a: Advocate, term: string) {
    || Includes(ToLower(a.firstName), term)
    || Includes(ToLower(a.lastName), term)
    || Includes(ToLower(a.city), term)
    || Includes(ToLower(a.degree), term)
    || (exists sp :: sp in a.specialties && Includes(ToLower(sp), term))
    || Includes(IntToString(a.yearsOfExperience), term)
  }

  /** The city predicate: the lower-cased (untrimmed) city equals the term. */
  predicate MatchesCity(a: Advocate, term: string) {
    ToLower(a.city) == term
  }

  /** The degree predicate: the upper-cased degree equals the term. */
  predicate MatchesDegree(a: Advocate, term: string) {
    ToUpper(a.degree) == term
  }

  function SearchFilter(term: string): Advocate -> bool {
    a => MatchesSearch(a, term)
  }

  function CityFilter(term: string): Advocate -> bool {
    a => MatchesCity(a, term)
  }

  function DegreeFilter(term: string): Advocate -> bool {
    a => MatchesDegree(a, term)
  }

  /** The three filtering steps of the handler, in the handler's order. */
  function FilterAdvocates(all: seq<Advocate>, q: Query): (r: seq<Advocate>)
    ensures |r| <= |all|
    ensures forall a :: a in r ==> a in all
  {
    var afterSearch :=
      match LowerTerm(q.search)
      case Some(t) => Filter(all, SearchFilter(t))
      case None => all;
    var afterCity :=
      match LowerTerm(q.city)
      case Some(t) => Filter(afterSearch, CityFilter(t))
      case None => afterSearch;
    match UpperTerm(q.degree)
    case Some(t) => Filter(afterCity, DegreeFilter(t))
    case None => afterCity
  }

  /** The response body: the filtered rows, their number and the echoed parameters. */
  function Get(all: seq<Advocate>, q: Query): (r: ListResponse)
    ensures r.count == |r.data| && r.filters == q
    ensures forall a :: a in r.data ==> a in all
  {
    var data := FilterAdvocates(all, q);
    ListResponse(data, |data|, q)
  }

  // ---------------------------------------------------------------------------
  // The filters as one predicate

  predicate PassesSearch(a: Advocate, q: Query) {
    LowerTerm(q.search).Some? ==> MatchesSearch(a, LowerTerm(q.search).value)
  }

  predicate PassesCity(a: Advocate, q: Query) {
    LowerTerm(q.city).Some? ==> MatchesCity(a, LowerTerm(q.city).value)
  }

  predicate PassesDegree(a: Advocate, q: Query) {
    UpperTerm(q.degree).Some? ==> MatchesDegree(a, UpperTerm(q.degree).value)
  }

  /** What a row must satisfy to be returned: all three filters that are on. */
  predicate Admits(a: Advocate, q: Query) {
    PassesSearch(a, q) && PassesCity(a, q) && PassesDegree(a, q)
  }

  function AdmitsFilter(q: Query): Advocate -> bool {
    a => Admits(a, q)
  }

  /** The three steps act as one filter by the conjunction of the predicates. */
  lemma FilterAsConjunction(all: seq<Advocate>, q: Query)
    ensures FilterAdvocates(all, q) == Filter(all, AdmitsFilter(q))
  {
    var p1: Advocate -> bool := a => PassesSearch(a, q);
    var p2: Advocate -> bool := a => PassesCity(a, q);
    var p12: Advocate -> bool := a => PassesSearch(a, q) && PassesCity(a, q);
    var afterSearch :=
      match LowerTerm(q.search)
      case Some(t) => Filter(all, SearchFilter(t))
      case None => all;
    var afterCity :=
      match LowerTerm(q.city)
      case Some(t) => Filter(afterSearch, CityFilter(t))
      case None => afterSearch;
    if LowerTerm(q.search).Some? {
      FilterSamePredicate(all, SearchFilter(LowerTerm(q.search).value), p1);
    } else {
      FilterKeepsAll(all, p1);
    }
    assert afterSearch == Filter(all, p1);
    if LowerTerm(q.city).Some? {
      FilterSamePredicate(afterSearch, CityFilter(LowerTerm(q.city).value), p2);
    } else {
      FilterKeepsAll(afterSearch, p2);
    }
    FilterThenFilter(all, p1, p2, p12);
    assert afterCity == Filter(all, p12);
    var p3: Advocate -> bool := a => PassesDegree(a, q);
    if UpperTerm(q.degree).Some? {
      FilterSamePredicate(afterCity, DegreeFilter(UpperTerm(q.degree).value), p3);
    } else {
      FilterKeepsAll(afterCity, p3);
    }
    FilterThenFilter(all, p12, p3, AdmitsFilter(q));
  }

  /** The returned rows are a subsequence of all rows: rows are removed, never added or reordered. */
  lemma ResultIsSubsequence(all: seq<Advocate>, q: Query)
    ensures Subsequence(Get(all, q).data, all)
  {
    FilterAsConjunction(all, q);
    FilterIsSubsequence(all, AdmitsFilter(q));
  }

  /** A row is returned exactly when it is one of the rows and passes every active filter. */
  lemma ReturnedIff(all: seq<Advocate>, q: Query, a: Advocate)
    ensures a in Get(all, q).data <==> a in all && Admits(a, q)
  {
    FilterAsConjunction(all, q);
  }

  /**
   * The search filter alone: a row survives it exactly when the trimmed,
   * lower-cased term occurs in a lower-cased name, city, degree or specialty,
   * or in the years of experience.
   */
  lemma SearchOnly(all: seq<Advocate>, search: string, a: Advocate)
    requires !AllWhitespace(search)
    ensures a in Get(all, Query(Some(search), None, None)).data
        <==> a in all && MatchesSearch(a, ToLower(Trim(search)))
  {
    ReturnedIff(all, Query(Some(search), None, None), a);
  }

  /** The city filter alone: an exact match of the lower-cased city with the trimmed, lower-cased term. */
  lemma CityOnly(all: seq<Advocate>, city: string, a: Advocate)
    requires !AllWhitespace(city)
    ensures a in Get(all, Query(None, Some(city), None)).data
        <==> a in all && ToLower(a.city) == ToLower(Trim(city))
  {
    ReturnedIff(all, Query(None, Some(city), None), a);
  }

  /** The degree filter alone: an exact match of the upper-cased degree with the trimmed, upper-cased term. */
  lemma DegreeOnly(all: seq<Advocate>, degree: string, a: Advocate)
    requires !AllWhitespace(degree)
    ensures a in Get(all, Query(None, None, Some(degree))).data
        <==> a in all && ToUpper(a.degree) == ToUpper(Trim(degree))
  {
    ReturnedIff(all, Query(None, None, Some(degree)), a);
  }

  /** A parameter that is absent, empty or only whitespace leaves the rows unchanged. */
  lemma BlankFiltersKeepAll(all: seq<Advocate>, q: Query)
    requires q.search.None? || AllWhitespace(q.search.value)
    requires q.city.None? || AllWhitespace(q.city.value)
    requires q.degree.None? || AllWhitespace(q.degree.value)
    ensures Get(all, q).data == all
  {
  }

  /** Running the filters again on their own output with the same parameters changes nothing. */
  lemma FilterIdempotence(all: seq<Advocate>, q: Query)
    ensures Get(Get(all, q).data, q).data == Get(all, q).data
  {
    FilterAsConjunction(all, q);
    FilterAsConjunction(Get(all, q).data, q);
    FilterIdempotent(all, AdmitsFilter(q));
  }

  /**
   * The record's own city is not trimmed: a record whose city is a space
   * followed by `c` does not match the city parameter `c`.
   */
  lemma CityIsNotTrimmed(a: Advocate, c: string)
    requires c != "" && !IsWhitespace(c[0]) && !IsWhitespace(c[|c| - 1])
    requires a.city == " " + c
    ensures a !in Get([a], Query(None, Some(c), None)).data
  {
    var q := Query(None, Some(c), None);
    TrimUnpadded(c);
    ReturnedIff([a], q, a);
    assert |ToLower(a.city)| != |LowerTerm(q.city).value|;
  }
}
