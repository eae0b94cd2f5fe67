/**
 * The `useAdvocates` hook: the client-side state of the advocate list and
 * the requests it issues to `/api/advocates`.
 *
 * React's runtime is made explicit. A render with new options is the
 * `Rerender` event, which also runs the effects whose dependencies changed;
 * the debounce timer is a pending value with no clock, which `TimerFired`
 * delivers; an asynchronous `fetch` is split into its begin (logged in
 * `fetchCalls`) and its completion (`Settle`), which may arrive in any order
 * for overlapping requests. The query-string serializer of `URLSearchParams`
 * is the parameter `encode`.
 */
module UseAdvocates {
  import opened Results
  import opened JsStrings
  import opened Advocates

  // ---------------------------------------------------------------------------
  // Options

  /** `UseAdvocatesOptions`: None is a property left undefined. */
  datatype Options = Options(search: Option<string>, city: Option<string>, degree: Option<string>, debounceMs: Option<int>)

  /** `useAdvocates()` called without an argument. */
  const NoOptions := Options(None, None, None, None)

  const DefaultDebounceMs := 300

  /** The options after destructuring with their defaults. */
  datatype Config = Config(search: string, city: string, degree: string, debounceMs: int)

  /** Destructuring defaults apply to undefined properties only: an explicit "" stays "". */
  function WithDefaults(o: Options): (c: Config)
    ensures c.search == o.search.GetOr("") && c.city == o.city.GetOr("") && c.degree == o.degree.GetOr("")
    ensures o.debounceMs.None? ==> c.debounceMs == 300
    ensures o.debounceMs.Some? ==> c.debounceMs == o.debounceMs.value
  {
    Config(o.search.GetOr(""), o.city.GetOr(""), o.degree.GetOr(""), o.debounceMs.GetOr(DefaultDebounceMs))
  }

  // ---------------------------------------------------------------------------
  // The request URL

  /** The order in which the parameters are appended. */
  function ParamRank(name: string): int {
    if name == "search" then 0 else if name == "city" then 1 else 2
  }

  /** The parameters appended to `URLSearchParams`: each filter that is not empty, under its own name. */
  function QueryParams(searchTerm: string, cityFilter: string, degreeFilter: string): seq<(string, string)> {
    (if searchTerm != "" then [("search", searchTerm)] else [])
    + (if cityFilter != "" then [("city", cityFilter)] else [])
    + (if degreeFilter != "" then [("degree", degreeFilter)] else [])
  }

  /**
   * The query holds each filter exactly when it is not empty, under its own
   * name and with its own value, always in the order search, city, degree,
   * and nothing else.
   */
  lemma QueryParamsMeaning(searchTerm: string, cityFilter: string, degreeFilter: string)
    ensures var ps := QueryParams(searchTerm, cityFilter, degreeFilter);
            && (forall i :: 0 <= i < |ps| ==> ps[i].1 != "")
            && (forall i :: 0 <= i < |ps| ==> ps[i].0 == "search" || ps[i].0 == "city" || ps[i].0 == "degree")
            && (forall i :: 0 <= i < |ps| ==>
                  ps[i].1 == if ps[i].0 == "search" then searchTerm else if ps[i].0 == "city" then cityFilter else degreeFilter)
            && (("search", searchTerm) in ps <==> searchTerm != "")
            && (("city", cityFilter) in ps <==> cityFilter != "")
            && (("degree", degreeFilter) in ps <==> degreeFilter != "")
            && (forall i, j :: 0 <= i < j < |ps| ==> ParamRank(ps[i].0) < ParamRank(ps[j].0))
            && (ps == [] <==> searchTerm == "" && cityFilter == "" && degreeFilter == "")
  {
  }

  /** One serialized parameter: the encoded name, `=`, the encoded value. */
  function Pair(encode: string -> string, p: (string, string)): string {
    encode(p.0) + "=" + encode(p.1)
  }

  /** `params.toString()`: the serialized parameters joined by `&`. */
  function Serialize(encode: string -> string, ps: seq<(string, string)>): string {
    if ps == [] then ""
    else if |ps| == 1 then Pair(encode, ps[0])
    else Pair(encode, ps[0]) + "&" + Serialize(encode, ps[1..])
  }

  const Endpoint := "/api/advocates?"

  /** The URL `fetchAdvocates` requests for one triple of filters. */
  function RequestUrl(encode: string -> string, searchTerm: string, cityFilter: string, degreeFilter: string): (url: string)
    ensures StartsWith(url, Endpoint)
    ensures searchTerm == "" && cityFilter == "" && degreeFilter == "" ==> url == Endpoint
  {
    Endpoint + Serialize(encode, QueryParams(searchTerm, cityFilter, degreeFilter))
  }

  /** With one parameter the URL is the endpoint, the encoded name, `=` and the encoded value. */
  lemma SingleParamUrl(encode: string -> string, searchTerm: string)
    requires searchTerm != ""
    ensures RequestUrl(encode, searchTerm, "", "") == Endpoint + Pair(encode, ("search", searchTerm))
  {
    assert QueryParams(searchTerm, "", "") == [("search", searchTerm)];
  }

  /** With all three parameters the pairs come in the order search, city, degree. */
  lemma ThreeParamUrl(encode: string -> string, searchTerm: string, cityFilter: string, degreeFilter: string)
    requires searchTerm != "" && cityFilter != "" && degreeFilter != ""
    ensures RequestUrl(encode, searchTerm, cityFilter, degreeFilter)
        == Endpoint + (Pair(encode, ("search", searchTerm)) + "&" + Pair(encode, ("city", cityFilter))
                       + "&" + Pair(encode, ("degree", degreeFilter)))
  {
    var ps := QueryParams(searchTerm, cityFilter, degreeFilter);
    assert ps == [("search", searchTerm), ("city", cityFilter), ("degree", degreeFilter)];
    var p0, p1, p2 := Pair(encode, ps[0]), Pair(encode, ps[1]), Pair(encode, ps[2]);
    assert Serialize(encode, ps[1..][1..]) == p2;
    assert Serialize(encode, ps[1..]) == p1 + "&" + p2;
    assert Serialize(encode, ps) == p0 + "&" + (p1 + "&" + p2);
  }

  // ---------------------------------------------------------------------------
  // How a request settles

  /** A thrown value: an `Error` with its message, or anything else. */
  datatype Thrown = ErrorObject(message: string) | OtherValue

  /** The body of a response as `response.json()` yields it. */
  datatype Body = Parsed(data: seq<Advocate>) | Unparsable(reason: Thrown)

  /** What the awaited `fetch` gives: a response, or a rejection. */
  datatype Reply = Responded(status: int, body: Body) | Rejected(reason: Thrown)

  /** What a settled request writes into the state. */
  datatype Settlement = Loaded(data: seq<Advocate>) | Failed(message: string)

  const FallbackMessage := "Failed to fetch advocates"
  const HttpErrorPrefix := "HTTP error! status: "

  /** `error instanceof Error ? error.message : 'Failed to fetch advocates'`. */
  function ErrorMessage(t: Thrown): (m: string)
    ensures t.ErrorObject? ==> m == t.message
    ensures t.OtherValue? ==> m == FallbackMessage
  {
    match t
    case ErrorObject(message) => message
    case OtherValue => FallbackMessage
  }

  /** `response.ok`: a status in the range 200-299. */
  predicate IsOk(status: int) {
    200 <= status <= 299
  }

  /**
   * The outcome of the `try` block: a non-ok status throws the HTTP error
   * before the body is read; an unreadable body or a rejected `fetch` throws
   * its own value.
   */
  function Resolve(reply: Reply): (s: Settlement)
    ensures s.Loaded? <==> reply.Responded? && IsOk(reply.status) && reply.body.Parsed?
    ensures s.Loaded? ==> s.data == reply.body.data
    ensures reply.Rejected? ==> s == Failed(ErrorMessage(reply.reason))
    ensures reply.Responded? && IsOk(reply.status) && reply.body.Unparsable?
        ==> s == Failed(ErrorMessage(reply.body.reason))
  {
    match reply
    case Rejected(t) => Failed(ErrorMessage(t))
    case Responded(status, body) =>
      if !IsOk(status) then Failed(HttpErrorPrefix + IntToString(status))
      else match body
        case Parsed(data) => Loaded(data)
        case Unparsable(t) => Failed(ErrorMessage(t))
  }

  /** The status can be read back from an HTTP error message. */
  lemma HttpErrorCarriesStatus(status: int, body: Body)
    requires !IsOk(status)
    ensures var s := Resolve(Responded(status, body));
            s == Failed(HttpErrorPrefix + IntToString(status)) && StartsWith(s.message, HttpErrorPrefix)
            && ParseInt(s.message[|HttpErrorPrefix|..]) == status
  {
    var m := HttpErrorPrefix + IntToString(status);
    assert m[|HttpErrorPrefix|..] == IntToString(status);
    IntToStringRoundTrip(status);
  }

  /** A 500 response gives the message `HTTP error! status: 500`. */
  lemma Status500Message(body: Body)
    ensures Resolve(Responded(500, body)) == Failed(HttpErrorPrefix + "500")
  {
    assert IntToString(500) == "500" by {
      assert NatToString(5) == "5";
      assert NatToString(50) == NatToString(5) + [DigitChar(0)];
      assert NatToString(500) == NatToString(50) + [DigitChar(0)];
    }
  }

  /**
   * The fetches one render issues when the triple goes from `was` to `now`:
   * one from the fetch effect of the render itself when the city or the
   * degree changed, made with the debounced search the render still had,
   * and one from the render that follows when the debounced search changed.
   */
  function EffectFetches(encode: string -> string, was: (string, string, string), now: (string, string, string)): (issued: seq<string>)
    ensures |issued| <= 2
    ensures issued == [] <==> was == now
    ensures issued != [] ==> issued[|issued| - 1] == RequestUrl(encode, now.0, now.1, now.2)
  {
    (if now.1 != was.1 || now.2 != was.2 then [RequestUrl(encode, was.0, now.1, now.2)] else [])
    + (if now.0 != was.0 then [RequestUrl(encode, now.0, now.1, now.2)] else [])
  }

  // ---------------------------------------------------------------------------
  // The hook's state

  class AdvocatesHook {
    /** The serializer behind `URLSearchParams.toString()`. */
    const encode: string -> string

    // The props of the latest render.
    var search: string
    var city: string
    var degree: string
    var debounceMs: int

    // The `useState` cells.
    var advocates: seq<Advocate>
    var isLoading: bool
    var error: Option<string>
    var debouncedSearch: string

    /** `timeoutRef.current` while it is pending, with the search it will publish. */
    var timer: Option<string>

    /** Every URL passed to `fetch`, in the order of the calls. */
    var fetchCalls: seq<string>
    /** The requests that have not settled yet. */
    var inFlight: nat
    /** The component has unmounted. */
    var disposed: bool

    /** What every event keeps true. */
    predicate Valid()
      reads this
    {
      // a pending timer carries the current, non-empty search
      && (timer.Some? ==> timer.value == search && search != "")
      // without a pending timer the debounced value has caught up
      && (!disposed && timer.None? ==> debouncedSearch == search)
      // an empty search is published at once
      && (search == "" ==> debouncedSearch == "")
      // an error is only shown once loading has stopped
      && (error.Some? ==> !isLoading)
      // loading means some request is still out
      && (!disposed && isLoading ==> inFlight > 0)
      && inFlight <= |fetchCalls|
      // teardown clears the timer
      && (disposed ==> timer.None?)
    }

    function Props(): Config
      reads this
    {
      Config(search, city, degree, debounceMs)
    }

    /** The triple the fetch effect depends on. */
    function Current(): (string, string, string)
      reads this
    {
      (debouncedSearch, city, degree)
    }

    /** The URL for the current triple. */
    function CurrentUrl(): string
      reads this
    {
      RequestUrl(encode, debouncedSearch, city, degree)
    }

    /**
     * The first render and the effects run on mount: the initial state, a
     * timer for a non-empty search, and the first fetch, made with the
     * still-empty debounced search.
     */
    constructor (encode: string -> string, o: Options)
      ensures this.encode == encode && Props() == WithDefaults(o)
      ensures advocates == [] && isLoading && error.None? && debouncedSearch == ""
      ensures timer == (if search == "" then None else Some(search))
      ensures fetchCalls == [RequestUrl(encode, "", city, degree)]
      ensures inFlight == 1 && !disposed
      ensures Valid()
    {
      var c := WithDefaults(o);
      this.encode := encode;
      search, city, degree, debounceMs := c.search, c.city, c.degree, c.debounceMs;
      advocates, isLoading, error, debouncedSearch := [], true, None, "";
      timer, fetchCalls, inFlight, disposed := None, [], 0, false;
      new;
      var _ := DebounceEffect(true);
      var _ := FetchAdvocates(debouncedSearch, city, degree);
    }

    /**
     * `fetchAdvocates` up to its `await`: builds the parameters one by one,
     * issues the request, and marks the state as loading without an error.
     * `advocates` is not touched. After unmount the state setters do nothing.
     */
    method FetchAdvocates(searchTerm: string, cityFilter: string, degreeFilter: string) returns (url: string)
      modifies this
      ensures url == RequestUrl(encode, searchTerm, cityFilter, degreeFilter)
      ensures fetchCalls == old(fetchCalls) + [url] && inFlight == old(inFlight) + 1
      ensures !old(disposed) ==> isLoading && error.None?
      ensures old(disposed) ==> isLoading == old(isLoading) && error == old(error)
      ensures advocates == old(advocates) && debouncedSearch == old(debouncedSearch)
      ensures search == old(search) && city == old(city) && degree == old(degree) && debounceMs == old(debounceMs)
      ensures timer == old(timer) && disposed == old(disposed)
    {
      if !disposed {
        isLoading := true;
        error := None;
      }
      var params: seq<(string, string)> := [];
      if searchTerm != "" {
        params := params + [("search", searchTerm)];
      }
      if cityFilter != "" {
        params := params + [("city", cityFilter)];
      }
      if degreeFilter != "" {
        params := params + [("degree", degreeFilter)];
      }
      assert params == QueryParams(searchTerm, cityFilter, degreeFilter);
      url := Endpoint + Serialize(encode, params);
      fetchCalls := fetchCalls + [url];
      inFlight := inFlight + 1;
    }

    /**
     * The debounce effect, when its dependencies changed: clears the pending
     * timer, then publishes an empty search at once (the caller re-renders
     * with it) or schedules a timer carrying the search. Otherwise it does
     * not run.
     */
    method DebounceEffect(depsChanged: bool) returns (publishEmpty: bool)
      modifies this
      ensures publishEmpty == (depsChanged && search == "")
      ensures timer == (if !depsChanged then old(timer) else if search == "" then None else Some(search))
      ensures search == old(search) && city == old(city) && degree == old(degree) && debounceMs == old(debounceMs)
      ensures advocates == old(advocates) && isLoading == old(isLoading) && error == old(error)
      ensures debouncedSearch == old(debouncedSearch) && fetchCalls == old(fetchCalls)
      ensures inFlight == old(inFlight) && disposed == old(disposed)
    {
      publishEmpty := false;
      if depsChanged {
        timer := None;
        if search == "" {
          publishEmpty := true;
        } else {
          timer := Some(search);
        }
      }
    }

    /**
     * The fetch effects of a render whose city or degree may have changed
     * since the triple `was`, then of the render that follows when an empty
     * search was published.
     */
    method FetchEffects(ghost was: (string, string, string), filtersChanged: bool, publishEmpty: bool)
      requires was.0 == debouncedSearch && (filtersChanged <==> was.1 != city || was.2 != degree)
      modifies this
      ensures debouncedSearch == (if publishEmpty then "" else old(debouncedSearch))
      ensures var issued := EffectFetches(encode, was, Current());
              && fetchCalls == old(fetchCalls) + issued
              && inFlight == old(inFlight) + |issued|
              && (!disposed ==> isLoading == (old(isLoading) || issued != []))
              && (!disposed ==> error == (if issued != [] then None else old(error)))
      ensures search == old(search) && city == old(city) && degree == old(degree) && debounceMs == old(debounceMs)
      ensures advocates == old(advocates) && timer == old(timer) && disposed == old(disposed)
    {
      ghost var first: seq<string> := [];
      if filtersChanged {
        var url := FetchAdvocates(debouncedSearch, city, degree);
        first := [url];
      }
      assert fetchCalls == old(fetchCalls) + first;
      ghost var second: seq<string> := [];
      if publishEmpty && debouncedSearch != "" {
        debouncedSearch := "";
        var url := FetchAdvocates(debouncedSearch, city, degree);
        second := [url];
      }
      assert fetchCalls == old(fetchCalls) + (first + second);
      assert first + second == EffectFetches(encode, was, Current());
    }

    /**
     * A render with new options. The debounce effect runs when the search or
     * the delay changed: it clears the pending timer, then either publishes
     * an empty search at once or schedules a new timer. The fetch effect
     * runs when the city or the degree changed, with the debounced search of
     * this render; publishing an empty search causes one more render, whose
     * fetch effect uses it.
     */
    method Rerender(o: Options)
      requires Valid() && !disposed
      modifies this
      ensures Valid() && !disposed
      ensures Props() == WithDefaults(o)
      ensures debouncedSearch == (if search == "" then "" else old(debouncedSearch))
      ensures timer == (if search == old(search) && debounceMs == old(debounceMs) then old(timer)
                        else if search == "" then None else Some(search))
      ensures var issued := EffectFetches(encode, old(Current()), Current());
              && fetchCalls == old(fetchCalls) + issued
              && inFlight == old(inFlight) + |issued|
              && isLoading == (old(isLoading) || issued != [])
              && error == (if issued != [] then None else old(error))
      ensures advocates == old(advocates)
    {
      var c := WithDefaults(o);
      var debounceDepsChanged := c.search != search || c.debounceMs != debounceMs;
      var fetchDepsChanged := c.city != city || c.degree != degree;
      search, city, degree, debounceMs := c.search, c.city, c.degree, c.debounceMs;
      var publishEmpty := DebounceEffect(debounceDepsChanged);
      FetchEffects(old(Current()), fetchDepsChanged, publishEmpty);
    }

    /** The pending timer fires and publishes its search; a changed value triggers the fetch effect. */
    method TimerFired()
      requires Valid() && timer.Some?
      modifies this
      ensures Valid()
      ensures debouncedSearch == old(timer.value) && debouncedSearch == search && timer.None?
      ensures fetchCalls == (if debouncedSearch == old(debouncedSearch) then old(fetchCalls)
                             else old(fetchCalls) + [CurrentUrl()])
      ensures inFlight == old(inFlight) + |fetchCalls| - |old(fetchCalls)|
      ensures isLoading == (old(isLoading) || debouncedSearch != old(debouncedSearch))
      ensures error == (if debouncedSearch != old(debouncedSearch) then None else old(error))
      ensures advocates == old(advocates) && Props() == old(Props()) && disposed == old(disposed)
    {
      var value := timer.value;
      timer := None;
      if value != debouncedSearch {
        debouncedSearch := value;
        var _ := FetchAdvocates(debouncedSearch, city, degree);
      }
    }

    /**
     * One outstanding request completes. A success stores the rows and stops
     * loading, leaving `error` as it is; a failure stores the message and
     * stops loading, leaving the rows as they are. Nothing checks which
     * request this was, so a late reply overwrites a newer one. After
     * unmount nothing is written.
     */
    method Settle(reply: Reply)
      requires Valid() && inFlight > 0
      modifies this
      ensures Valid()
      ensures inFlight == old(inFlight) - 1
      ensures old(disposed) ==> advocates == old(advocates) && isLoading == old(isLoading) && error == old(error)
      ensures !old(disposed) ==>
        match Resolve(reply)
        case Loaded(data) => advocates == data && !isLoading && error == old(error)
        case Failed(m) => advocates == old(advocates) && !isLoading && error == Some(m)
      ensures fetchCalls == old(fetchCalls) && debouncedSearch == old(debouncedSearch) && timer == old(timer)
      ensures Props() == old(Props()) && disposed == old(disposed)
    {
      inFlight := inFlight - 1;
      if !disposed {
        match Resolve(reply)
        case Loaded(data) =>
          advocates := data;
          isLoading := false;
        case Failed(m) =>
          error := Some(m);
          isLoading := false;
      }
    }

    /** `retry()` and `refetch()`: fetch again with the current triple. */
    method Retry()
      requires Valid()
      modifies this
      ensures Valid()
      ensures fetchCalls == old(fetchCalls) + [old(CurrentUrl())] && inFlight == old(inFlight) + 1
      ensures !disposed ==> isLoading && error.None?
      ensures disposed ==> isLoading == old(isLoading) && error == old(error)
      ensures advocates == old(advocates) && debouncedSearch == old(debouncedSearch) && timer == old(timer)
      ensures Props() == old(Props()) && disposed == old(disposed)
    {
      var _ := FetchAdvocates(debouncedSearch, city, degree);
    }

    /** Teardown: the effect cleanups clear a pending timer; clearing none is harmless. */
    method Unmount()
      requires Valid()
      modifies this
      ensures Valid() && disposed && timer.None?
      ensures advocates == old(advocates) && isLoading == old(isLoading) && error == old(error)
      ensures debouncedSearch == old(debouncedSearch) && Props() == old(Props())
      ensures fetchCalls == old(fetchCalls) && inFlight == old(inFlight)
    {
      timer := None;
      disposed := true;
    }
  }
}
