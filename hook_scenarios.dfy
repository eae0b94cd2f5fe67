/**
 * Runs of the `useAdvocates` hook, event by event: the cases its unit tests
 * describe, and two orderings of overlapping requests. Each method returns
 * what a component would observe at the end of the run.
 */
module HookScenarios {
  import opened Results
  import opened Advocates
  import opened UseAdvocates

  /** A hook mounted without options whose first request succeeds shows the rows, without an error. */
  method FetchSucceeds(encode: string -> string, data: seq<Advocate>)
    returns (advocates: seq<Advocate>, isLoading: bool, error: Option<string>, calls: seq<string>)
    ensures calls == [Endpoint]
    ensures advocates == data && !isLoading && error.None?
  {
    var h := new AdvocatesHook(encode, NoOptions);
    h.Settle(Responded(200, Parsed(data)));
    advocates, isLoading, error, calls := h.advocates, h.isLoading, h.error, h.fetchCalls;
  }

  /** A rejected request shows the thrown error's message and keeps the empty list. */
  method NetworkFails(encode: string -> string)
    returns (advocates: seq<Advocate>, isLoading: bool, error: Option<string>)
    ensures advocates == [] && !isLoading && error == Some("Network error")
  {
    var h := new AdvocatesHook(encode, NoOptions);
    h.Settle(Rejected(ErrorObject("Network error")));
    advocates, isLoading, error := h.advocates, h.isLoading, h.error;
  }

  /** A thrown value that is not an `Error` shows the fallback message. */
  method SomethingElseThrown(encode: string -> string)
    returns (advocates: seq<Advocate>, isLoading: bool, error: Option<string>)
    ensures advocates == [] && !isLoading && error == Some(FallbackMessage)
  {
    var h := new AdvocatesHook(encode, NoOptions);
    h.Settle(Rejected(OtherValue));
    advocates, isLoading, error := h.advocates, h.isLoading, h.error;
  }

  /** A 500 response shows `HTTP error! status: 500`, whatever its body, and keeps the empty list. */
  method HttpFails(encode: string -> string, body: Body)
    returns (advocates: seq<Advocate>, isLoading: bool, error: Option<string>)
    ensures advocates == [] && !isLoading && error == Some(HttpErrorPrefix + "500")
  {
    var h := new AdvocatesHook(encode, NoOptions);
    Status500Message(body);
    h.Settle(Responded(500, body));
    advocates, isLoading, error := h.advocates, h.isLoading, h.error;
  }

  /**
   * Typing a search: the change alone issues no request and the hook is
   * still loading from its first request; the request with the search is
   * issued when the timer fires.
   */
  method DebouncesSearch(encode: string -> string)
    returns (loadingAfterChange: bool, callsBeforeTimer: seq<string>, calls: seq<string>, isLoading: bool)
    ensures loadingAfterChange
    ensures callsBeforeTimer == [Endpoint]
    ensures calls == [Endpoint, RequestUrl(encode, "john", "", "")]
    ensures !isLoading
  {
    var h := new AdvocatesHook(encode, Options(Some(""), None, None, None));
    h.Rerender(Options(Some("john"), None, None, None));
    loadingAfterChange, callsBeforeTimer := h.isLoading, h.fetchCalls;
    h.Settle(Responded(200, Parsed([])));
    h.TimerFired();
    h.Settle(Responded(200, Parsed([])));
    calls, isLoading := h.fetchCalls, h.isLoading;
  }

  /**
   * Mounting with all three filters: the first request carries only the
   * city and the degree, since the search is still being debounced; the
   * timer then issues the request with all three.
   */
  method SendsAllFilters(encode: string -> string) returns (calls: seq<string>)
    ensures calls == [RequestUrl(encode, "", "New York", "MD"), RequestUrl(encode, "test", "New York", "MD")]
  {
    var h := new AdvocatesHook(encode, Options(Some("test"), Some("New York"), Some("MD"), None));
    h.TimerFired();
    calls := h.fetchCalls;
  }

  /** With an encoder that leaves these words alone, the debounced request is `/api/advocates?search=john`. */
  lemma DebouncedRequestUrl(encode: string -> string)
    requires encode("search") == "search" && encode("john") == "john"
    ensures RequestUrl(encode, "john", "", "") == "/api/advocates?search=john"
  {
    SingleParamUrl(encode, "john");
    assert Pair(encode, ("search", "john")) == "search=john";
  }

  /**
   * With an encoder that writes the space of "New York" as `%20`, the
   * request with all three filters is `/api/advocates?` followed by the
   * query the filter test expects.
   */
  lemma AllFiltersRequestUrl(encode: string -> string, query: string)
    requires encode("search") == "search" && encode("test") == "test"
    requires encode("city") == "city" && encode("New York") == "New%20York"
    requires encode("degree") == "degree" && encode("MD") == "MD"
    requires query == "search=test&city=New%20York&degree=MD"
    ensures RequestUrl(encode, "test", "New York", "MD") == Endpoint + query
  {
    ThreeParamUrl(encode, "test", "New York", "MD");
    var p0 := Pair(encode, ("search", "test"));
    var p1 := Pair(encode, ("city", "New York"));
    var p2 := Pair(encode, ("degree", "MD"));
    assert p0 == "search=test" && p1 == "city=New%20York" && p2 == "degree=MD";
    QueryOfThree(p0, p1, p2, query);
  }

  /** Proof helper for the lemma above: the three literal pairs joined by `&`. */
  lemma QueryOfThree(p0: string, p1: string, p2: string, query: string)
    requires p0 == "search=test" && p1 == "city=New%20York" && p2 == "degree=MD"
    requires query == "search=test&city=New%20York&degree=MD"
    ensures p0 + "&" + p1 + "&" + p2 == query
  {
  }

  /**
   * With the form-urlencoded serializer, which writes the space of
   * "New York" as `+`, the request with all three filters is not the URL the
   * filter test expects.
   */
  lemma FormEncodedRequestUrl(encode: string -> string, query: string, expected: string)
    requires encode("search") == "search" && encode("test") == "test"
    requires encode("city") == "city" && encode("New York") == "New+York"
    requires encode("degree") == "degree" && encode("MD") == "MD"
    requires query == "search=test&city=New+York&degree=MD"
    requires expected == "search=test&city=New%20York&degree=MD"
    ensures RequestUrl(encode, "test", "New York", "MD") == Endpoint + query
    ensures RequestUrl(encode, "test", "New York", "MD") != Endpoint + expected
  {
    var url := RequestUrl(encode, "test", "New York", "MD");
    assert url == Endpoint + query by {
      ThreeParamUrl(encode, "test", "New York", "MD");
      var p0 := Pair(encode, ("search", "test"));
      var p1 := Pair(encode, ("city", "New York"));
      var p2 := Pair(encode, ("degree", "MD"));
      assert p0 == "search=test" && p1 == "city=New+York" && p2 == "degree=MD";
      FormQueryOfThree(p0, p1, p2, query);
    }
    DifferentQueries(query, expected);
  }

  /** Proof helper for the lemma above: `+` and `%20` give queries of different lengths. */
  lemma DifferentQueries(query: string, expected: string)
    requires query == "search=test&city=New+York&degree=MD"
    requires expected == "search=test&city=New%20York&degree=MD"
    ensures Endpoint + query != Endpoint + expected
  {
    assert |query| == 35 && |expected| == 37;
  }

  /** Proof helper for the lemma above: the three literal pairs joined by `&`. */
  lemma FormQueryOfThree(p0: string, p1: string, p2: string, query: string)
    requires p0 == "search=test" && p1 == "city=New+York" && p2 == "degree=MD"
    requires query == "search=test&city=New+York&degree=MD"
    ensures p0 + "&" + p1 + "&" + p2 == query
  {
  }

  /**
   * Overlapping requests: changing the city issues a second request; when
   * both succeed and the first one's reply arrives last, it overwrites the
   * newer rows.
   */
  method LateReplyWins(encode: string -> string, status: int, older: seq<Advocate>, newer: seq<Advocate>)
    returns (advocates: seq<Advocate>, calls: seq<string>)
    requires IsOk(status)
    ensures calls == [Endpoint, RequestUrl(encode, "", "Austin", "")]
    ensures advocates == older
  {
    var h := new AdvocatesHook(encode, NoOptions);
    h.Rerender(Options(None, Some("Austin"), None, None));
    calls := h.fetchCalls;
    h.Settle(Responded(status, Parsed(newer)));
    h.Settle(Responded(status, Parsed(older)));
    advocates := h.advocates;
  }

  /**
   * Overlapping requests: when the newer request fails and the older one
   * then succeeds, the rows are shown together with the newer error, since
   * a success does not clear `error`.
   */
  method ErrorOutlivesLateSuccess(encode: string -> string, rows: seq<Advocate>)
    returns (advocates: seq<Advocate>, isLoading: bool, error: Option<string>)
    ensures advocates == rows && !isLoading && error == Some("Network error")
  {
    var h := new AdvocatesHook(encode, NoOptions);
    h.Rerender(Options(None, Some("Austin"), None, None));
    h.Settle(Rejected(ErrorObject("Network error")));
    h.Settle(Responded(200, Parsed(rows)));
    advocates, isLoading, error := h.advocates, h.isLoading, h.error;
  }

  /** `retry` after a failure re-issues the same request and clears the error while it loads. */
  method RetryAfterFailure(encode: string -> string)
    returns (calls: seq<string>, isLoading: bool, error: Option<string>)
    ensures calls == [Endpoint, Endpoint]
    ensures isLoading && error.None?
  {
    var h := new AdvocatesHook(encode, NoOptions);
    h.Settle(Rejected(OtherValue));
    h.Retry();
    calls, isLoading, error := h.fetchCalls, h.isLoading, h.error;
  }

  /** After unmount a pending timer is gone and a late reply writes nothing. */
  method ReplyAfterUnmount(encode: string -> string, rows: seq<Advocate>)
    returns (advocates: seq<Advocate>, isLoading: bool, timerPending: bool)
    ensures advocates == [] && isLoading && !timerPending
  {
    var h := new AdvocatesHook(encode, Options(Some("john"), None, None, None));
    h.Unmount();
    h.Settle(Responded(200, Parsed(rows)));
    advocates, isLoading, timerPending := h.advocates, h.isLoading, h.timer.Some?;
  }
}
