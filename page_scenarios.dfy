/** Runs of the advocates page, handler by handler. */
module PageScenarios {
  import opened Advocates
  import opened UseAdvocates
  import opened HomePage

  /** The page shows the spinner until the first request settles, then the rows and their summary. */
  method FirstLoad(encode: string -> string, rows: seq<Advocate>) returns (before: Screen, after: Screen)
    ensures before == Spinner
    ensures after == ResultsList(Summary(|rows|, "", "", ""), rows, rows == [])
  {
    var page := new Home(encode);
    before := page.Shown();
    page.hook.Settle(Responded(200, Parsed(rows)));
    after := page.Shown();
  }

  /**
   * Searching, then choosing a city, then resetting. The reset issues two
   * requests: the render with the cleared filters still has the old
   * debounced search, and the render after it has none.
   */
  method ResetAfterSearchAndCity(encode: string -> string) returns (calls: seq<string>)
    ensures calls == [Endpoint,
                      RequestUrl(encode, "john", "", ""),
                      RequestUrl(encode, "john", "Austin", ""),
                      RequestUrl(encode, "john", "", ""),
                      Endpoint]
  {
    var page := new Home(encode);
    page.HandleSearchChange("john");
    page.hook.TimerFired();
    page.HandleCityChange("Austin");
    page.HandleReset();
    calls := page.hook.fetchCalls;
  }

  /** Clearing the search box publishes the empty search at once and requests every row. */
  method ClearSearch(encode: string -> string) returns (calls: seq<string>, timerPending: bool)
    ensures calls == [Endpoint, RequestUrl(encode, "john", "", ""), Endpoint]
    ensures !timerPending
  {
    var page := new Home(encode);
    page.HandleSearchChange("john");
    page.hook.TimerFired();
    page.HandleSearchChange("");
    calls, timerPending := page.hook.fetchCalls, page.hook.timer.Some?;
  }

  /** A new search replaces a pending one: only the last value reaches a request. */
  method TypingReplacesTimer(encode: string -> string) returns (calls: seq<string>)
    ensures calls == [Endpoint, RequestUrl(encode, "jo", "", "")]
  {
    var page := new Home(encode);
    page.HandleSearchChange("j");
    page.HandleSearchChange("jo");
    page.hook.TimerFired();
    calls := page.hook.fetchCalls;
  }
}
