/** The log table view: its filter state, the request it builds from that state,
    and the `logs`/`loading` state driven by the fetch effect. */
module LogQuery {
  import opened Wrappers
  import opened Domain

  /** An instant chosen in a date-time picker. Only its identity matters here:
      its wire form is the uninterpreted `IsoTime` parameter below. */
  datatype Instant = Instant(epochMillis: int)

  /** A query-string parameter value. `IsoTime(t)` stands for the ISO-8601 text
      the date library produces for `t`; that conversion is not modelled. */
  datatype Param = Number(n: int) | Text(s: string) | IsoTime(at: Instant)

  /** The four filter fields of the view. */
  datatype Filters = Filters(service: string, level: string, start: Option<Instant>, end: Option<Instant>)

  /** What the gateway's log search resolves with: one page of rows. */
  datatype LogPage = LogPage(content: seq<LogEntry>)

  const FirstPage := 0
  const PageSize := 10

  /** The filters after "clear": empty strings and no instants. */
  const ClearedFilters := Filters("", "", None, None)

  /** Every key the request may carry. */
  const RequestKeys: set<string> := {"page", "size", "level", "serviceName", "start", "end"}

  /** The request object built from the filters: paging always, each filter only when set. */
  function BuildRequest(f: Filters): (r: map<string, Param>)
    ensures "page" in r && r["page"] == Number(0)
    ensures "size" in r && r["size"] == Number(10)
    ensures ("level" in r) <==> f.level != ""
    ensures "level" in r ==> r["level"] == Text(f.level)
    ensures ("serviceName" in r) <==> f.service != ""
    ensures "serviceName" in r ==> r["serviceName"] == Text(f.service)
    ensures "service" !in r
    ensures ("start" in r) <==> f.start.Some?
    ensures "start" in r ==> r["start"] == IsoTime(f.start.value)
    ensures ("end" in r) <==> f.end.Some?
    ensures "end" in r ==> r["end"] == IsoTime(f.end.value)
    ensures r.Keys <= RequestKeys
  {
    map["page" := Number(FirstPage), "size" := Number(PageSize)]
    + (if f.level != "" then map["level" := Text(f.level)] else map[])
    + (if f.service != "" then map["serviceName" := Text(f.service)] else map[])
    + (if f.start.Some? then map["start" := IsoTime(f.start.value)] else map[])
    + (if f.end.Some? then map["end" := IsoTime(f.end.value)] else map[])
  }

  /** Distinct filter states always produce distinct requests, so nothing is lost
      between the filter fields and the query string. */
  lemma RequestDeterminesFilters(f: Filters, g: Filters)
    ensures BuildRequest(f) == BuildRequest(g) <==> f == g
  {
  }

  /** A service filter alone yields exactly `page`, `size` and `serviceName`. */
  lemma ServiceOnlyRequest()
    ensures BuildRequest(Filters("auth-service", "", None, None)).Keys == {"page", "size", "serviceName"}
    ensures BuildRequest(Filters("auth-service", "", None, None))["serviceName"] == Text("auth-service")
  {
  }

  /** After the filters are cleared the request carries only the paging keys. */
  lemma ClearedRequest()
    ensures BuildRequest(ClearedFilters) == map["page" := Number(0), "size" := Number(10)]
  {
  }

  /** The rows after a fetch settles: replaced wholesale on success, kept on failure. */
  function AfterFetch(logs: seq<LogEntry>, response: Response<LogPage>): (r: seq<LogEntry>)
    ensures response.Success? ==> r == response.value.content
    ensures response.Failure? ==> r == logs
  {
    match response
    case Success(page) => page.content
    case Failure => logs
  }

  /** The rows after several fetches settle, in the order they complete. */
  function AfterFetches(logs: seq<LogEntry>, completions: seq<Response<LogPage>>): (r: seq<LogEntry>)
    decreases |completions|
  {
    if completions == [] then logs
    else AfterFetches(AfterFetch(logs, completions[0]), completions[1..])
  }

  /** The content of the last successful completion, if any. */
  function LastSuccess(completions: seq<Response<LogPage>>): (r: Option<seq<LogEntry>>)
    decreases |completions|
  {
    if completions == [] then None
    else if completions[|completions| - 1].Success? then Some(completions[|completions| - 1].value.content)
    else LastSuccess(completions[..|completions| - 1])
  }

  lemma {:induction false} AfterFetchesSnoc(logs: seq<LogEntry>, completions: seq<Response<LogPage>>, last: Response<LogPage>)
    ensures AfterFetches(logs, completions + [last]) == AfterFetch(AfterFetches(logs, completions), last)
    decreases |completions|
  {
    if completions == [] {
      assert [] + [last] == [last];
      assert [last][1..] == [];
    } else {
      assert (completions + [last])[0] == completions[0];
      assert (completions + [last])[1..] == completions[1..] + [last];
      AfterFetchesSnoc(AfterFetch(logs, completions[0]), completions[1..], last);
    }
  }

  /** There is no staleness guard: the visible rows are those of the LAST fetch to
      complete successfully, whichever query issued it; failures leave rows alone. */
  lemma {:induction false} LastCompletedSuccessWins(logs: seq<LogEntry>, completions: seq<Response<LogPage>>)
    ensures AfterFetches(logs, completions) ==
      match LastSuccess(completions)
      case Some(content) => content
      case None => logs
    decreases |completions|
  {
    if completions != [] {
      var init := completions[..|completions| - 1];
      var last := completions[|completions| - 1];
      assert completions == init + [last];
      AfterFetchesSnoc(logs, init, last);
      LastCompletedSuccessWins(logs, init);
    }
  }

  /** The state of the log table view. The six fields are its `useState` hooks. */
  class LogTable {
    var logs: seq<LogEntry>
    var loading: bool
    var level: string
    var service: string
    var start: Option<Instant>
    var end: Option<Instant>

    function CurrentFilters(): Filters
      reads this
    {
      Filters(service, level, start, end)
    }

    /** Mount: no rows, not loading, no filters. */
    constructor()
      ensures logs == [] && !loading
      ensures CurrentFilters() == ClearedFilters
    {
      logs := [];
      loading := false;
      level := "";
      service := "";
      start := None;
      end := None;
    }

    method SetLevel(value: string)
      modifies this`level
      ensures level == value
    {
      level := value;
    }

    method SetService(value: string)
      modifies this`service
      ensures service == value
    {
      service := value;
    }

    method SetStart(value: Option<Instant>)
      modifies this`start
      ensures start == value
    {
      start := value;
    }

    method SetEnd(value: Option<Instant>)
      modifies this`end
      ensures end == value
    {
      end := value;
    }

    /** The effect that runs on mount and whenever a filter field changes: it raises
        `loading` and issues the search with the request built from the current filters. */
    method IssueFetch() returns (request: map<string, Param>)
      modifies this`loading
      ensures loading
      ensures request == BuildRequest(CurrentFilters())
    {
      loading := true;
      request := BuildRequest(Filters(service, level, start, end));
    }

    /** A search settles: on success the rows become the page content; in every case
        `loading` is cleared. Whichever search completes is applied. */
    method CompleteFetch(response: Response<LogPage>)
      modifies this`logs, this`loading
      ensures !loading
      ensures logs == AfterFetch(old(logs), response)
    {
      match response {
        case Success(page) => logs := page.content;
        case Failure =>
      }
      loading := false;
    }
  }

  /** Two searches overlap and the older one completes last: its rows are shown although
      the newer filters are current, because completed responses are applied unconditionally. */
  method OverlappingSearches(older: LogPage, newer: LogPage) returns (shown: seq<LogEntry>, current: map<string, Param>)
    ensures shown == older.content
    ensures current == BuildRequest(Filters("", "ERROR", None, None))
  {
    var table := new LogTable();
    var olderRequest := table.IssueFetch();
    table.SetLevel("ERROR");
    assert table.CurrentFilters() == Filters("", "ERROR", None, None);
    current := table.IssueFetch();
    table.CompleteFetch(Success(newer));
    table.CompleteFetch(Success(older));
    shown := table.logs;
  }
}
