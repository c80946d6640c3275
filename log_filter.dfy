/** The filter bar of the log view. It owns no filter state: its handlers write the
    log table's filter fields through the setters the table passes down. */
module LogFilters {
  import opened Wrappers
  import opened LogQuery

  /** `newValue || ''`: a cleared autocomplete selection becomes the empty string. */
  function SelectionValue(newValue: Option<string>): (r: string)
    ensures newValue.None? ==> r == ""
    ensures newValue.Some? ==> r == newValue.value
  {
    match newValue
    case Some(v) => v
    case None => ""
  }

  class LogFilter {
    /** The owning view whose setters the props carry. */
    const table: LogTable
    /** Whether the optional `onFilter` prop was supplied (the log table supplies none). */
    const hasOnFilter: bool
    /** How many times `onFilter` has been called. */
    var onFilterCalls: nat

    constructor(table: LogTable, hasOnFilter: bool)
      ensures this.table == table && this.hasOnFilter == hasOnFilter && onFilterCalls == 0
    {
      this.table := table;
      this.hasOnFilter := hasOnFilter;
      onFilterCalls := 0;
    }

    /** The clear button: both text filters become empty, both instants null; nothing else changes. */
    method HandleClear()
      modifies table`service, table`level, table`start, table`end
      ensures table.CurrentFilters() == ClearedFilters
      ensures table.logs == old(table.logs) && table.loading == old(table.loading)
      ensures onFilterCalls == old(onFilterCalls)
    {
      table.SetService("");
      table.SetLevel("");
      table.SetStart(None);
      table.SetEnd(None);
    }

    /** An option (or nothing) chosen in the service autocomplete. */
    method ServiceSelected(newValue: Option<string>)
      modifies table`service
      ensures table.service == SelectionValue(newValue)
    {
      table.SetService(SelectionValue(newValue));
    }

    /** Text typed into the service autocomplete is stored verbatim, whether or not it is an option. */
    method ServiceTyped(text: string)
      modifies table`service
      ensures table.service == text
    {
      table.SetService(text);
    }

    /** An option (or nothing) chosen in the level autocomplete. */
    method LevelSelected(newValue: Option<string>)
      modifies table`level
      ensures table.level == SelectionValue(newValue)
    {
      table.SetLevel(SelectionValue(newValue));
    }

    /** Text typed into the level autocomplete is stored verbatim. */
    method LevelTyped(text: string)
      modifies table`level
      ensures table.level == text
    {
      table.SetLevel(text);
    }

    method StartPicked(value: Option<Instant>)
      modifies table`start
      ensures table.start == value
    {
      table.SetStart(value);
    }

    method EndPicked(value: Option<Instant>)
      modifies table`end
      ensures table.end == value
    {
      table.SetEnd(value);
    }

    /** The Search and Refresh buttons, and also the effect run on each filter change:
        `onFilter` is called once when present, and nothing happens when it is absent. */
    method HandleRefresh()
      modifies this`onFilterCalls
      ensures onFilterCalls == old(onFilterCalls) + (if hasOnFilter then 1 else 0)
    {
      if hasOnFilter {
        onFilterCalls := onFilterCalls + 1;
      }
    }
  }

  /** Clearing the filters bar and letting the table's effect run yields a request with only
      the paging keys, and the table passes no `onFilter`, so nothing else is called. */
  method ClearThenSearch(serviceText: string, levelText: string) returns (request: map<string, Param>, calls: nat)
    ensures request.Keys == {"page", "size"}
    ensures calls == 0
  {
    var table := new LogTable();
    var bar := new LogFilter(table, false);
    bar.ServiceTyped(serviceText);
    bar.LevelTyped(levelText);
    bar.HandleClear();
    request := table.IssueFetch();
    ClearedRequest();
    bar.HandleRefresh();
    calls := bar.onFilterCalls;
  }
}
