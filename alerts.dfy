/** The alerts page: the full alert history with a filter selector, counters,
    mark-as-read, and a built-in sample list used when the gateway has nothing. */
module AlertsPage {
  import opened Wrappers
  import opened Domain
  import opened Seqs

  /** The sample alerts shown when the history is empty or cannot be fetched. */
  const MockAlerts: seq<Alert> := [
    Alert(1, Some("ERROR"), "Database connection timeout on user authentication service",
          "2024-01-15T14:30:22Z", Some("auth-service"), false, Some("Database"), Some("High")),
    Alert(2, Some("WARN"), "High memory usage detected on payment processing service",
          "2024-01-15T14:25:15Z", Some("payment-service"), false, Some("Performance"), Some("Medium")),
    Alert(3, Some("INFO"), "Scheduled maintenance completed successfully",
          "2024-01-15T13:45:30Z", Some("maintenance"), true, Some("Maintenance"), Some("Low")),
    Alert(4, Some("ERROR"), "API rate limit exceeded for external service integration",
          "2024-01-15T13:20:45Z", Some("integration-service"), true, Some("API"), Some("High")),
    Alert(5, Some("WARN"), "SSL certificate expires in 7 days",
          "2024-01-15T12:00:00Z", Some("security"), false, Some("Security"), Some("Medium"))
  ]

  predicate IsUnread(a: Alert) { !a.read }
  predicate IsRead(a: Alert) { a.read }
  /** Exact, case-sensitive comparison with ERROR. */
  predicate IsError(a: Alert) { a.level == Some("ERROR") }
  /** Exact, case-sensitive comparison with WARN (WARNING does not match). */
  predicate IsWarning(a: Alert) { a.level == Some("WARN") }

  /** The alerts shown for a filter selection. Unknown selections show everything. */
  function Filtered(alerts: seq<Alert>, filter: string): (r: seq<Alert>)
    ensures filter == "unread" ==> forall a :: a in r <==> a in alerts && !a.read
    ensures filter == "error" ==> forall a :: a in r <==> a in alerts && a.level == Some("ERROR")
    ensures filter == "warning" ==> forall a :: a in r <==> a in alerts && a.level == Some("WARN")
    ensures filter !in {"unread", "error", "warning"} ==> r == alerts
  {
    var r :=
      if filter == "unread" then Keep(alerts, IsUnread)
      else if filter == "error" then Keep(alerts, IsError)
      else if filter == "warning" then Keep(alerts, IsWarning)
      else alerts;
    assert forall a :: a in alerts && IsUnread(a) && filter == "unread" ==> a in r by {
      forall a | a in alerts && IsUnread(a) && filter == "unread" ensures a in r {
        KeepComplete(alerts, IsUnread, a);
      }
    }
    assert forall a :: a in alerts && IsError(a) && filter == "error" ==> a in r by {
      forall a | a in alerts && IsError(a) && filter == "error" ensures a in r {
        KeepComplete(alerts, IsError, a);
      }
    }
    assert forall a :: a in alerts && IsWarning(a) && filter == "warning" ==> a in r by {
      forall a | a in alerts && IsWarning(a) && filter == "warning" ensures a in r {
        KeepComplete(alerts, IsWarning, a);
      }
    }
    r
  }

  /** Filtering keeps the original order: it works piecewise over the list. */
  lemma FilteredPreservesOrder(front: seq<Alert>, back: seq<Alert>, filter: string)
    ensures Filtered(front + back, filter) == Filtered(front, filter) + Filtered(back, filter)
  {
    KeepAppend(front, back, IsUnread);
    KeepAppend(front, back, IsError);
    KeepAppend(front, back, IsWarning);
  }

  /** The four counters shown above the list. */
  datatype Stats = Stats(total: nat, unread: nat, errors: nat, warnings: nat)

  /** The counters: each one is the size of the list its filter button shows, so none
      exceeds the total, and errors and warnings never overlap. */
  function GetStats(alerts: seq<Alert>): (r: Stats)
    ensures r.total == |alerts| == |Filtered(alerts, "all")|
    ensures r.unread == |Filtered(alerts, "unread")|
    ensures r.errors == |Filtered(alerts, "error")|
    ensures r.warnings == |Filtered(alerts, "warning")|
    ensures r.unread + |Keep(alerts, IsRead)| == r.total
    ensures r.errors + r.warnings <= r.total
  {
    KeepPartition(alerts, IsUnread, IsRead);
    KeepDisjoint(alerts, IsError, IsWarning);
    Stats(|alerts|, |Keep(alerts, IsUnread)|, |Keep(alerts, IsError)|, |Keep(alerts, IsWarning)|)
  }

  /** The sample list has five alerts: three unread, two errors, two warnings. */
  lemma MockStats()
    ensures GetStats(MockAlerts) == Stats(5, 3, 2, 2)
  {
    StatsOfFive(MockAlerts);
  }

  /** The counters of any five alerts flagged like the sample list. */
  lemma StatsOfFive(m: seq<Alert>)
    requires |m| == 5
    requires IsUnread(m[0]) && IsUnread(m[1]) && !IsUnread(m[2]) && !IsUnread(m[3]) && IsUnread(m[4])
    requires IsError(m[0]) && !IsError(m[1]) && !IsError(m[2]) && IsError(m[3]) && !IsError(m[4])
    requires !IsWarning(m[0]) && IsWarning(m[1]) && !IsWarning(m[2]) && !IsWarning(m[3]) && IsWarning(m[4])
    ensures GetStats(m) == Stats(5, 3, 2, 2)
  {
    KeepFive(m, IsUnread);
    KeepFive(m, IsError);
    KeepFive(m, IsWarning);
  }

  /** The filter of a five-element list, written out element by element. */
  lemma KeepFive(m: seq<Alert>, p: Alert -> bool)
    requires |m| == 5
    ensures |Keep(m, p)| == (if p(m[0]) then 1 else 0) + (if p(m[1]) then 1 else 0)
      + (if p(m[2]) then 1 else 0) + (if p(m[3]) then 1 else 0) + (if p(m[4]) then 1 else 0)
  {
    assert m[4..][1..] == [];
    assert |Keep(m[4..], p)| == (if p(m[4]) then 1 else 0);
    assert m[3..][1..] == m[4..];
    assert |Keep(m[3..], p)| == (if p(m[3]) then 1 else 0) + |Keep(m[4..], p)|;
    assert m[2..][1..] == m[3..];
    assert |Keep(m[2..], p)| == (if p(m[2]) then 1 else 0) + |Keep(m[3..], p)|;
    assert m[1..][1..] == m[2..];
    assert |Keep(m[1..], p)| == (if p(m[1]) then 1 else 0) + |Keep(m[2..], p)|;
  }

  /** One alert after marking `id` as read. */
  function MarkOne(a: Alert, id: int): (r: Alert) {
    if a.id == id then a.(read := true) else a
  }

  /** The list after a successful mark-as-read: every alert with that id becomes read,
      everything else (and the length and order) stays. */
  function MarkRead(alerts: seq<Alert>, id: int): (r: seq<Alert>)
    ensures |r| == |alerts|
    ensures forall i :: 0 <= i < |alerts| && alerts[i].id == id ==> r[i] == alerts[i].(read := true)
    ensures forall i :: 0 <= i < |alerts| && alerts[i].id != id ==> r[i] == alerts[i]
    decreases |alerts|
  {
    if alerts == [] then [] else [MarkOne(alerts[0], id)] + MarkRead(alerts[1..], id)
  }

  /** After marking, no alert with that id is unread. */
  lemma MarkReadClearsId(alerts: seq<Alert>, id: int)
    ensures forall a :: a in Filtered(MarkRead(alerts, id), "unread") ==> a.id != id
  {
  }

  /** Marking the same id twice is the same as marking it once. */
  lemma MarkReadIdempotent(alerts: seq<Alert>, id: int)
    ensures MarkRead(MarkRead(alerts, id), id) == MarkRead(alerts, id)
  {
  }

  /** Marking changes only the read flag: the total, error and warning counters stay, and
      the unread counter can only go down. */
  lemma {:induction false} MarkReadStats(alerts: seq<Alert>, id: int)
    ensures GetStats(MarkRead(alerts, id)).total == GetStats(alerts).total
    ensures GetStats(MarkRead(alerts, id)).errors == GetStats(alerts).errors
    ensures GetStats(MarkRead(alerts, id)).warnings == GetStats(alerts).warnings
    ensures GetStats(MarkRead(alerts, id)).unread <= GetStats(alerts).unread
    decreases |alerts|
  {
    if alerts != [] {
      var r := MarkRead(alerts, id);
      assert r[0] == MarkOne(alerts[0], id);
      assert r[1..] == MarkRead(alerts[1..], id);
      MarkReadStats(alerts[1..], id);
    }
  }

  /** The list a settled load installs: the fetched history when it is non-empty, the
      sample list when it is empty, `null` (which makes reading its length throw) or rejected. */
  function LoadedAlerts(response: Response<Option<seq<Alert>>>): (r: seq<Alert>)
    ensures r != []
    ensures response.Success? && response.value.Some? && response.value.value != [] ==> r == response.value.value
    ensures !(response.Success? && response.value.Some? && response.value.value != []) ==> r == MockAlerts
  {
    match response
    case Success(Some(data)) => if |data| > 0 then data else MockAlerts
    case Success(None) => MockAlerts
    case Failure => MockAlerts
  }

  /** The colour name of the level chip, compared case-sensitively. */
  function AlertColor(level: Option<string>): (r: string)
    ensures r in {"error", "warning", "info", "default"}
  {
    match level
    case Some(l) =>
      if l == "ERROR" then "error" else if l == "WARN" then "warning" else if l == "INFO" then "info" else "default"
    case None => "default"
  }

  /** The chip colour agrees with the filters: an alert is red exactly when the error filter
      shows it and orange exactly when the warning filter shows it. */
  lemma AlertColorMatchesFilters(alerts: seq<Alert>, a: Alert)
    requires a in alerts
    ensures AlertColor(a.level) == "error" <==> a in Filtered(alerts, "error")
    ensures AlertColor(a.level) == "warning" <==> a in Filtered(alerts, "warning")
    ensures AlertColor(a.level) == "info" <==> a.level == Some("INFO")
  {
  }

  /** The state of the alerts page. `filteredAlerts` is kept in step with `alerts` and
      `filter` by the filter effect, which the methods below run after each change. */
  class Alerts {
    var alerts: seq<Alert>
    var filteredAlerts: seq<Alert>
    var filter: string
    var loading: bool

    ghost predicate Valid()
      reads this
    {
      filteredAlerts == Filtered(alerts, filter)
    }

    constructor()
      ensures Valid()
      ensures alerts == [] && filteredAlerts == [] && filter == "all" && loading
    {
      alerts := [];
      filteredAlerts := [];
      filter := "all";
      loading := true;
    }

    /** The filter effect. */
    method ApplyFilter()
      modifies this`filteredAlerts
      ensures Valid()
    {
      filteredAlerts := Filtered(alerts, filter);
    }

    /** A filter button. */
    method SetFilter(value: string)
      modifies this`filter, this`filteredAlerts
      ensures Valid() && filter == value
    {
      filter := value;
      ApplyFilter();
    }

    /** A load starts (on mount and every 30 s tick). */
    method BeginLoad()
      modifies this`loading
      ensures loading
    {
      loading := true;
    }

    /** A load settles: the list is replaced and `loading` ends false in every case. */
    method CompleteLoad(response: Response<Option<seq<Alert>>>)
      modifies this`alerts, this`filteredAlerts, this`loading
      ensures Valid() && !loading
      ensures alerts == LoadedAlerts(response)
      ensures filter == old(filter)
    {
      alerts := LoadedAlerts(response);
      loading := false;
      ApplyFilter();
    }

    /** Mark-as-read after the server call settles: applied locally only on success. */
    method HandleMarkAsRead(id: int, call: Response<()>)
      requires Valid()
      modifies this`alerts, this`filteredAlerts
      ensures Valid()
      ensures call.Success? ==> alerts == MarkRead(old(alerts), id)
      ensures call.Failure? ==> alerts == old(alerts) && filteredAlerts == old(filteredAlerts)
    {
      if call.Success? {
        alerts := MarkRead(alerts, id);
        ApplyFilter();
      }
    }
  }
}
