# Log and alert viewer core, modelled in Dafny

The client is a browser viewer for application logs and alerts served by a remote HTTP gateway.
Apart from layout, five components hold logic. This project models that logic and proves
properties of it:

- **Log table** (`log_table.dfy`, module `LogQuery`). Its four filter fields (`service`, `level`,
  `start`, `end`) become a request object. `page` and `size` are always present. Each filter key
  appears only when it is set, and `service` is sent as `serviceName`. The fetch effect raises
  `loading`. When the fetch settles it replaces `logs` wholesale on success and clears `loading`.
- **Filter bar** (`log_filter.dfy`, module `LogFilters`). Clear, the autocomplete and date-picker
  handlers, and the optional `onFilter` callback. They write the table's filter fields through the
  setters the table passes down.
- **Notification bell** (`notifications.dfy`, module `Notifications`). Polling replaces the
  unread-alert list, and a rejected poll installs a fixed two-item fallback list. A pulse is raised
  on a strict increase of the list length over the recorded length. Mark-as-read removes the alert
  only after the server call succeeds. The module also covers the chip label and colour and the
  pluralised count texts.
- **Alerts page** (`alerts.dfy`, module `AlertsPage`). The all/unread/error/warning filters, the
  four counters and mark-as-read. Loading falls back to a five-alert sample list when the history
  is empty or the call fails.
- **Dashboard** (`dashboard.dfy`, module `DashboardPage`). Fetch normalisation turns missing
  parts into 0 or empty. A rejected fetch keeps the last known counters, but the gateway wrappers
  never reject: an outage resolves to zero counters (`GatewayOutageZeroesCounters`). The module also covers KPI selection, including the rounded hourly average,
  and the case-insensitive level colour and icon.

Helpers: `wrappers.dfy` (`Option`, and `Response` for a settled gateway call), `text.dfy` (ASCII
case mapping, decimal text), `seqs.dfy` (`Keep`, the order-preserving filter, with its lemmas) and
`domain.dfy` (the `Alert` and `LogEntry` records).

Each component is a class whose fields are its state hooks. Its methods are the handlers and
effects, and their `ensures` tie the new fields to pure functions of the old ones. The properties
are proved about those functions. Gateway calls are parameters of type `Response`, and timers are
explicit event methods (`PulseTimeout`, and the `Followup` value returned by mark-as-read).

Where the design intent and the code differ, the model follows the code:

- The log table has no staleness guard. Every completed search is applied, in completion order
  (`LastCompletedSuccessWins`, `OverlappingSearches`).
- The page size is 10.
- A rejected notification poll does not keep the previous list. It installs the two-item fallback
  (`PolledAlerts`).
- Mark-as-read in the bell is not optimistic. The alert is removed only after the server call
  succeeds. On failure the list is untouched and a reload is requested at once.
- The recorded alert count starts at 0, so the first non-empty load also pulses (`PulseExample`).

## Model

| member | source | states |
|---|---|---|
| `LogQuery.BuildRequest` | src/components/LogTable.jsx:19-26 | `page` is 0 and `size` is 10 always. `level` is present iff the level filter is non-empty, with that text. `serviceName` is present iff the service filter is non-empty, and no `service` key exists. `start`/`end` are present iff set, as the ISO form of the instant. No other key appears. |
| `LogQuery.RequestDeterminesFilters` | src/components/LogTable.jsx:19-26 | Two filter states build the same request iff they are equal, so the request is a canonical form of the filters. |
| `LogQuery.ServiceOnlyRequest` | src/components/LogTable.jsx:19-26 | With service `auth-service` and the other filters empty or null, the request keys are exactly `page`, `size`, `serviceName`. |
| `LogQuery.ClearedRequest` | src/components/LogTable.jsx:19-26 | The cleared filters build a request of exactly `page` 0 and `size` 10. |
| `LogQuery.AfterFetch` | src/components/LogTable.jsx:27-28 | A successful search makes the rows exactly the page content. A failed one leaves the rows unchanged. |
| `LogQuery.LastCompletedSuccessWins` | src/components/LogTable.jsx:17-29 | After any sequence of completions the rows are those of the last successful completion, or the old rows if none succeeded. Completion order decides, not issue order. |
| `LogQuery.LogTable.constructor` | src/components/LogTable.jsx:9-14 | Initially: rows empty, not loading, `level`/`service` empty, `start`/`end` null. |
| `LogQuery.LogTable.SetLevel` | src/components/LogTable.jsx:11 | The level state becomes the given value. |
| `LogQuery.LogTable.SetService` | src/components/LogTable.jsx:12 | The service state becomes the given value. |
| `LogQuery.LogTable.SetStart` | src/components/LogTable.jsx:13 | The start state becomes the given instant or null. |
| `LogQuery.LogTable.SetEnd` | src/components/LogTable.jsx:14 | The end state becomes the given instant or null. |
| `LogQuery.LogTable.IssueFetch` | src/components/LogTable.jsx:17-26 | The fetch effect sets `loading` and issues the request built from the current filters. |
| `LogQuery.LogTable.CompleteFetch` | src/components/LogTable.jsx:27-28 | When the search settles, `loading` is false and the rows follow `AfterFetch`. Any completed search is applied. |
| `LogQuery.OverlappingSearches` | src/components/LogTable.jsx:17-29 | Two overlapping searches where the older completes last: the older search's rows are shown while the newer filters are current. |
| `LogFilters.SelectionValue` | src/components/LogFilter.jsx:61 | A null selection is stored as `''`. Any other selection is stored as is. |
| `LogFilters.LogFilter.constructor` | src/components/LogFilter.jsx:17-23 | The bar is bound to its owner's state and to whether `onFilter` was supplied. No call has been made yet. |
| `LogFilters.LogFilter.HandleClear` | src/components/LogFilter.jsx:38-43 | `service` and `level` become `''` and `start`/`end` become null. The rows, `loading` and the call count are unchanged. |
| `LogFilters.LogFilter.ServiceSelected` | src/components/LogFilter.jsx:61 | The service state becomes the selected option, or `''` for none. |
| `LogFilters.LogFilter.ServiceTyped` | src/components/LogFilter.jsx:62 | Typed service text is stored verbatim, whether or not it is a known option. |
| `LogFilters.LogFilter.LevelSelected` | src/components/LogFilter.jsx:81 | The level state becomes the selected option, or `''` for none. |
| `LogFilters.LogFilter.LevelTyped` | src/components/LogFilter.jsx:82 | Typed level text is stored verbatim. |
| `LogFilters.LogFilter.StartPicked` | src/components/LogFilter.jsx:100 | The start state becomes the picked instant. |
| `LogFilters.LogFilter.EndPicked` | src/components/LogFilter.jsx:115 | The end state becomes the picked instant. |
| `LogFilters.LogFilter.HandleRefresh` | src/components/LogFilter.jsx:33-47 | The change effect and Search/Refresh call `onFilter` exactly once when it is present and do nothing when it is absent. |
| `LogFilters.ClearThenSearch` | src/components/LogFilter.jsx:38-43 | After clear, the request the table builds has only `page` and `size`. The table passes no `onFilter`, so Refresh calls nothing. |
| `Notifications.PolledAlerts` | src/components/NotificationsDropdown.jsx:27-54 | A resolved list replaces the alerts, and a resolved null yields the empty list. A rejection yields the two unread fallback alerts, ids 1 and 2. |
| `Notifications.PulseTrace` | src/components/NotificationsDropdown.jsx:85-96 | One pulse decision per observed count. After each step the recorded count is that count. |
| `Notifications.PulseTraceAt` | src/components/NotificationsDropdown.jsx:86-95 | Step i pulses iff its count is strictly greater than the count recorded before it, so equal or decreasing counts never pulse. |
| `Notifications.PulseExample` | src/components/NotificationsDropdown.jsx:23-96 | From the initial recorded count 0, the counts 2,2,5,5,3 pulse exactly at 0→2 and 2→5. |
| `Notifications.WithoutAlert` | src/components/NotificationsDropdown.jsx:157 | After removal no alert with that id remains, every survivor was in the list, and the list does not grow. |
| `Notifications.WithoutAlertKeepsOthers` | src/components/NotificationsDropdown.jsx:157 | Every alert with another id survives. An absent id leaves the list unchanged. |
| `Notifications.WithoutAlertPreservesOrder` | src/components/NotificationsDropdown.jsx:157 | Removal distributes over concatenation, so the survivors keep their original order. |
| `Notifications.ChipLabel` | src/components/NotificationsDropdown.jsx:274 | The label is the upper-cased level when the level is non-empty, and exactly `UNKNOWN` when it is missing or empty. It is never empty and is its own upper case. |
| `Notifications.ChipColor` | src/components/NotificationsDropdown.jsx:281-298 | The chip colour is one of the six theme colours of the switch. |
| `Notifications.ChipColorIgnoresCase` | src/components/NotificationsDropdown.jsx:282 | A level, its lower-cased and its upper-cased spellings get the same colour. |
| `Notifications.ChipColorClasses` | src/components/NotificationsDropdown.jsx:283-297 | The colour is `warning.main` iff the level upper-cases to WARN or WARNING. Other levels and a missing level get `primary.main`. |
| `Notifications.CountTextPlural` | src/components/NotificationsDropdown.jsx:181 | The tooltip ends in a plural `s` iff the count is not 1. The same holds for the header "alert(s)" at line 247. |
| `Notifications.NotificationsDropdown.constructor` | src/components/NotificationsDropdown.jsx:20-24 | Initially: no alerts, recorded count 0, no pulse, menu closed. |
| `Notifications.NotificationsDropdown.PulseEffect` | src/components/NotificationsDropdown.jsx:85-96 | The pulse is raised iff the length strictly exceeds the recorded length, and is otherwise left as it was. The recorded length then equals the current length. |
| `Notifications.NotificationsDropdown.PulseTimeout` | src/components/NotificationsDropdown.jsx:91-93 | The reset timer clears the pulse. |
| `Notifications.NotificationsDropdown.LoadAlerts` | src/components/NotificationsDropdown.jsx:27-54 | The list becomes `PolledAlerts(response)`. The pulse is raised iff the new length exceeds the old one, and the recorded length is updated. |
| `Notifications.NotificationsDropdown.HandleMenuOpen` | src/components/NotificationsDropdown.jsx:143-146 | Opening the menu marks it open and polls, as `LoadAlerts` does. |
| `Notifications.NotificationsDropdown.HandleMenuClose` | src/components/NotificationsDropdown.jsx:148-150 | Closing marks the menu closed. |
| `Notifications.NotificationsDropdown.HandleMarkAsRead` | src/components/NotificationsDropdown.jsx:152-168 | On success the id is removed and a delayed reload is requested. On failure the list is unchanged and a reload is requested at once. It never raises the pulse. |
| `AlertsPage.Filtered` | src/components/Alerts.jsx:121-131 | `unread` selects exactly the unread alerts. `error` and `warning` select exactly level `ERROR` and `WARN`, case-sensitively. Every other selection, `all` included, is the full list. |
| `AlertsPage.FilteredPreservesOrder` | src/components/Alerts.jsx:123-128 | Every filter distributes over concatenation, so original order is kept. |
| `AlertsPage.GetStats` | src/components/Alerts.jsx:178-185 | `total` is the length. `unread`, `errors` and `warnings` are the lengths of the matching filtered lists. Unread plus read equals total, and errors plus warnings is at most total. |
| `AlertsPage.MockStats` | src/components/Alerts.jsx:40-91 | On the sample list the counters are total 5, unread 3, errors 2, warnings 2. |
| `AlertsPage.MarkRead` | src/components/Alerts.jsx:136-138 | Same length. Each alert with the id becomes read with its other fields unchanged, and every other alert is unchanged at its position. |
| `AlertsPage.MarkReadClearsId` | src/components/Alerts.jsx:136-138 | After marking, the unread filter shows no alert with that id. |
| `AlertsPage.MarkReadIdempotent` | src/components/Alerts.jsx:136-138 | Marking an id twice equals marking it once. |
| `AlertsPage.MarkReadStats` | src/components/Alerts.jsx:136-138 | Marking keeps total, errors and warnings, and never increases unread. |
| `AlertsPage.LoadedAlerts` | src/components/Alerts.jsx:100-112 | A non-empty resolved history is used as is. An empty, null or rejected result yields the sample list, so the list is never empty. |
| `AlertsPage.AlertColor` | src/components/Alerts.jsx:157-168 | The colour is one of error, warning, info, default. |
| `AlertsPage.AlertColorMatchesFilters` | src/components/Alerts.jsx:157-168 | ERROR→error exactly for the alerts the error filter shows, and WARN→warning exactly for those the warning filter shows. INFO→info. |
| `AlertsPage.Alerts.constructor` | src/components/Alerts.jsx:95-98 | Initially: no alerts, filter `all`, loading. |
| `AlertsPage.Alerts.ApplyFilter` | src/components/Alerts.jsx:121-131 | The filter effect keeps the shown list equal to `Filtered(alerts, filter)`. |
| `AlertsPage.Alerts.SetFilter` | src/components/Alerts.jsx:232 | A filter button sets the selection and the shown list follows. |
| `AlertsPage.Alerts.BeginLoad` | src/components/Alerts.jsx:102 | A load raises `loading`. |
| `AlertsPage.Alerts.CompleteLoad` | src/components/Alerts.jsx:100-112 | The list becomes `LoadedAlerts(response)` and `loading` is false in every case. |
| `AlertsPage.Alerts.HandleMarkAsRead` | src/components/Alerts.jsx:133-142 | On success the list becomes `MarkRead(list, id)`. On failure nothing changes. |
| `DashboardPage.Normalize` | src/components/Dashboard.jsx:101-106 | A success stores the count (0 when the body or count is missing) and the service and level lists (empty when null), and clears `loading`. |
| `DashboardPage.AfterFetch` | src/components/Dashboard.jsx:91-111 | On failure the counters are kept and only `loading` is cleared. On success the record is normalised. |
| `DashboardPage.GatewayOutageZeroesCounters` | src/api/index.js:48-84 | The wrappers resolve a gateway error to `{count: 0}`, `[]` and `[]`, so the fetch takes the success path and the record becomes total 0 with empty lists, whatever it held before. |
| `DashboardPage.AveragePerHour` | src/components/Dashboard.jsx:126 | The result r satisfies -12 < 24·r − total ≤ 12: total/24 rounded to nearest, halves up. |
| `DashboardPage.AveragePerHourUnique` | src/components/Dashboard.jsx:126 | That rounding condition has a single solution, the computed average. |
| `DashboardPage.KPIValue` | src/components/Dashboard.jsx:117-130 | `total` gives the stored total. `services`/`levels` give the list lengths. `avgPerHour` gives the rounded hourly average. Any other key gives 0. |
| `DashboardPage.KPIAfterFetch` | src/components/Dashboard.jsx:101-110 | After a failed fetch every KPI is unchanged. A total of 48 gives an average of 2, and a missing total gives 0 for both. |
| `DashboardPage.LevelColorAsWritten` | src/components/Dashboard.jsx:143-145 | Indexing the palette object returns the palette colour for its own keys and an inherited member for `constructor`/`__proto__`. |
| `DashboardPage.LevelColorAsWrittenLeaksPrototype` | src/components/Dashboard.jsx:144 | The level `Constructor` yields an inherited member, not a colour. |
| `DashboardPage.LevelColor` | src/components/Dashboard.jsx:143-145 | The intended lookup always returns a palette colour: the colour of the lower-cased level if it is a key, the default otherwise. |
| `DashboardPage.LevelColorClasses` | src/components/Dashboard.jsx:45-52 | The colour ignores case. `warn` and `warning` share `#ed8936`. Unknown, missing and inherited-name levels get the default `#a0aec0`. |
| `DashboardPage.LevelIcon` | src/components/Dashboard.jsx:132-141 | Warning icon iff the level lower-cases to warn or warning. Error and debug icons exactly for error and debug. Everything else, missing included, gets the info icon. |
| `DashboardPage.IconMatchesColor` | src/components/Dashboard.jsx:132-145 | The warning icon goes with the warning colour, and the error icon occurs exactly with the error colour. |
| `DashboardPage.Dashboard.constructor` | src/components/Dashboard.jsx:84-89 | Initially: total 0, empty lists, loading. |
| `DashboardPage.Dashboard.BeginFetch` | src/components/Dashboard.jsx:92 | A fetch raises only `loading`. |
| `DashboardPage.Dashboard.CompleteFetch` | src/components/Dashboard.jsx:101-110 | The record becomes `AfterFetch(old, outcome)`: on failure the counters stay, and `loading` is false either way. |

## Left out

- Rendering, styling and charts: all JSX, MUI styling and recharts drawing, including `getAlertIcon`, `formatTimestamp`, the "System" fallback for a missing service and the timestamp texts. `Settings.jsx`, `Sidebar.jsx` and `App.jsx` hold no logic beyond prop wiring.
- Gateway calls: each is a `Response` parameter. `fetchAlerts`, `fetchUnreadAlerts` and `markAlertAsRead` are imported from `src/api/index.js` but not defined there, so their bodies are not part of this model.
- Autocomplete options: fetching the service and level suggestions (`src/components/LogFilter.jsx:27-30`) only feeds suggestions and is left out.
- Timers: the 10 s and 30 s polls are calls of the load methods. The 500 ms follow-up is the `ReloadAfterDelay` value. The 600 ms reset is `PulseTimeout`, and the model does not track which pending reset fires.
- Interleaving: overlapping requests are modelled only as completions applied in order.
- Teardown: unmounting is not modelled. The source clears its polling intervals on unmount, but in-flight requests and the 500 ms and 600 ms timeouts are not cancelled, and the model does not capture what they do after unmount.
- Effect scheduling: React runs an effect only when its dependencies change. In the model the caller runs `IssueFetch` and `HandleRefresh` after each change.
- Date handling: the ISO conversion is the uninterpreted `IsoTime` parameter, and locale formatting is left out.
- `LogQuery.LogTable.IssueFetch`: picked instants are assumed to be valid dates, so the ISO conversion always succeeds. An invalid date from a picker is truthy, and its ISO conversion throws inside the effect after `loading` is raised. No request is then issued and `loading` stays true. The model does not capture that path.
- `DashboardPage.AfterFetch`: the `Failure` branch (last known counters kept) is reached only by an exception that escapes the gateway wrappers. Those wrappers (`src/api/index.js:48-84`) catch every gateway error and resolve to `{count: 0}`, `[]` and `[]`. So an ordinary gateway outage goes through the success branch and zeroes the counters (`GatewayOutageZeroesCounters`).
- `LogQuery.AfterFetch`: a resolved page without `content` (which would set `logs` to `undefined`) is not modelled. Pages always carry a list.
- `Notifications.ChipLabel`, `Notifications.ChipColor`, `DashboardPage.LevelColor`, `DashboardPage.LevelIcon`: case mapping covers ASCII letters only. Unicode case mapping, which can change length, is not modelled.
- `DashboardPage.AveragePerHour`: integers are unbounded. Floating-point division of totals beyond 2^53 and a non-integer `count` are not modelled.
- `DashboardPage.Normalize`: a `count` of any falsy non-number value is modelled as missing.
- The alert-level preference filter and the debug and simulation blocks of `NotificationsDropdown.jsx` are commented out and not live behaviour. The unused `alertLevel` prop is left out.

## Findings

| source | as written | input that shows it | evidently intended | confidence | as-written member | corrected member |
|---|---|---|---|---|---|---|
| src/components/Dashboard.jsx:143-145 | `getLevelColor` indexes a plain object with the lower-cased level, so the inherited names `constructor` and `__proto__` are found. It returns the `Object` function or the prototype object, which is truthy, so the default is skipped. | level `"Constructor"` (or `"__proto__"`) | every level that is not a palette key gets the default colour `#a0aec0` | high, not executed | `DashboardPage.LevelColorAsWrittenLeaksPrototype` | `DashboardPage.LevelColorClasses` |
