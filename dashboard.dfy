/** The dashboard: aggregate counters fetched from the gateway, the KPI cards derived
    from them, and the level-to-colour and level-to-icon classification of the charts. */
module DashboardPage {
  import opened Wrappers
  import opened Text

  /** One bar of a per-service or per-level chart. Only the number of entries is used here. */
  datatype GroupCount = GroupCount(name: string, count: int)

  /** The body of the total-count response, whose `count` may be missing. */
  datatype CountBody = CountBody(count: Option<int>)

  /** The three responses awaited together; any of them may resolve to `null`. */
  datatype DashboardResponses = DashboardResponses(
    totalRes: Option<CountBody>,
    servicesRes: Option<seq<GroupCount>>,
    levelsRes: Option<seq<GroupCount>>)

  /** The `data` record of the view. */
  datatype DashboardData = DashboardData(total: int, services: seq<GroupCount>, levels: seq<GroupCount>, loading: bool)

  const InitialData := DashboardData(0, [], [], true)

  /** The record installed when the three calls resolve: missing parts become 0 or empty. */
  function Normalize(responses: DashboardResponses): (r: DashboardData)
    ensures !r.loading
    ensures r.total == (match responses.totalRes
                        case Some(CountBody(Some(c))) => c
                        case _ => 0)
    ensures r.services == (match responses.servicesRes case Some(s) => s case None => [])
    ensures r.levels == (match responses.levelsRes case Some(s) => s case None => [])
  {
    DashboardData(
      match responses.totalRes
      case Some(CountBody(Some(c))) => c
      case _ => 0,
      match responses.servicesRes case Some(s) => s case None => [],
      match responses.levelsRes case Some(s) => s case None => [],
      false)
  }

  /** The record after the fetch settles: normalised on success; on failure only `loading`
      is cleared and the last known counters stay. */
  function AfterFetch(previous: DashboardData, outcome: Response<DashboardResponses>): (r: DashboardData)
    ensures !r.loading
    ensures outcome.Failure? ==> r == previous.(loading := false)
    ensures outcome.Success? ==> r == Normalize(outcome.value)
  {
    match outcome
    case Success(responses) => Normalize(responses)
    case Failure => previous.(loading := false)
  }

  /** The gateway wrappers catch their own errors and resolve to `{count: 0}`, `[]` and `[]`,
      so a gateway outage takes the success path and zeroes the counters rather than keeping them. */
  lemma GatewayOutageZeroesCounters(previous: DashboardData)
    ensures AfterFetch(previous, Success(DashboardResponses(Some(CountBody(Some(0))), Some([]), Some([]))))
      == DashboardData(0, [], [], false)
  {
  }

  /** `Math.round(total / 24)`: the nearest integer, halves rounded up. */
  function AveragePerHour(total: int): (r: int)
    ensures -12 < 24 * r - total <= 12
  {
    (total + 12) / 24
  }

  /** Rounding to nearest with halves up has exactly one answer, so the formula is the
      rounding and not merely close to it. */
  lemma AveragePerHourUnique(total: int, r: int)
    requires -12 < 24 * r - total <= 12
    ensures r == AveragePerHour(total)
  {
  }

  /** The value of a KPI card, selected by its data key; unknown keys show 0. */
  function KPIValue(data: DashboardData, key: string): (r: int)
    ensures key == "total" ==> r == data.total
    ensures key == "services" ==> r == |data.services|
    ensures key == "levels" ==> r == |data.levels|
    ensures key == "avgPerHour" ==> -12 < 24 * r - data.total <= 12
    ensures key !in {"total", "services", "levels", "avgPerHour"} ==> r == 0
  {
    if key == "total" then data.total
    else if key == "services" then |data.services|
    else if key == "levels" then |data.levels|
    else if key == "avgPerHour" then AveragePerHour(data.total)
    else 0
  }

  /** After a successful fetch the cards show the reported total (0 when missing), the
      number of service and level groups, and the rounded hourly average; a failed fetch
      leaves every card showing what it showed before. */
  lemma KPIAfterFetch(previous: DashboardData, outcome: Response<DashboardResponses>, key: string)
    ensures outcome.Failure? ==> KPIValue(AfterFetch(previous, outcome), key) == KPIValue(previous, key)
    ensures outcome.Success? && outcome.value.totalRes == Some(CountBody(Some(48))) ==>
      KPIValue(AfterFetch(previous, outcome), "avgPerHour") == 2
    ensures outcome.Success? && outcome.value.totalRes.None? ==>
      KPIValue(AfterFetch(previous, outcome), "total") == 0 && KPIValue(AfterFetch(previous, outcome), "avgPerHour") == 0
  {
  }

  /** The level colours of the charts, keyed by lower-case level. */
  const LevelPalette: map<string, string> := map[
    "error" := "#f56565",
    "warn" := "#ed8936",
    "warning" := "#ed8936",
    "info" := "#4299e1",
    "debug" := "#48bb78",
    "default" := "#a0aec0"]

  const DefaultLevelColor := "#a0aec0"

  /** The property name used to index the palette: the lower-cased level, or the text
      "undefined" that a missing level is converted to. */
  function PaletteKey(level: Option<string>): (key: string) {
    match level
    case Some(l) => Lower(l)
    case None => "undefined"
  }

  /** The names every plain object inherits that are already lower case, so that a
      lower-cased level can reach them. */
  const InheritedLowerCaseNames: set<string> := {"constructor", "__proto__"}

  /** What indexing the palette object yields: one of its own colours, or an inherited
      member (a function or the prototype object), which is truthy but not a colour. */
  datatype LookupResult = Color(hex: string) | InheritedMember(name: string)

  /** The colour lookup as the source performs it on a plain object. */
  function LevelColorAsWritten(level: Option<string>): (r: LookupResult)
    ensures PaletteKey(level) in LevelPalette ==> r == Color(LevelPalette[PaletteKey(level)])
    ensures PaletteKey(level) in InheritedLowerCaseNames ==> r.InheritedMember?
  {
    var key := PaletteKey(level);
    if key in LevelPalette then Color(LevelPalette[key])
    else if key in InheritedLowerCaseNames then InheritedMember(key)
    else Color(DefaultLevelColor)
  }

  /** A level spelt "Constructor" reaches the inherited constructor instead of a colour. */
  lemma LevelColorAsWrittenLeaksPrototype()
    ensures LevelColorAsWritten(Some("Constructor")).InheritedMember?
  {
    assert Lower("Constructor") == "constructor";
  }

  /** The colour lookup as intended: only the palette's own keys are consulted. */
  function LevelColor(level: Option<string>): (r: string)
    ensures r in LevelPalette.Values
    ensures PaletteKey(level) in LevelPalette ==> r == LevelPalette[PaletteKey(level)]
    ensures PaletteKey(level) !in LevelPalette ==> r == DefaultLevelColor
  {
    var key := PaletteKey(level);
    assert LevelPalette["default"] == DefaultLevelColor;
    if key in LevelPalette then LevelPalette[key] else DefaultLevelColor
  }

  /** The intended lookup ignores case, gives WARN and WARNING one colour, and gives every
      unknown or missing level the default colour, including the inherited names. */
  lemma LevelColorClasses(level: string)
    ensures LevelColor(Some(level)) == LevelColor(Some(Upper(level)))
    ensures Lower(level) in {"warn", "warning"} ==> LevelColor(Some(level)) == "#ed8936"
    ensures Lower(level) !in LevelPalette ==> LevelColor(Some(level)) == DefaultLevelColor
    ensures LevelColor(None) == DefaultLevelColor
    ensures LevelColor(Some("Constructor")) == DefaultLevelColor
  {
    LowerOfUpper(level);
    assert Lower("Constructor") == "constructor";
  }

  /** The chart icons. */
  datatype LevelIconKind = ErrorIcon | WarningIcon | InfoIcon | DebugIcon

  /** The icon for a level, chosen on its lower-cased spelling; missing or unknown levels get the info icon. */
  function LevelIcon(level: Option<string>): (r: LevelIconKind)
    ensures r == WarningIcon <==> level.Some? && Lower(level.value) in {"warn", "warning"}
    ensures r == ErrorIcon <==> level.Some? && Lower(level.value) == "error"
    ensures r == DebugIcon <==> level.Some? && Lower(level.value) == "debug"
  {
    match level
    case None => InfoIcon
    case Some(l) =>
      var k := Lower(l);
      if k == "error" then ErrorIcon
      else if k == "warn" || k == "warning" then WarningIcon
      else if k == "info" then InfoIcon
      else if k == "debug" then DebugIcon
      else InfoIcon
  }

  /** Icon and colour classify levels alike: the warning icon goes with the warning colour
      and the error icon with the error colour. */
  lemma IconMatchesColor(level: Option<string>)
    ensures LevelIcon(level) == WarningIcon ==> LevelColor(level) == "#ed8936"
    ensures LevelIcon(level) == ErrorIcon <==> LevelColor(level) == "#f56565"
  {
  }

  /** The dashboard view's state: its single `data` record. */
  class Dashboard {
    var data: DashboardData

    constructor()
      ensures data == InitialData
    {
      data := InitialData;
    }

    /** A fetch starts (on mount and on refresh): only `loading` is raised. */
    method BeginFetch()
      modifies this
      ensures data == old(data).(loading := true)
    {
      data := data.(loading := true);
    }

    /** The three calls settle together. */
    method CompleteFetch(outcome: Response<DashboardResponses>)
      modifies this
      ensures data == AfterFetch(old(data), outcome)
      ensures outcome.Failure? ==> data.total == old(data.total) && data.services == old(data.services) && data.levels == old(data.levels)
      ensures !data.loading
    {
      match outcome {
        case Success(responses) => data := Normalize(responses);
        case Failure => data := data.(loading := false);
      }
    }
  }
}
