/** The notification bell: the unread-alert list it polls, the badge pulse raised when
    that list grows, mark-as-read, and the chip and count texts it renders. */
module Notifications {
  import opened Wrappers
  import opened Domain
  import opened Seqs
  import opened Text

  /** The two alerts shown when the unread-alerts poll is rejected. */
  const FallbackAlerts: seq<Alert> := [
    Alert(1, Some("ERROR"), "Database connection timeout", "2024-01-15T14:30:22Z",
          Some("auth-service"), false, None, None),
    Alert(2, Some("WARN"), "High memory usage detected", "2024-01-15T14:25:15Z",
          Some("payment-service"), false, None, None)
  ]

  /** The list a poll installs. A resolved `null` becomes the empty list; a rejection
      installs the fallback instead of keeping the previous list. */
  function PolledAlerts(response: Response<Option<seq<Alert>>>): (r: seq<Alert>)
    ensures response.Success? && response.value.Some? ==> r == response.value.value
    ensures response.Success? && response.value.None? ==> r == []
    ensures response.Failure? ==> |r| == 2 && r[0].id == 1 && r[1].id == 2
    ensures response.Failure? ==> forall a :: a in r ==> !a.read
  {
    match response
    case Success(data) => (match data case Some(list) => list case None => [])
    case Failure => FallbackAlerts
  }

  /** Whether the pulse effect raises the pulse: only on a strict increase of the list length
      over the recorded length (the recorded length is never negative, so the source's
      second guard always holds). */
  predicate Raises(recorded: nat, count: nat) {
    count > recorded
  }

  /** For counts observed one after another, starting from a recorded length, whether each
      observation raised the pulse. After each step the recorded length is that count. */
  function PulseTrace(recorded: nat, counts: seq<nat>): (r: seq<bool>)
    ensures |r| == |counts|
    decreases |counts|
  {
    if counts == [] then [] else [Raises(recorded, counts[0])] + PulseTrace(counts[0], counts[1..])
  }

  /** Step i pulses exactly when its count strictly exceeds the count before it. */
  lemma {:induction false} PulseTraceAt(recorded: nat, counts: seq<nat>, i: nat)
    requires i < |counts|
    ensures PulseTrace(recorded, counts)[i] <==> counts[i] > (if i == 0 then recorded else counts[i - 1])
    decreases i
  {
    if i > 0 {
      PulseTraceAt(counts[0], counts[1..], i - 1);
    }
  }

  /** From the initial recorded length 0, the counts 2, 2, 5, 5, 3 pulse at the first load
      and at the step from 2 to 5, and nowhere else. */
  lemma PulseExample()
    ensures PulseTrace(0, [2, 2, 5, 5, 3]) == [true, false, true, false, false]
  {
  }

  /** The list after removing every alert with the given id, others kept in order. */
  function WithoutAlert(alerts: seq<Alert>, alertId: int): (r: seq<Alert>)
    ensures forall a :: a in r ==> a in alerts && a.id != alertId
    ensures |r| <= |alerts|
  {
    Keep(alerts, (a: Alert) => a.id != alertId)
  }

  /** Removal keeps every other alert, and an id that is not present changes nothing. */
  lemma WithoutAlertKeepsOthers(alerts: seq<Alert>, alertId: int)
    ensures forall a :: a in alerts && a.id != alertId ==> a in WithoutAlert(alerts, alertId)
    ensures (forall a :: a in alerts ==> a.id != alertId) ==> WithoutAlert(alerts, alertId) == alerts
  {
    forall a | a in alerts && a.id != alertId
      ensures a in WithoutAlert(alerts, alertId)
    {
      KeepComplete(alerts, (x: Alert) => x.id != alertId, a);
    }
    if forall a :: a in alerts ==> a.id != alertId {
      KeepAll(alerts, (x: Alert) => x.id != alertId);
    }
  }

  /** Removal works piecewise over the list, so the survivors keep their relative order. */
  lemma WithoutAlertPreservesOrder(front: seq<Alert>, back: seq<Alert>, alertId: int)
    ensures WithoutAlert(front + back, alertId) == WithoutAlert(front, alertId) + WithoutAlert(back, alertId)
  {
    KeepAppend(front, back, (a: Alert) => a.id != alertId);
  }

  /** What mark-as-read asks for after the server call settles. */
  datatype Followup = ReloadAfterDelay | ReloadNow

  /** The chip label: the upper-cased level, or UNKNOWN when it is missing or empty. */
  function ChipLabel(level: Option<string>): (r: string)
    ensures r != []
    ensures Upper(r) == r
    ensures level.Some? && level.value != "" ==> r == Upper(level.value)
    ensures level.None? || level.value == "" ==> r == "UNKNOWN"
  {
    match level
    case Some(l) => if l == "" then "UNKNOWN" else (UpperIdempotent(l); Upper(l))
    case None => "UNKNOWN"
  }

  /** The chip background, chosen on the upper-cased level (missing counts as empty). */
  function ChipColor(level: Option<string>): (r: string)
    ensures r in {"error.main", "warning.main", "info.main", "grey.600", "grey.500", "primary.main"}
  {
    var l := Upper(match level case Some(s) => s case None => "");
    if l == "ERROR" then "error.main"
    else if l == "WARN" || l == "WARNING" then "warning.main"
    else if l == "INFO" then "info.main"
    else if l == "DEBUG" then "grey.600"
    else if l == "TRACE" then "grey.500"
    else "primary.main"
  }

  /** The colour ignores case: a level and its lower-cased spelling get the same chip. */
  lemma ChipColorIgnoresCase(level: string)
    ensures ChipColor(Some(level)) == ChipColor(Some(Lower(level)))
    ensures ChipColor(Some(level)) == ChipColor(Some(Upper(level)))
  {
    UpperOfLower(level);
    UpperIdempotent(level);
  }

  /** WARN and WARNING share a colour in any case; anything not one of the five levels gets the default. */
  lemma ChipColorClasses(level: string)
    ensures ChipColor(Some(level)) == "warning.main" <==> Upper(level) in {"WARN", "WARNING"}
    ensures Upper(level) !in {"ERROR", "WARN", "WARNING", "INFO", "DEBUG", "TRACE"} ==> ChipColor(Some(level)) == "primary.main"
    ensures ChipColor(None) == "primary.main"
  {
  }

  /** The badge tooltip: "<n> unread notification", with an "s" unless n is 1. */
  function TooltipText(count: nat): (text: string) {
    Decimal(count) + " unread notification" + (if count != 1 then "s" else "")
  }

  /** The menu header: "<n> unread alert", with an "s" unless n is 1, then " (all levels)". */
  function HeaderText(count: nat): (text: string) {
    Decimal(count) + " unread alert" + (if count != 1 then "s" else "") + " (all levels)"
  }

  /** Both texts are singular exactly when the count is 1. */
  lemma CountTextPlural(count: nat)
    ensures TooltipText(count)[|TooltipText(count)| - 1] == 's' <==> count != 1
    ensures HeaderText(count)[|HeaderText(count)| - 14] == 's' <==> count != 1
  {
  }

  /** The dropdown's state: its `useState` hooks, with the anchor reduced to "open". */
  class NotificationsDropdown {
    var alerts: seq<Alert>
    var previousTotalCount: nat
    var shouldPulse: bool
    var menuOpen: bool

    /** Between events the pulse effect has run, so the recorded length is current. */
    ghost predicate Settled()
      reads this
    {
      previousTotalCount == |alerts|
    }

    constructor()
      ensures Settled()
      ensures alerts == [] && previousTotalCount == 0 && !shouldPulse && !menuOpen
    {
      alerts := [];
      previousTotalCount := 0;
      shouldPulse := false;
      menuOpen := false;
    }

    /** The effect on the list length: raise the pulse on a strict increase, then record the length. */
    method PulseEffect()
      modifies this`previousTotalCount, this`shouldPulse
      ensures Settled()
      ensures shouldPulse == (old(shouldPulse) || Raises(old(previousTotalCount), |alerts|))
    {
      var currentTotalCount := |alerts|;
      if currentTotalCount > previousTotalCount && previousTotalCount >= 0 {
        shouldPulse := true;
      }
      previousTotalCount := currentTotalCount;
    }

    /** The 600 ms timer after a pulse fires. */
    method PulseTimeout()
      modifies this`shouldPulse
      ensures !shouldPulse
    {
      shouldPulse := false;
    }

    /** A poll settles (on mount, every 10 s tick, on opening the menu, or as a follow-up):
        the list is replaced and the pulse effect runs. */
    method LoadAlerts(response: Response<Option<seq<Alert>>>)
      requires Settled()
      modifies this`alerts, this`previousTotalCount, this`shouldPulse
      ensures Settled()
      ensures alerts == PolledAlerts(response)
      ensures shouldPulse == (old(shouldPulse) || Raises(old(|alerts|), |alerts|))
    {
      alerts := PolledAlerts(response);
      PulseEffect();
    }

    /** Clicking the bell opens the menu and polls. */
    method HandleMenuOpen(response: Response<Option<seq<Alert>>>)
      requires Settled()
      modifies this
      ensures Settled() && menuOpen
      ensures alerts == PolledAlerts(response)
      ensures shouldPulse == (old(shouldPulse) || Raises(old(|alerts|), |alerts|))
    {
      menuOpen := true;
      LoadAlerts(response);
    }

    method HandleMenuClose()
      modifies this`menuOpen
      ensures !menuOpen
    {
      menuOpen := false;
    }

    /** Mark-as-read after the server call settles. On success the alert is removed locally
        and a reload is scheduled; on failure nothing changes locally and a reload is
        requested at once. Either way the pulse is never raised by it. */
    method HandleMarkAsRead(alertId: int, call: Response<()>) returns (followup: Followup)
      requires Settled()
      modifies this`alerts, this`previousTotalCount, this`shouldPulse
      ensures Settled()
      ensures call.Success? ==> alerts == WithoutAlert(old(alerts), alertId) && followup == ReloadAfterDelay
      ensures call.Failure? ==> alerts == old(alerts) && followup == ReloadNow
      ensures shouldPulse == old(shouldPulse)
    {
      match call {
        case Success(_) =>
          alerts := WithoutAlert(alerts, alertId);
          PulseEffect();
          followup := ReloadAfterDelay;
        case Failure =>
          followup := ReloadNow;
      }
    }
  }
}
