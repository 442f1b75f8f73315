/** The error monitor: three newest-first logs (errors, warnings,
    performance measurements) each capped at 50 entries by one `unshift`
    and at most one `pop`, a floating indicator that summarises them, a
    snapshot of the ten newest entries of each log kept in local storage,
    and a periodic health check that files a warning naming the browser
    features it found missing. */
module ErrorMonitor {
  import opened Strings

  const MaxErrors: nat := 50
  const SnapshotSize: nat := 10
  const StorageKey := "larq-error-monitor"
  const HealthCheckType := "Health Check Failed"

  /** A logged error or warning. */
  datatype Entry = Entry(kind: string, message: string)

  /** A performance measurement with its verdict (`good`, `poor`, ...). */
  datatype Metric = Metric(name: string, value: real, status: string)

  // ---------------------------------------------------------------------
  // Newest-first capped logs

  /** `list.unshift(x)` followed by one `pop()` when the list then exceeds the cap. */
  function PushCapped<T>(list: seq<T>, x: T, cap: nat): (r: seq<T>)
    ensures |r| == (if |list| + 1 > cap then |list| else |list| + 1)
    ensures |r| > 0 ==> r[0] == x
    ensures |r| > 0 ==> r[1..] == list[..|r| - 1]
  {
    var pushed := [x] + list;
    if |pushed| > cap then pushed[..|pushed| - 1] else pushed
  }

  /** A log that was within its cap stays within it. */
  lemma PushCappedBounded<T>(list: seq<T>, x: T, cap: nat)
    requires cap >= 1 && |list| <= cap
    ensures |PushCapped(list, x, cap)| <= cap
    ensures PushCapped(list, x, cap)[0] == x
  {
  }

  function Reverse<T>(s: seq<T>): (r: seq<T>)
    ensures |r| == |s|
    ensures forall i :: 0 <= i < |s| ==> r[i] == s[|s| - 1 - i]
  {
    if s == [] then [] else Reverse(s[1..]) + [s[0]]
  }

  /** The log after the events of `history` (oldest first) were pushed onto an empty log. */
  function LogOf<T>(history: seq<T>, cap: nat): (r: seq<T>)
  {
    if history == [] then [] else PushCapped(LogOf(history[..|history| - 1], cap), history[|history| - 1], cap)
  }

  /** A capped log always holds exactly the `cap` most recent events, newest first. */
  lemma {:induction false} LogOfKeepsNewest<T>(history: seq<T>, cap: nat)
    requires cap >= 1
    ensures LogOf(history, cap) == Reverse(history)[..Min(cap, |history|)]
    decreases |history|
  {
    if history != [] {
      var prefix := history[..|history| - 1];
      var last := history[|history| - 1];
      LogOfKeepsNewest(prefix, cap);
      var r := LogOf(history, cap);
      var expected := Reverse(history)[..Min(cap, |history|)];
      assert |r| == |expected|;
      forall i | 0 <= i < |r| ensures r[i] == expected[i] {
        if i > 0 {
          assert r[i] == r[1..][i - 1];
          assert r[1..][i - 1] == LogOf(prefix, cap)[i - 1];
        }
      }
    }
  }

  /** `slice(0, 10)`: the entries a snapshot keeps. */
  function Snapshot<T>(list: seq<T>): (r: seq<T>)
    ensures |r| == Min(SnapshotSize, |list|)
    ensures r <= list
  {
    if |list| <= SnapshotSize then list else list[..SnapshotSize]
  }

  // ---------------------------------------------------------------------
  // The indicator

  datatype Indicator = AllClear | ErrorsShown(errors: nat) | WarningsShown(warnings: nat)

  /** `updateErrorCount`'s choice of badge. */
  function IndicatorFor(errorCount: nat, warningCount: nat): (i: Indicator)
    ensures i == AllClear <==> errorCount == 0 && warningCount == 0
    ensures i.ErrorsShown? <==> errorCount > 0
    ensures i.ErrorsShown? ==> i.errors == errorCount
    ensures i.WarningsShown? ==> errorCount == 0 && i.warnings == warningCount && warningCount > 0
  {
    if errorCount + warningCount == 0 then AllClear
    else if errorCount > 0 then ErrorsShown(errorCount)
    else WarningsShown(warningCount)
  }

  // ---------------------------------------------------------------------
  // The export summary

  /** `performance.filter(p => p.status === 'poor').length` */
  function CountPoor(performance: seq<Metric>): (n: nat)
    ensures n <= |performance|
    ensures n == |performance| <==> forall i :: 0 <= i < |performance| ==> performance[i].status == "poor"
    ensures n == 0 <==> forall i :: 0 <= i < |performance| ==> performance[i].status != "poor"
  {
    if performance == [] then 0
    else (if performance[0].status == "poor" then 1 else 0) + CountPoor(performance[1..])
  }

  datatype Summary = Summary(totalErrors: nat, totalWarnings: nat, totalPerformanceIssues: nat)

  function SummaryOf(errors: seq<Entry>, warnings: seq<Entry>, performance: seq<Metric>): (s: Summary)
    ensures s.totalErrors == |errors| && s.totalWarnings == |warnings|
    ensures s.totalPerformanceIssues <= |performance|
  {
    Summary(|errors|, |warnings|, CountPoor(performance))
  }

  /** Logging a measurement raises the count of poor ones by one exactly when it is poor
      and the log was not full (a full log may also drop a poor entry at its end). */
  lemma {:induction false} CountPoorPush(performance: seq<Metric>, m: Metric)
    requires |performance| < MaxErrors
    ensures CountPoor(PushCapped(performance, m, MaxErrors)) == CountPoor(performance) + (if m.status == "poor" then 1 else 0)
  {
    var r := PushCapped(performance, m, MaxErrors);
    assert r == [m] + performance;
    assert r[1..] == performance;
  }

  // ---------------------------------------------------------------------
  // Persistence

  /** What local storage holds under the monitor's key: nothing, something that does not
      parse, or an object whose lists may each be missing. */
  datatype Slot =
    | Empty
    | Corrupt
    | Holds(errors: Option<seq<Entry>>, warnings: Option<seq<Entry>>, performance: Option<seq<Metric>>)

  function SlotFor(errors: seq<Entry>, warnings: seq<Entry>, performance: seq<Metric>): (s: Slot)
    ensures s.Holds? && s.errors.Some? && s.warnings.Some? && s.performance.Some?
    ensures |s.errors.value| <= SnapshotSize && |s.warnings.value| <= SnapshotSize
    ensures |s.performance.value| <= SnapshotSize
  {
    Holds(Some(Snapshot(errors)), Some(Snapshot(warnings)), Some(Snapshot(performance)))
  }

  function OrEmpty<T>(o: Option<seq<T>>): (r: seq<T>)
    ensures o.None? ==> r == []
    ensures o.Some? ==> r == o.value
  {
    if o.Some? then o.value else []
  }

  /** Reloading what was saved gives back the ten newest entries of each log. */
  lemma SaveLoadRoundTrip(errors: seq<Entry>, warnings: seq<Entry>, performance: seq<Metric>)
    ensures var s := SlotFor(errors, warnings, performance);
      OrEmpty(s.errors) == Snapshot(errors) && OrEmpty(s.warnings) == Snapshot(warnings) &&
      OrEmpty(s.performance) == Snapshot(performance)
    ensures |errors| <= SnapshotSize ==> OrEmpty(SlotFor(errors, warnings, performance).errors) == errors
  {
  }

  // ---------------------------------------------------------------------
  // Health check

  datatype Check = Check(key: string, passed: bool)

  /** The five checks in the order the source lists them. */
  function Checks(serviceWorker: bool, localStorage: bool, performance: bool, fetch: bool,
                  intersectionObserver: bool): (c: seq<Check>)
    ensures |c| == 5
  {
    [Check("serviceWorker", serviceWorker), Check("localStorage", localStorage),
     Check("performance", performance), Check("fetch", fetch),
     Check("intersectionObserver", intersectionObserver)]
  }

  /** The keys of the failed checks, in order. */
  function FailedKeys(checks: seq<Check>): (keys: seq<string>)
    ensures |keys| <= |checks|
    ensures keys == [] <==> forall i :: 0 <= i < |checks| ==> checks[i].passed
    ensures forall k :: k in keys ==> exists i :: 0 <= i < |checks| && checks[i].key == k && !checks[i].passed
  {
    if checks == [] then []
    else (if checks[0].passed then [] else [checks[0].key]) + FailedKeys(checks[1..])
  }

  /** The warning a health check files, if any. */
  function HealthWarning(checks: seq<Check>): (w: Option<Entry>)
    ensures w.Some? <==> exists i :: 0 <= i < |checks| && !checks[i].passed
    ensures w.Some? ==>
      w.value.kind == HealthCheckType && w.value.message == "Failed checks: " + Join(FailedKeys(checks), ", ")
  {
    var failed := FailedKeys(checks);
    if failed == [] then None else Some(Entry(HealthCheckType, "Failed checks: " + Join(failed, ", ")))
  }

  /** With every feature present no warning is filed; with only one missing the
      warning names just that one. */
  lemma HealthWarningExamples()
    ensures HealthWarning(Checks(true, true, true, true, true)).None?
    ensures HealthWarning(Checks(true, false, true, true, true)) == Some(Entry(HealthCheckType, "Failed checks: localStorage"))
  {
    var c := Checks(true, false, true, true, true);
    assert FailedKeys(c[4..]) == [];
    assert FailedKeys(c[3..]) == [] by { assert c[3..][1..] == c[4..]; }
    assert FailedKeys(c[2..]) == [] by { assert c[2..][1..] == c[3..]; }
    assert FailedKeys(c[1..]) == ["localStorage"] by { assert c[1..][1..] == c[2..]; }
    assert FailedKeys(c) == ["localStorage"];
    assert Join(["localStorage"], ", ") == "localStorage";
    assert "Failed checks: " + "localStorage" == "Failed checks: localStorage";
  }

  // ---------------------------------------------------------------------
  // The monitor's state and its transitions

  /** Everything the monitor changes: the three logs, the enabled flag, the badge, whether
      the indicator and the panel are displayed, and what local storage holds. */
  datatype MonitorState = MonitorState(
    errors: seq<Entry>, warnings: seq<Entry>, performance: seq<Metric>,
    isEnabled: bool, indicator: Indicator, indicatorVisible: bool, panelVisible: bool,
    stored: Slot)

  /** Every log within its cap and the badge in step with the logs. */
  predicate Capped(s: MonitorState)
  {
    |s.errors| <= MaxErrors && |s.warnings| <= MaxErrors && |s.performance| <= MaxErrors &&
    s.indicator == IndicatorFor(|s.errors|, |s.warnings|)
  }

  /** A stored object whose lists, where present, are within the cap. */
  predicate SlotWithinCap(slot: Slot)
  {
    slot.Holds? ==>
      |OrEmpty(slot.errors)| <= MaxErrors && |OrEmpty(slot.warnings)| <= MaxErrors &&
      |OrEmpty(slot.performance)| <= MaxErrors
  }

  /** `updateErrorCount`: the badge follows the logs. */
  function Recounted(s: MonitorState): (r: MonitorState)
    ensures r.indicator == IndicatorFor(|r.errors|, |r.warnings|)
    ensures r.(indicator := s.indicator) == s
  {
    s.(indicator := IndicatorFor(|s.errors|, |s.warnings|))
  }

  /** `saveToStorage`: the snapshots are written when storage accepts them; a failing
      write is swallowed and the slot keeps what it held. */
  function Saved(s: MonitorState, writable: bool): (r: MonitorState)
    ensures Capped(s) ==> Capped(r)
    ensures writable ==> r.stored == SlotFor(r.errors, r.warnings, r.performance) && SlotWithinCap(r.stored)
    ensures r.(stored := s.stored) == s
  {
    if writable then s.(stored := SlotFor(s.errors, s.warnings, s.performance)) else s
  }

  /** `logError`: while enabled, the error goes first within the cap, the badge is
      refreshed and the logs saved; while disabled nothing changes. */
  function ErrorLogged(s: MonitorState, e: Entry, writable: bool): (r: MonitorState)
    ensures Capped(s) ==> Capped(r)
    ensures s.isEnabled ==> r.errors == PushCapped(s.errors, e, MaxErrors) && r.errors[0] == e
    ensures r.warnings == s.warnings && r.performance == s.performance && r.isEnabled == s.isEnabled
    ensures r.indicatorVisible == s.indicatorVisible && r.panelVisible == s.panelVisible
  {
    if !s.isEnabled then s
    else Saved(Recounted(s.(errors := PushCapped(s.errors, e, MaxErrors))), writable)
  }

  /** `logWarning`: the same for the warnings log. */
  function WarningLogged(s: MonitorState, w: Entry, writable: bool): (r: MonitorState)
    ensures Capped(s) ==> Capped(r)
    ensures s.isEnabled ==> r.warnings == PushCapped(s.warnings, w, MaxErrors) && r.warnings[0] == w
    ensures r.errors == s.errors && r.performance == s.performance && r.isEnabled == s.isEnabled
    ensures r.indicatorVisible == s.indicatorVisible && r.panelVisible == s.panelVisible
  {
    if !s.isEnabled then s
    else Saved(Recounted(s.(warnings := PushCapped(s.warnings, w, MaxErrors))), writable)
  }

  /** `logPerformance`: not gated by the enabled flag, and the badge is left alone. */
  function PerformanceLogged(s: MonitorState, m: Metric, writable: bool): (r: MonitorState)
    ensures Capped(s) ==> Capped(r)
    ensures r.performance == PushCapped(s.performance, m, MaxErrors) && r.performance[0] == m
    ensures r.errors == s.errors && r.warnings == s.warnings && r.isEnabled == s.isEnabled
    ensures r.indicator == s.indicator
    ensures r.indicatorVisible == s.indicatorVisible && r.panelVisible == s.panelVisible
  {
    Saved(s.(performance := PushCapped(s.performance, m, MaxErrors)), writable)
  }

  /** `clearAll`: every log emptied, the badge back to all clear, the empty logs saved. */
  function Cleared(s: MonitorState, writable: bool): (r: MonitorState)
    ensures Capped(r) && r.indicator == AllClear
    ensures r.isEnabled == s.isEnabled
    ensures r.indicatorVisible == s.indicatorVisible && r.panelVisible == s.panelVisible
  {
    Saved(Recounted(s.(errors := [], warnings := [], performance := [])), writable)
  }

  /** `loadFromStorage`: a stored object replaces the logs (a missing list reads as empty)
      and refreshes the badge; an empty or unreadable slot changes nothing. */
  function LoadedFrom(s: MonitorState): (r: MonitorState)
    ensures (Capped(s) || s.stored.Holds?) && SlotWithinCap(s.stored) ==> Capped(r)
    ensures r.stored == s.stored && r.isEnabled == s.isEnabled
    ensures r.indicatorVisible == s.indicatorVisible && r.panelVisible == s.panelVisible
  {
    if s.stored.Holds? then
      Recounted(s.(errors := OrEmpty(s.stored.errors), warnings := OrEmpty(s.stored.warnings),
                   performance := OrEmpty(s.stored.performance)))
    else s
  }

  /** `performHealthCheck`: a warning naming the failed checks when there are any. */
  function HealthChecked(s: MonitorState, checks: seq<Check>, writable: bool): (r: MonitorState)
    ensures Capped(s) ==> Capped(r)
    ensures r.errors == s.errors && r.performance == s.performance && r.isEnabled == s.isEnabled
    ensures r.indicatorVisible == s.indicatorVisible && r.panelVisible == s.panelVisible
  {
    var w := HealthWarning(checks);
    if w.Some? then WarningLogged(s, w.value, writable) else s
  }

  /** `enable`: logging on and the indicator shown. */
  function Enabled(s: MonitorState): (r: MonitorState)
    ensures Capped(s) ==> Capped(r)
    ensures r.isEnabled && r.indicatorVisible
  {
    s.(isEnabled := true, indicatorVisible := true)
  }

  /** `disable`: logging off and both the indicator and the panel hidden. */
  function Disabled(s: MonitorState): (r: MonitorState)
    ensures Capped(s) ==> Capped(r)
    ensures !r.isEnabled && !r.indicatorVisible && !r.panelVisible
  {
    s.(isEnabled := false, indicatorVisible := false, panelVisible := false)
  }

  /** A disabled monitor ignores errors and warnings, health-check warnings included,
      but still records measurements. */
  lemma DisabledIgnoresLogs(s: MonitorState, e: Entry, m: Metric, checks: seq<Check>, writable: bool)
    requires !s.isEnabled
    ensures ErrorLogged(s, e, writable) == s && WarningLogged(s, e, writable) == s
    ensures HealthChecked(s, checks, writable) == s
    ensures PerformanceLogged(s, m, writable).performance[0] == m
  {
  }

  /** With storage that refuses writes, no operation changes what it holds. */
  lemma UnwritableStorageUnchanged(s: MonitorState, e: Entry, m: Metric, checks: seq<Check>)
    ensures ErrorLogged(s, e, false).stored == s.stored
    ensures WarningLogged(s, e, false).stored == s.stored
    ensures PerformanceLogged(s, m, false).stored == s.stored
    ensures Cleared(s, false).stored == s.stored
    ensures HealthChecked(s, checks, false).stored == s.stored
  {
  }

  /** After an error is logged with writable storage, reloading gives back the ten newest
      errors, the new one first, with the badge in step. */
  lemma {:induction false} LogThenReload(s: MonitorState, e: Entry)
    requires Capped(s) && s.isEnabled
    ensures var logged := ErrorLogged(s, e, true);
      var reloaded := LoadedFrom(logged);
      reloaded.errors == Snapshot(logged.errors) && reloaded.errors[0] == e &&
      reloaded.warnings == Snapshot(s.warnings) && Capped(reloaded)
  {
    var logged := ErrorLogged(s, e, true);
    assert logged.stored == SlotFor(logged.errors, logged.warnings, logged.performance);
    SaveLoadRoundTrip(logged.errors, logged.warnings, logged.performance);
    assert Snapshot(logged.errors)[0] == logged.errors[0];
  }

  /** The page's start-up, a fresh monitor followed by `loadFromStorage`, leaves every log
      within its cap whenever the stored lists are. */
  lemma StartupIsCapped(stored: Slot)
    requires SlotWithinCap(stored)
    ensures Capped(LoadedFrom(MonitorState([], [], [], true, AllClear, true, false, stored)))
  {
  }

  // ---------------------------------------------------------------------
  // The monitor object

  class Monitor {
    var errors: seq<Entry>
    var warnings: seq<Entry>
    var performance: seq<Metric>
    var isEnabled: bool
    var indicator: Indicator
    var indicatorVisible: bool
    var panelVisible: bool
    /** Local storage under `StorageKey`. */
    var stored: Slot
    /** Whether writing to local storage succeeds (it throws when full or unavailable). */
    const storageWritable: bool

    /** The fields as one value. */
    function State(): MonitorState
      reads this
    {
      MonitorState(errors, warnings, performance, isEnabled, indicator, indicatorVisible, panelVisible, stored)
    }

    ghost predicate Valid()
      reads this
    {
      Capped(State())
    }

    constructor (storageWritable: bool, stored: Slot)
      ensures Valid() && isEnabled
      ensures State() == MonitorState([], [], [], true, AllClear, true, false, stored)
      ensures this.storageWritable == storageWritable
    {
      errors := [];
      warnings := [];
      performance := [];
      isEnabled := true;
      indicator := AllClear;
      indicatorVisible := true;
      panelVisible := false;
      this.stored := stored;
      this.storageWritable := storageWritable;
    }

    method UpdateErrorCount()
      modifies this
      ensures State() == Recounted(old(State()))
      ensures indicator == IndicatorFor(|errors|, |warnings|)
      ensures errors == old(errors) && warnings == old(warnings) && performance == old(performance)
      ensures isEnabled == old(isEnabled) && stored == old(stored)
    {
      indicator := IndicatorFor(|errors|, |warnings|);
    }

    /** `saveToStorage`: write the three snapshots; a failing write is swallowed. */
    method SaveToStorage()
      modifies this
      ensures State() == Saved(old(State()), storageWritable)
      ensures stored == (if storageWritable then SlotFor(errors, warnings, performance) else old(stored))
      ensures errors == old(errors) && warnings == old(warnings) && performance == old(performance)
      ensures isEnabled == old(isEnabled) && indicator == old(indicator)
    {
      if storageWritable {
        stored := SlotFor(errors, warnings, performance);
      }
    }

    /** `logError`: while enabled, add the error in front within the cap, refresh the badge
        and save. */
    method LogError(e: Entry)
      modifies this
      requires Valid()
      ensures Valid()
      ensures State() == ErrorLogged(old(State()), e, storageWritable)
      ensures !old(isEnabled) ==>
        errors == old(errors) && warnings == old(warnings) && performance == old(performance) && stored == old(stored)
      ensures old(isEnabled) ==> errors == PushCapped(old(errors), e, MaxErrors)
      ensures warnings == old(warnings) && performance == old(performance) && isEnabled == old(isEnabled)
      ensures old(isEnabled) && storageWritable ==> stored == SlotFor(errors, warnings, performance)
      ensures !storageWritable ==> stored == old(stored)
      ensures indicatorVisible == old(indicatorVisible) && panelVisible == old(panelVisible)
    {
      if !isEnabled {
        return;
      }
      errors := [e] + errors;
      if |errors| > MaxErrors {
        errors := errors[..|errors| - 1];
      }
      UpdateErrorCount();
      SaveToStorage();
    }

    /** `logWarning`: the same for the warnings log. */
    method LogWarning(w: Entry)
      modifies this
      requires Valid()
      ensures Valid()
      ensures State() == WarningLogged(old(State()), w, storageWritable)
      ensures !old(isEnabled) ==>
        errors == old(errors) && warnings == old(warnings) && performance == old(performance) && stored == old(stored)
      ensures old(isEnabled) ==> warnings == PushCapped(old(warnings), w, MaxErrors)
      ensures errors == old(errors) && performance == old(performance) && isEnabled == old(isEnabled)
      ensures old(isEnabled) && storageWritable ==> stored == SlotFor(errors, warnings, performance)
      ensures !storageWritable ==> stored == old(stored)
      ensures indicatorVisible == old(indicatorVisible) && panelVisible == old(panelVisible)
    {
      if !isEnabled {
        return;
      }
      warnings := [w] + warnings;
      if |warnings| > MaxErrors {
        warnings := warnings[..|warnings| - 1];
      }
      UpdateErrorCount();
      SaveToStorage();
    }

    /** `logPerformance`: not gated by `isEnabled`, and the badge is not refreshed. */
    method LogPerformance(m: Metric)
      modifies this
      requires Valid()
      ensures Valid()
      ensures State() == PerformanceLogged(old(State()), m, storageWritable)
      ensures performance == PushCapped(old(performance), m, MaxErrors)
      ensures errors == old(errors) && warnings == old(warnings) && isEnabled == old(isEnabled)
      ensures indicator == old(indicator)
      ensures storageWritable ==> stored == SlotFor(errors, warnings, performance)
      ensures !storageWritable ==> stored == old(stored)
      ensures indicatorVisible == old(indicatorVisible) && panelVisible == old(panelVisible)
    {
      performance := [m] + performance;
      if |performance| > MaxErrors {
        performance := performance[..|performance| - 1];
      }
      SaveToStorage();
    }

    /** `clearAll` */
    method ClearAll()
      modifies this
      requires Valid()
      ensures Valid()
      ensures State() == Cleared(old(State()), storageWritable)
      ensures errors == [] && warnings == [] && performance == [] && indicator == AllClear
      ensures isEnabled == old(isEnabled)
      ensures storageWritable ==> stored == Holds(Some([]), Some([]), Some([]))
      ensures !storageWritable ==> stored == old(stored)
      ensures indicatorVisible == old(indicatorVisible) && panelVisible == old(panelVisible)
    {
      errors := [];
      warnings := [];
      performance := [];
      UpdateErrorCount();
      SaveToStorage();
    }

    /** `loadFromStorage`: a saved object replaces the logs, a missing list counting as
        empty; nothing stored, or something unreadable, leaves everything as it was. */
    method LoadFromStorage()
      modifies this
      ensures State() == LoadedFrom(old(State()))
      ensures (old(Valid()) || stored.Holds?) && SlotWithinCap(stored) ==> Valid()
      ensures !old(stored).Holds? ==>
        errors == old(errors) && warnings == old(warnings) && performance == old(performance) &&
        indicator == old(indicator)
      ensures old(stored).Holds? ==>
        errors == OrEmpty(old(stored).errors) && warnings == OrEmpty(old(stored).warnings) &&
        performance == OrEmpty(old(stored).performance) && indicator == IndicatorFor(|errors|, |warnings|)
      ensures stored == old(stored) && isEnabled == old(isEnabled)
      ensures indicatorVisible == old(indicatorVisible) && panelVisible == old(panelVisible)
    {
      if stored.Holds? {
        errors := OrEmpty(stored.errors);
        warnings := OrEmpty(stored.warnings);
        performance := OrEmpty(stored.performance);
        UpdateErrorCount();
      }
    }

    /** `performHealthCheck` over the five feature probes. */
    method PerformHealthCheck(serviceWorker: bool, localStorage: bool, performanceApi: bool, fetch: bool,
                              intersectionObserver: bool)
      modifies this
      requires Valid()
      ensures Valid()
      ensures State() == HealthChecked(old(State()),
        Checks(serviceWorker, localStorage, performanceApi, fetch, intersectionObserver), storageWritable)
      ensures var w := HealthWarning(Checks(serviceWorker, localStorage, performanceApi, fetch, intersectionObserver));
        if w.Some? && old(isEnabled) then warnings == PushCapped(old(warnings), w.value, MaxErrors)
        else warnings == old(warnings)
      ensures errors == old(errors) && performance == old(performance) && isEnabled == old(isEnabled)
      ensures !storageWritable ==> stored == old(stored)
      ensures indicatorVisible == old(indicatorVisible) && panelVisible == old(panelVisible)
    {
      var w := HealthWarning(Checks(serviceWorker, localStorage, performanceApi, fetch, intersectionObserver));
      if w.Some? {
        LogWarning(w.value);
      }
    }

    /** The export's summary block. */
    method ExportSummary() returns (s: Summary)
      ensures s == SummaryOf(errors, warnings, performance)
    {
      s := Summary(|errors|, |warnings|, CountPoor(performance));
    }

    method Enable()
      modifies this
      ensures State() == Enabled(old(State()))
      ensures isEnabled && indicatorVisible && panelVisible == old(panelVisible)
      ensures errors == old(errors) && warnings == old(warnings) && performance == old(performance)
      ensures indicator == old(indicator) && stored == old(stored)
    {
      isEnabled := true;
      indicatorVisible := true;
    }

    method Disable()
      modifies this
      ensures State() == Disabled(old(State()))
      ensures !isEnabled && !indicatorVisible && !panelVisible
      ensures errors == old(errors) && warnings == old(warnings) && performance == old(performance)
      ensures indicator == old(indicator) && stored == old(stored)
    {
      isEnabled := false;
      indicatorVisible := false;
      panelVisible := false;
    }
  }
}
