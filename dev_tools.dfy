/** The development panel: metric and memory colours, the network list (newest
    first, at most 20), the console list (oldest dropped, at most 100), the
    panel's open state with its refresh timer, the tab dispatch of a refresh,
    and the truncation of stored values. */
module DevTools {
  import opened Strings

  const NetworkCap := 20
  const ConsoleCap := 100
  const StoredValueWidth := 50

  // ---------------------------------------------------------------------
  // Core Web Vitals

  datatype MetricKind = Fcp | Lcp | Cls
  datatype MetricStatus = Good | Poor

  /** The thresholds of `updateMetric`, in milliseconds for the paints. */
  function Threshold(m: MetricKind): real
  {
    match m
    case Fcp => 1800.0
    case Lcp => 2500.0
    case Cls => 0.1
  }

  /** `updateMetric`'s status: good strictly below the threshold. */
  function StatusOf(m: MetricKind, value: real): (s: MetricStatus)
    ensures s == Good <==> value < Threshold(m)
  {
    if value < Threshold(m) then Good else Poor
  }

  /** The unit printed after the value: none for the layout shift. */
  function UnitSuffix(m: MetricKind): (u: string)
    ensures u == [] <==> m == Cls
  {
    if m == Cls then [] else "ms"
  }

  /** A paint of 1.8 seconds is already poor; a shift of 0.1 is too. */
  lemma ThresholdIsExclusive()
    ensures StatusOf(Fcp, 1800.0) == Poor && StatusOf(Fcp, 1799.0) == Good
    ensures StatusOf(Cls, 0.1) == Poor && StatusOf(Lcp, 2500.0) == Poor
  {
  }

  // ---------------------------------------------------------------------
  // Memory

  const MegaByte := 1048576

  /** The result of `Math.round(used / limit * 100)`: a whole number, or what a
      division by a limit of 0 MB gives. */
  datatype Percentage = Whole(n: nat) | Infinite | NotANumber

  /** `Math.round` of a non-negative quotient, as whole megabytes. */
  function Megabytes(bytes: nat): (mb: nat)
    ensures 2 * bytes < (2 * mb + 1) * MegaByte && (2 * mb - 1) * MegaByte <= 2 * bytes
  {
    RoundDiv(bytes, MegaByte)
  }

  /** The heap's share of its limit, `100 * used / limit` rounded half up and
      computed exactly, not as the IEEE product the script rounds; a zero limit
      gives Infinity or NaN. */
  function MemoryPercentage(usedMb: nat, limitMb: nat): (p: Percentage)
    ensures limitMb > 0 ==>
      (p.Whole? && 2 * usedMb * 100 < (2 * p.n + 1) * limitMb && (2 * p.n - 1) * limitMb <= 2 * usedMb * 100)
    ensures limitMb == 0 && usedMb > 0 ==> p == Infinite
    ensures limitMb == 0 && usedMb == 0 ==> p == NotANumber
  {
    if limitMb > 0 then Whole(RoundDiv(usedMb * 100, limitMb))
    else if usedMb > 0 then Infinite
    else NotANumber
  }

  datatype Colour = Red | Yellow | Green

  /** `updateMemoryMetrics`' colour: red above 80 %, yellow above 60 %. Comparisons
      with a NaN are false, so an undefined percentage is green. */
  function MemoryColour(p: Percentage): (c: Colour)
    ensures p.Whole? ==> (c == Red <==> p.n > 80)
    ensures p.Whole? ==> (c == Yellow <==> 60 < p.n <= 80)
    ensures p == Infinite ==> c == Red
    ensures p == NotANumber ==> c == Green
  {
    match p
    case Whole(n) => if n > 80 then Red else if n > 60 then Yellow else Green
    case Infinite => Red
    case NotANumber => Green
  }

  /** Using more of the heap never gives a calmer colour. */
  lemma MemoryColourMonotone(a: nat, b: nat)
    requires a <= b
    ensures MemoryColour(Whole(a)) == Red ==> MemoryColour(Whole(b)) == Red
    ensures MemoryColour(Whole(b)) == Green ==> MemoryColour(Whole(a)) == Green
  {
  }

  // ---------------------------------------------------------------------
  // Network and console lists

  /** A logged request's status: the response's code, or the text `Error` when
      the fetch threw. */
  datatype HttpStatus = Code(code: int) | ErrorText

  /** `logNetworkRequest`'s colour. A failed fetch compares false against both
      bounds and shows green. */
  function StatusColour(s: HttpStatus): (c: Colour)
    ensures s.Code? ==> (c == Red <==> s.code >= 400)
    ensures s.Code? ==> (c == Yellow <==> 300 <= s.code < 400)
    ensures s == ErrorText ==> c == Green
  {
    match s
    case Code(n) => if n >= 400 then Red else if n >= 300 then Yellow else Green
    case ErrorText => Green
  }

  datatype NetworkEntry = NetworkEntry(httpMethod: string, url: string, status: HttpStatus, duration: int)

  datatype ConsoleKind = Log | Error | Warn
  datatype ConsoleLine = ConsoleLine(kind: ConsoleKind, message: string)

  /** The first `cap` entries, the whole list when it is shorter. */
  function KeepFirst<T>(list: seq<T>, cap: nat): (r: seq<T>)
    ensures |r| == Min(|list|, cap) && r == list[..|r|]
  {
    if |list| <= cap then list else list[..cap]
  }

  /** The last `cap` entries, the whole list when it is shorter. */
  function KeepLast<T>(list: seq<T>, cap: nat): (r: seq<T>)
    ensures |r| == Min(|list|, cap) && r == list[|list| - |r|..]
  {
    if |list| <= cap then list else list[|list| - cap..]
  }

  /** After a request is logged it heads the list, the list holds at most 20, and
      the requests kept behind it are the newest of the earlier ones in order. */
  lemma NetworkListShape(list: seq<NetworkEntry>, e: NetworkEntry)
    ensures var r := KeepFirst([e] + list, NetworkCap);
      |r| <= NetworkCap && r[0] == e && r[1..] == list[..|r| - 1]
  {
    var r := KeepFirst([e] + list, NetworkCap);
    assert r[1..] == ([e] + list)[1..|r|];
  }

  /** After a message is added it ends the list, the list holds at most 100, and
      the messages before it are the latest of the earlier ones in order. */
  lemma ConsoleListShape(list: seq<ConsoleLine>, m: ConsoleLine)
    ensures var r := KeepLast(list + [m], ConsoleCap);
      |r| <= ConsoleCap && r[|r| - 1] == m && r[..|r| - 1] == list[|list| - (|r| - 1)..]
  {
    var r := KeepLast(list + [m], ConsoleCap);
    var all := list + [m];
    assert r[..|r| - 1] == all[|all| - |r|..|all| - 1];
  }

  // ---------------------------------------------------------------------
  // Storage view

  /** A stored value as the storage tab shows it: at most 50 characters, followed
      by `...` when the value was longer. */
  function TruncateStoredValue(v: string): (shown: string)
    ensures |v| <= StoredValueWidth ==> shown == v
    ensures |v| > StoredValueWidth ==>
      (|shown| == StoredValueWidth + 3 &&
       shown[..StoredValueWidth] == v[..StoredValueWidth] && shown[StoredValueWidth..] == "...")
  {
    if |v| > StoredValueWidth then v[..StoredValueWidth] + "..." else v
  }

  /** Truncating a value that is already shown in full changes nothing, and a
      truncated value is never longer than 53 characters. */
  lemma TruncateBounded(v: string)
    ensures |TruncateStoredValue(v)| <= StoredValueWidth + 3
    ensures |v| <= StoredValueWidth ==> TruncateStoredValue(TruncateStoredValue(v)) == v
  {
  }

  datatype StorageItem = StorageItem(key: string, value: string)

  function StorageView(items: seq<StorageItem>): (view: seq<StorageItem>)
    ensures |view| == |items|
    ensures forall i :: 0 <= i < |items| ==>
      view[i] == StorageItem(items[i].key, TruncateStoredValue(items[i].value))
  {
    seq(|items|, i requires 0 <= i < |items| => StorageItem(items[i].key, TruncateStoredValue(items[i].value)))
  }

  // ---------------------------------------------------------------------
  // The panel

  /** The panel's five tabs. */
  datatype Tab = PerformanceTab | NetworkTab | StorageTab | ConsoleTab | SeoTab

  /** What `refreshData` redraws. */
  datatype Refresh = StorageRefresh | SeoRefresh

  /** `refreshData`'s dispatch: only the storage and SEO tabs are redrawn. */
  function RefreshFor(tab: Tab): (r: Option<Refresh>)
    ensures r == Some(StorageRefresh) <==> tab == StorageTab
    ensures r == Some(SeoRefresh) <==> tab == SeoTab
  {
    match tab
    case StorageTab => Some(StorageRefresh)
    case SeoTab => Some(SeoRefresh)
    case _ => None
  }

  class Panel {
    var isOpen: bool
    var activeTab: Tab
    /** Whether `refreshInterval` holds a running timer. */
    var refreshScheduled: bool
    /** The redraws done so far, oldest first. */
    var refreshes: seq<Refresh>
    var network: seq<NetworkEntry>
    var console: seq<ConsoleLine>
    var localStorage: seq<StorageItem>
    var storageView: seq<StorageItem>
    var sessionStorage: seq<StorageItem>
    var sessionView: seq<StorageItem>

    /** A timer runs exactly while the panel is open; the lists keep their caps. */
    predicate Valid()
      reads this
    {
      refreshScheduled == isOpen && |network| <= NetworkCap && |console| <= ConsoleCap
    }

    constructor (localStorage: seq<StorageItem>, sessionStorage: seq<StorageItem>)
      ensures Valid()
      ensures !isOpen && activeTab == PerformanceTab && refreshes == []
      ensures network == [] && console == [] && this.localStorage == localStorage && storageView == []
      ensures this.sessionStorage == sessionStorage && sessionView == []
    {
      isOpen := false;
      activeTab := PerformanceTab;
      refreshScheduled := false;
      refreshes := [];
      network := [];
      console := [];
      this.localStorage := localStorage;
      storageView := [];
      this.sessionStorage := sessionStorage;
      sessionView := [];
    }

    /** One pane of `updateStorageDisplay`: the `for` loop over a storage's keys,
        one shown item per stored item, values truncated. */
    static method ShowItems(items: seq<StorageItem>) returns (shown: seq<StorageItem>)
      ensures shown == StorageView(items)
    {
      shown := [];
      var i := 0;
      while i < |items|
        invariant 0 <= i <= |items|
        invariant shown == StorageView(items[..i])
      {
        assert StorageView(items[..i + 1]) ==
          StorageView(items[..i]) + [StorageItem(items[i].key, TruncateStoredValue(items[i].value))];
        shown := shown + [StorageItem(items[i].key, TruncateStoredValue(items[i].value))];
        i := i + 1;
      }
      assert items[..i] == items;
    }

    /** `updateStorageDisplay`: the local-storage pane, then the session-storage
        pane, each by the same truncation rule. */
    method UpdateStorageDisplay()
      modifies this`storageView, this`sessionView
      ensures storageView == StorageView(localStorage)
      ensures sessionView == StorageView(sessionStorage)
    {
      storageView := ShowItems(localStorage);
      sessionView := ShowItems(sessionStorage);
    }

    /** `refreshData`: redraw the active tab when it is one that refreshes. */
    method RefreshData()
      modifies this`refreshes, this`storageView, this`sessionView
      ensures RefreshFor(activeTab).None? ==> refreshes == old(refreshes) && storageView == old(storageView)
      ensures RefreshFor(activeTab).Some? ==> refreshes == old(refreshes) + [RefreshFor(activeTab).value]
      ensures activeTab == StorageTab ==>
        storageView == StorageView(localStorage) && sessionView == StorageView(sessionStorage)
      ensures activeTab != StorageTab ==> storageView == old(storageView) && sessionView == old(sessionView)
    {
      match activeTab {
        case StorageTab =>
          UpdateStorageDisplay();
          refreshes := refreshes + [StorageRefresh];
        case SeoTab =>
          refreshes := refreshes + [SeoRefresh];
        case _ =>
      }
    }

    /** `toggle`: flip the panel; opening redraws and starts the timer, closing
        stops it. */
    method Toggle()
      requires Valid()
      modifies this`isOpen, this`refreshScheduled, this`refreshes, this`storageView, this`sessionView
      ensures Valid()
      ensures isOpen == !old(isOpen) && refreshScheduled == isOpen
      ensures isOpen && RefreshFor(activeTab).Some? ==> refreshes == old(refreshes) + [RefreshFor(activeTab).value]
      ensures !isOpen || RefreshFor(activeTab).None? ==> refreshes == old(refreshes)
      ensures storageView == if isOpen && activeTab == StorageTab then StorageView(localStorage) else old(storageView)
      ensures sessionView == if isOpen && activeTab == StorageTab then StorageView(sessionStorage) else old(sessionView)
    {
      isOpen := !isOpen;
      if isOpen {
        RefreshData();
        refreshScheduled := true;
      } else {
        if refreshScheduled {
          refreshScheduled := false;
        }
      }
    }

    /** `switchTab`: make the tab active and redraw it. */
    method SwitchTab(tab: Tab)
      requires Valid()
      modifies this`activeTab, this`refreshes, this`storageView, this`sessionView
      ensures Valid()
      ensures activeTab == tab
      ensures RefreshFor(tab).Some? ==> refreshes == old(refreshes) + [RefreshFor(tab).value]
      ensures RefreshFor(tab).None? ==> refreshes == old(refreshes)
      ensures storageView == if tab == StorageTab then StorageView(localStorage) else old(storageView)
      ensures sessionView == if tab == StorageTab then StorageView(sessionStorage) else old(sessionView)
    {
      activeTab := tab;
      RefreshData();
    }

    /** `logNetworkRequest`: insert at the front, then drop from the back while
        more than 20 are listed. */
    method LogNetworkRequest(e: NetworkEntry)
      requires Valid()
      modifies this`network
      ensures Valid()
      ensures network == KeepFirst([e] + old(network), NetworkCap)
    {
      network := [e] + network;
      while |network| > NetworkCap
        invariant |network| <= |[e] + old(network)| && network == ([e] + old(network))[..|network|]
        invariant |network| >= Min(|[e] + old(network)|, NetworkCap)
        decreases |network|
      {
        network := network[..|network| - 1];
      }
    }

    /** `addConsoleMessage`: append, then drop from the front while more than 100
        are listed. */
    method AddConsoleMessage(m: ConsoleLine)
      requires Valid()
      modifies this`console
      ensures Valid()
      ensures console == KeepLast(old(console) + [m], ConsoleCap)
    {
      console := console + [m];
      ghost var all := old(console) + [m];
      while |console| > ConsoleCap
        invariant |console| <= |all| && console == all[|all| - |console|..]
        invariant |console| >= Min(|all|, ConsoleCap)
        decreases |console|
      {
        console := console[1..];
      }
    }

    /** `clearData`: empty the active tab's list; on the storage tab, clear the
        storage only when the user confirms, and redraw it. */
    method ClearData(confirmed: bool)
      requires Valid()
      modifies this`console, this`network, this`localStorage, this`storageView, this`sessionView
      ensures Valid()
      ensures activeTab == ConsoleTab ==> console == [] && network == old(network)
      ensures activeTab == NetworkTab ==> network == [] && console == old(console)
      ensures activeTab == StorageTab && confirmed ==>
        localStorage == [] && storageView == [] && sessionView == StorageView(sessionStorage)
      ensures !(activeTab == StorageTab && confirmed) ==>
        localStorage == old(localStorage) && storageView == old(storageView) && sessionView == old(sessionView)
      ensures activeTab != ConsoleTab && activeTab != NetworkTab ==>
        console == old(console) && network == old(network)
    {
      match activeTab {
        case ConsoleTab => console := [];
        case NetworkTab => network := [];
        case StorageTab =>
          if confirmed {
            localStorage := [];
            UpdateStorageDisplay();
          }
        case _ =>
      }
    }
  }
}
