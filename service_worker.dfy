/** The site's service worker: which GET requests it intercepts, the
    first-match rule table that picks a caching strategy, the three
    strategies as reads and writes on named cache partitions, and the
    activation clean-up. The browser's CacheStorage is a list of partition
    names in creation order plus a map from name to partition; the network
    is an input that either delivers a response or fails. */
module ServiceWorker {
  import opened Strings

  type Url = string

  const StaticCache := "larq-static-v1.0.0"
  const DynamicCache := "larq-dynamic-v1.0.0"
  const ImageCache := "larq-images-v1.0.0"
  /** Declared by the worker but absent from the valid set, so activation deletes it. */
  const LegacyCache := "larq-arquitectura-v1.0.0"
  const ValidCaches: seq<string> := [StaticCache, DynamicCache, ImageCache]
  /** The page served to a navigation that finds neither network nor cache. */
  const OfflineShell: Url := "/index.html"

  datatype Destination = Document | Style | Script | Image | Font | OtherDestination(name: string)

  datatype Request = Request(
    httpMethod: string,
    url: Url,
    protocol: string,
    hostname: string,
    pathname: string,
    destination: Destination)

  datatype Response = Response(status: int, contentType: string, body: string)
  {
    /** `response.ok` */
    predicate Ok() { 200 <= status <= 299 }
  }

  /** What the network does with one fetch. */
  datatype Fetch = Fetched(response: Response) | NetworkError

  datatype Strategy = NetworkFirst | CacheFirst | StaleWhileRevalidate

  /** What a strategy hands to `respondWith`: a response, or a rejected promise. */
  datatype Reply = Respond(response: Response) | Fail

  /** A fetch event either passes through untouched or is answered by the worker. */
  datatype Handling = NotIntercepted | Handled(reply: Reply)

  /** The placeholder picture served for an image that is neither cached nor fetchable. */
  const ImageFallback := Response(200, "image/svg+xml", "Imagen no disponible")

  // ---------------------------------------------------------------------
  // Cache storage as a value

  datatype Storage = Storage(names: seq<string>, parts: map<string, map<Url, Response>>)

  predicate Distinct(s: seq<string>)
  {
    forall i, j :: 0 <= i < j < |s| ==> s[i] != s[j]
  }

  /** Every partition is listed exactly once, in creation order. */
  predicate WellFormed(st: Storage)
  {
    Distinct(st.names) &&
    (forall n :: n in st.parts ==> n in st.names) &&
    (forall n :: n in st.names ==> n in st.parts)
  }

  /** `caches.match(url)`: the entry of the first partition, in creation order, that holds the url. */
  function MatchIn(names: seq<string>, parts: map<string, map<Url, Response>>, url: Url): (r: Option<Response>)
    ensures r.None? <==> forall i :: 0 <= i < |names| ==> names[i] !in parts || url !in parts[names[i]]
    ensures r.Some? ==> exists i :: 0 <= i < |names| && names[i] in parts && url in parts[names[i]] && parts[names[i]][url] == r.value
    ensures r.Some? ==>
              exists i :: 0 <= i < |names| && names[i] in parts && url in parts[names[i]] &&
                          parts[names[i]][url] == r.value &&
                          forall j :: 0 <= j < i ==> names[j] !in parts || url !in parts[names[j]]
  {
    if names == [] then None
    else if names[0] in parts && url in parts[names[0]] then Some(parts[names[0]][url])
    else MatchIn(names[1..], parts, url)
  }

  function Lookup(st: Storage, url: Url): Option<Response>
  {
    MatchIn(st.names, st.parts, url)
  }

  /** `caches.open(name)`: an existing partition is left alone, a new one is created empty and listed last. */
  function WithPartition(st: Storage, name: string): (r: Storage)
    ensures name in r.parts
    ensures forall n :: n in st.parts ==> n in r.parts && r.parts[n] == st.parts[n]
    ensures forall n :: n in r.parts && n != name ==> n in st.parts
  {
    if name in st.parts then st else Storage(st.names + [name], st.parts[name := map[]])
  }

  /** `cache.put(url, response)` on the partition `name`, opening it first. */
  function WithEntry(st: Storage, name: string, url: Url, resp: Response): (r: Storage)
    ensures name in r.parts && url in r.parts[name] && r.parts[name][url] == resp
    ensures forall u :: u != url && name in st.parts && u in st.parts[name] ==> u in r.parts[name] && r.parts[name][u] == st.parts[name][u]
    ensures forall n :: n != name ==> (n in r.parts <==> n in st.parts)
    ensures forall n :: n != name && n in st.parts ==> r.parts[n] == st.parts[n]
  {
    var created := WithPartition(st, name);
    Storage(created.names, created.parts[name := created.parts[name][url := resp]])
  }

  /** `caches.delete(name)` */
  function Without(st: Storage, name: string): (r: Storage)
    ensures name !in r.parts
    ensures forall n :: n != name ==> (n in r.parts <==> n in st.parts) && (n in r.parts ==> r.parts[n] == st.parts[n])
  {
    Storage(RemoveName(st.names, name), st.parts - {name})
  }

  function RemoveName(names: seq<string>, name: string): seq<string>
  {
    if names == [] then []
    else if names[0] == name then RemoveName(names[1..], name)
    else [names[0]] + RemoveName(names[1..], name)
  }

  /** The names of `names` that belong to the valid set, in their original order. */
  function KeepValid(names: seq<string>): seq<string>
  {
    if names == [] then []
    else if names[0] in ValidCaches then [names[0]] + KeepValid(names[1..])
    else KeepValid(names[1..])
  }

  /** Removing a name drops exactly that name from the list. */
  lemma {:induction false} RemoveNameMembers(names: seq<string>, name: string)
    ensures name !in RemoveName(names, name)
    ensures forall n :: n != name ==> (n in RemoveName(names, name) <==> n in names)
  {
    if names != [] {
      RemoveNameMembers(names[1..], name);
      assert names == [names[0]] + names[1..];
    }
  }

  /** The clean-up keeps exactly the listed names that are valid. */
  lemma {:induction false} KeepValidMembers(names: seq<string>)
    ensures forall n :: n in KeepValid(names) <==> n in names && n in ValidCaches
  {
    if names != [] {
      KeepValidMembers(names[1..]);
      assert names == [names[0]] + names[1..];
    }
  }

  /** The storage after activation: only the valid partitions survive, untouched. */
  function Cleaned(st: Storage): Storage
  {
    Storage(KeepValid(st.names), map n | n in st.parts && n in ValidCaches :: st.parts[n])
  }

  // ---------------------------------------------------------------------
  // Routing

  /** The fetch handler answers only GET requests that do not come from a browser extension. */
  predicate Intercepts(req: Request)
  {
    req.httpMethod == "GET" && req.protocol != "chrome-extension:" && req.protocol != "moz-extension:"
  }

  /** The case-insensitive test `/\.(jpg|jpeg|png|gif|webp|svg)$/i`. */
  predicate HasImageExtension(pathname: string)
  {
    var p := ToLower(pathname);
    EndsWith(p, ".jpg") || EndsWith(p, ".jpeg") || EndsWith(p, ".png") ||
    EndsWith(p, ".gif") || EndsWith(p, ".webp") || EndsWith(p, ".svg")
  }

  /** The case-insensitive test `/\.(woff|woff2|ttf|eot)$/i`. */
  predicate HasFontExtension(pathname: string)
  {
    var p := ToLower(pathname);
    EndsWith(p, ".woff") || EndsWith(p, ".woff2") || EndsWith(p, ".ttf") || EndsWith(p, ".eot")
  }

  /** `determineStrategy`: an if-chain whose first true test decides. */
  function DetermineStrategy(req: Request): Strategy
  {
    if req.destination == Document || EndsWith(req.pathname, ".html") then NetworkFirst
    else if req.destination == Style || req.destination == Script
         || EndsWith(req.pathname, ".css") || EndsWith(req.pathname, ".js") then StaleWhileRevalidate
    else if req.destination == Image || HasImageExtension(req.pathname) then CacheFirst
    else if req.destination == Font || HasFontExtension(req.pathname)
         || req.hostname == "fonts.gstatic.com" then CacheFirst
    else if req.hostname == "fonts.googleapis.com" then StaleWhileRevalidate
    else if req.hostname == "cdnjs.cloudflare.com" then CacheFirst
    else NetworkFirst
  }

  /** The routing rules as a table of (test, strategy) rows, read top to bottom. */
  datatype RuleTest = IsPage | IsStyleOrScript | IsImage | IsFont | OnFontCssHost | OnIconCdnHost
  datatype Rule = Rule(test: RuleTest, strategy: Strategy)

  const RuleTable: seq<Rule> := [
    Rule(IsPage, NetworkFirst),
    Rule(IsStyleOrScript, StaleWhileRevalidate),
    Rule(IsImage, CacheFirst),
    Rule(IsFont, CacheFirst),
    Rule(OnFontCssHost, StaleWhileRevalidate),
    Rule(OnIconCdnHost, CacheFirst)
  ]

  predicate Applies(t: RuleTest, req: Request)
  {
    match t
    case IsPage => req.destination == Document || EndsWith(req.pathname, ".html")
    case IsStyleOrScript =>
      req.destination in {Style, Script} || EndsWith(req.pathname, ".css") || EndsWith(req.pathname, ".js")
    case IsImage => req.destination == Image || HasImageExtension(req.pathname)
    case IsFont => req.destination == Font || HasFontExtension(req.pathname) || req.hostname == "fonts.gstatic.com"
    case OnFontCssHost => req.hostname == "fonts.googleapis.com"
    case OnIconCdnHost => req.hostname == "cdnjs.cloudflare.com"
  }

  /** The strategy of the first row whose test holds; network-first when none does. */
  function FirstMatch(rules: seq<Rule>, req: Request): (s: Strategy)
    ensures (forall i :: 0 <= i < |rules| ==> !Applies(rules[i].test, req)) ==> s == NetworkFirst
    ensures forall k ::
              (0 <= k < |rules| && Applies(rules[k].test, req) &&
               (forall i :: 0 <= i < k ==> !Applies(rules[i].test, req)))
              ==> s == rules[k].strategy
  {
    if rules == [] then NetworkFirst
    else if Applies(rules[0].test, req) then rules[0].strategy
    else FirstMatch(rules[1..], req)
  }

  /** The if-chain and the rule table agree on every request. */
  lemma DetermineStrategyIsFirstMatch(req: Request)
    ensures DetermineStrategy(req) == FirstMatch(RuleTable, req)
  {
    var t := RuleTable;
    if Applies(IsPage, req) {
      assert Applies(t[0].test, req);
    } else if Applies(IsStyleOrScript, req) {
      assert Applies(t[1].test, req);
    } else if Applies(IsImage, req) {
      assert Applies(t[2].test, req);
    } else if Applies(IsFont, req) {
      assert Applies(t[3].test, req);
    } else if Applies(OnFontCssHost, req) {
      assert Applies(t[4].test, req);
    } else if Applies(OnIconCdnHost, req) {
      assert Applies(t[5].test, req);
    }
  }

  /** A page is always network-first, whatever later rules its path or host would also satisfy. */
  lemma PagesAreNetworkFirst(req: Request)
    requires req.destination == Document || EndsWith(req.pathname, ".html")
    ensures DetermineStrategy(req) == NetworkFirst
  {
  }

  /** `handleRequest`: cache-first keeps images apart from the other static assets. */
  function PartitionFor(strategy: Strategy, req: Request): (name: string)
    ensures name in ValidCaches
    ensures name == ImageCache <==> strategy == CacheFirst && req.destination == Image
    ensures name == StaticCache <==> strategy == CacheFirst && req.destination != Image
    ensures name == DynamicCache <==> strategy != CacheFirst
  {
    match strategy
    case NetworkFirst => DynamicCache
    case CacheFirst => if req.destination == Image then ImageCache else StaticCache
    case StaleWhileRevalidate => DynamicCache
  }

  // ---------------------------------------------------------------------
  // The strategies as functions of the storage and the network outcome

  datatype Step = Step(reply: Reply, after: Storage)

  /** Storage after a fetch: an ok response is put into the partition, anything else writes nothing. */
  function Revalidated(st: Storage, name: string, url: Url, net: Fetch): Storage
  {
    if net.Fetched? && net.response.Ok() then WithEntry(st, name, url, net.response) else st
  }

  function NetworkFirstStep(st: Storage, req: Request, net: Fetch, name: string): Step
  {
    match net
    case Fetched(resp) => Step(Respond(resp), Revalidated(st, name, req.url, net))
    case NetworkError =>
      var hit := Lookup(st, req.url);
      if hit.Some? then Step(Respond(hit.value), st)
      else if req.destination == Document then
        var shell := Lookup(st, OfflineShell);
        Step(if shell.Some? then Respond(shell.value) else Fail, st)
      else Step(Fail, st)
  }

  function CacheFirstStep(st: Storage, req: Request, net: Fetch, name: string): Step
  {
    var hit := Lookup(st, req.url);
    if hit.Some? then Step(Respond(hit.value), st)
    else match net
      case Fetched(resp) => Step(Respond(resp), Revalidated(st, name, req.url, net))
      case NetworkError => Step(if req.destination == Image then Respond(ImageFallback) else Fail, st)
  }

  /** The revalidating fetch is modelled as completed by the time the step ends. */
  function StaleWhileRevalidateStep(st: Storage, req: Request, net: Fetch, name: string): Step
  {
    var created := WithPartition(st, name);
    var part := created.parts[name];
    var reply :=
      if req.url in part then Respond(part[req.url])
      else if net.Fetched? then Respond(net.response)
      else Fail;
    Step(reply, Revalidated(created, name, req.url, net))
  }

  function HandleRequestStep(st: Storage, req: Request, net: Fetch): Step
  {
    var strategy := DetermineStrategy(req);
    var name := PartitionFor(strategy, req);
    match strategy
    case NetworkFirst => NetworkFirstStep(st, req, net, name)
    case CacheFirst => CacheFirstStep(st, req, net, name)
    case StaleWhileRevalidate => StaleWhileRevalidateStep(st, req, net, name)
  }

  function FetchEventStep(st: Storage, req: Request, net: Fetch): (Handling, Storage)
  {
    if !Intercepts(req) then (NotIntercepted, st)
    else
      var step := HandleRequestStep(st, req, net);
      (Handled(step.reply), step.after)
  }

  // ---------------------------------------------------------------------
  // Properties of the strategies

  /** Lookup finds a url exactly when some partition holds it, and what it finds is stored there. */
  lemma LookupFindsStoredEntries(st: Storage, url: Url)
    requires WellFormed(st)
    ensures Lookup(st, url).None? <==> forall n :: n in st.parts ==> url !in st.parts[n]
    ensures Lookup(st, url).Some? ==> exists n :: n in st.parts && url in st.parts[n] && st.parts[n][url] == Lookup(st, url).value
  {
    var r := Lookup(st, url);
    if r.None? {
      forall n | n in st.parts ensures url !in st.parts[n] {
        var i :| 0 <= i < |st.names| && st.names[i] == n;
      }
    } else {
      var i :| 0 <= i < |st.names| && st.names[i] in st.parts && url in st.parts[st.names[i]] && st.parts[st.names[i]][url] == r.value;
      var n := st.names[i];
      assert n in st.parts && url in st.parts[n] && st.parts[n][url] == r.value;
    }
  }

  /** Requests the fetch handler skips get no answer from the worker and leave the caches alone. */
  lemma SkippedRequestsAreNotIntercepted(st: Storage, req: Request, net: Fetch)
    requires req.httpMethod != "GET" || req.protocol == "chrome-extension:" || req.protocol == "moz-extension:"
    ensures FetchEventStep(st, req, net) == (NotIntercepted, st)
  {
  }

  /** No strategy writes anything when the network fails or answers with a non-ok status
      (stale-while-revalidate may only create its empty partition). */
  lemma FailedFetchWritesNothing(st: Storage, req: Request, net: Fetch, name: string)
    requires net.NetworkError? || !net.response.Ok()
    ensures NetworkFirstStep(st, req, net, name).after == st
    ensures CacheFirstStep(st, req, net, name).after == st
    ensures StaleWhileRevalidateStep(st, req, net, name).after == WithPartition(st, name)
  {
  }

  /** An ok response always ends up stored under its url in the strategy's partition,
      unless cache-first answered from the cache without fetching. */
  lemma OkResponseIsStored(st: Storage, req: Request, resp: Response, name: string)
    requires resp.Ok()
    ensures var after := NetworkFirstStep(st, req, Fetched(resp), name).after;
      name in after.parts && req.url in after.parts[name] && after.parts[name][req.url] == resp
    ensures var after := StaleWhileRevalidateStep(st, req, Fetched(resp), name).after;
      name in after.parts && req.url in after.parts[name] && after.parts[name][req.url] == resp
    ensures Lookup(st, req.url).None? ==>
      var after := CacheFirstStep(st, req, Fetched(resp), name).after;
      name in after.parts && req.url in after.parts[name] && after.parts[name][req.url] == resp
  {
  }

  /** A write only touches the strategy's own partition. */
  lemma StrategiesTouchOnlyTheirPartition(st: Storage, req: Request, net: Fetch, name: string, other: string)
    requires other != name && other in st.parts
    ensures var a := NetworkFirstStep(st, req, net, name).after; other in a.parts && a.parts[other] == st.parts[other]
    ensures var a := CacheFirstStep(st, req, net, name).after; other in a.parts && a.parts[other] == st.parts[other]
    ensures var a := StaleWhileRevalidateStep(st, req, net, name).after; other in a.parts && a.parts[other] == st.parts[other]
  {
  }

  /** Offline, network-first serves whatever copy any partition holds. */
  lemma OfflineNetworkFirstServesCachedCopy(st: Storage, req: Request, name: string, cached: Response)
    requires Lookup(st, req.url) == Some(cached)
    ensures NetworkFirstStep(st, req, NetworkError, name) == Step(Respond(cached), st)
  {
  }

  /** A cache-first hit is answered the same way whatever the network would have done. */
  lemma CacheFirstHitIgnoresNetwork(st: Storage, req: Request, net1: Fetch, net2: Fetch, name: string)
    requires Lookup(st, req.url).Some?
    ensures CacheFirstStep(st, req, net1, name) == CacheFirstStep(st, req, net2, name)
    ensures CacheFirstStep(st, req, net1, name).after == st
  {
  }

  /** Offline misses: images get the placeholder picture, other cache-first requests fail,
      and a navigation under network-first falls back to the cached shell page. */
  lemma OfflineMissFallbacks(st: Storage, req: Request, name: string)
    requires Lookup(st, req.url).None?
    ensures CacheFirstStep(st, req, NetworkError, name).reply
      == (if req.destination == Image then Respond(ImageFallback) else Fail)
    ensures NetworkFirstStep(st, req, NetworkError, name).reply
      == (if req.destination == Document && Lookup(st, OfflineShell).Some?
          then Respond(Lookup(st, OfflineShell).value) else Fail)
  {
  }

  /** Stale-while-revalidate serves the old copy once, then the fresh one it stored meanwhile. */
  lemma StaleThenFresh(st: Storage, req: Request, stale: Response, update: Response, later: Fetch, name: string)
    requires name in st.parts && req.url in st.parts[name] && st.parts[name][req.url] == stale
    requires update.Ok()
    ensures var first := StaleWhileRevalidateStep(st, req, Fetched(update), name);
      first.reply == Respond(stale) &&
      StaleWhileRevalidateStep(first.after, req, later, name).reply == Respond(update)
  {
  }

  /** Putting an entry keeps the storage well formed. */
  lemma WithEntryWellFormed(st: Storage, name: string, url: Url, resp: Response)
    requires WellFormed(st)
    ensures WellFormed(WithPartition(st, name))
    ensures WellFormed(WithEntry(st, name, url, resp))
  {
  }

  /** Every fetch event keeps the storage well formed. */
  lemma FetchEventKeepsWellFormed(st: Storage, req: Request, net: Fetch)
    requires WellFormed(st)
    ensures WellFormed(FetchEventStep(st, req, net).1)
  {
    var name := PartitionFor(DetermineStrategy(req), req);
    WithEntryWellFormed(st, name, req.url, if net.Fetched? then net.response else ImageFallback);
    WithEntryWellFormed(WithPartition(st, name), name, req.url, if net.Fetched? then net.response else ImageFallback);
  }

  /** A list of distinct names stays distinct when a new name goes in front, and its tail is distinct. */
  lemma DistinctCons(x: string, s: seq<string>)
    ensures Distinct([x] + s) <==> x !in s && Distinct(s)
  {
    var t := [x] + s;
    if x !in s && Distinct(s) {
      forall i, j | 0 <= i < j < |t| ensures t[i] != t[j] {
        assert t[j] == s[j - 1];
        if i > 0 {
          assert t[i] == s[i - 1];
        }
      }
    }
    if Distinct(t) {
      assert t[1..] == s;
      forall k | 0 <= k < |s| ensures s[k] != x {
        assert t[0] != t[k + 1];
      }
    }
  }

  /** Removing a name from a list of distinct names keeps them distinct. */
  lemma {:induction false} RemoveNameDistinct(names: seq<string>, name: string)
    requires Distinct(names)
    ensures Distinct(RemoveName(names, name))
  {
    if names != [] {
      DistinctCons(names[0], names[1..]);
      assert [names[0]] + names[1..] == names;
      RemoveNameDistinct(names[1..], name);
      RemoveNameMembers(names[1..], name);
      if names[0] != name {
        DistinctCons(names[0], RemoveName(names[1..], name));
      }
    }
  }

  /** Deleting a partition keeps the storage well formed. */
  lemma WithoutWellFormed(st: Storage, name: string)
    requires WellFormed(st)
    ensures WellFormed(Without(st, name))
  {
    RemoveNameDistinct(st.names, name);
    RemoveNameMembers(st.names, name);
    var r := Without(st, name);
    forall i | 0 <= i < |r.names| ensures r.names[i] in r.parts {
      assert r.names[i] in r.names;
    }
  }

  /** Keeping the valid names of a list of distinct names keeps them distinct. */
  lemma {:induction false} KeepValidDistinct(names: seq<string>)
    requires Distinct(names)
    ensures Distinct(KeepValid(names))
  {
    if names != [] {
      DistinctCons(names[0], names[1..]);
      assert [names[0]] + names[1..] == names;
      KeepValidDistinct(names[1..]);
      KeepValidMembers(names[1..]);
      if names[0] in ValidCaches {
        DistinctCons(names[0], KeepValid(names[1..]));
      }
    }
  }

  /** Activation keeps exactly the valid partitions, their contents untouched, and the storage well formed. */
  lemma CleanedKeepsExactlyValid(st: Storage)
    requires WellFormed(st)
    ensures WellFormed(Cleaned(st))
    ensures forall n :: n in Cleaned(st).parts <==> n in st.parts && n in ValidCaches
    ensures forall n :: n in Cleaned(st).parts ==> Cleaned(st).parts[n] == st.parts[n]
    ensures LegacyCache !in Cleaned(st).parts
  {
    KeepValidDistinct(st.names);
    KeepValidMembers(st.names);
    var r := Cleaned(st);
    forall i | 0 <= i < |r.names| ensures r.names[i] in r.parts {
      assert r.names[i] in r.names;
    }
  }

  // ---------------------------------------------------------------------
  // The CacheStorage object the worker drives

  class CacheStorage {
    var names: seq<string>
    var parts: map<string, map<Url, Response>>

    function State(): Storage
      reads this
    {
      Storage(names, parts)
    }

    constructor (initial: Storage)
      ensures State() == initial
    {
      names := initial.names;
      parts := initial.parts;
    }

    method Open(name: string)
      modifies this
      ensures State() == WithPartition(old(State()), name)
    {
      if name !in parts {
        names := names + [name];
        parts := parts[name := map[]];
      }
    }

    method Put(name: string, url: Url, resp: Response)
      modifies this
      ensures State() == WithEntry(old(State()), name, url, resp)
    {
      Open(name);
      parts := parts[name := parts[name][url := resp]];
    }

    method Delete(name: string)
      modifies this
      ensures State() == Without(old(State()), name)
    {
      names := RemoveName(names, name);
      parts := parts - {name};
    }

    /** `caches.match(url)`: a scan of the partitions in creation order. */
    method Match(url: Url) returns (r: Option<Response>)
      ensures r == Lookup(State(), url)
    {
      var i := 0;
      while i < |names|
        invariant 0 <= i <= |names|
        invariant MatchIn(names, parts, url) == MatchIn(names[i..], parts, url)
      {
        if names[i] in parts && url in parts[names[i]] {
          return Some(parts[names[i]][url]);
        }
        assert names[i..][1..] == names[i + 1..];
        i := i + 1;
      }
      return None;
    }

    /** `cache.match(url)` on a single partition, created first. */
    method MatchInPartition(name: string, url: Url) returns (r: Option<Response>)
      modifies this
      ensures State() == WithPartition(old(State()), name)
      ensures r.Some? <==> url in parts[name]
      ensures r.Some? ==> r.value == parts[name][url]
    {
      Open(name);
      r := if url in parts[name] then Some(parts[name][url]) else None;
    }
  }

  // ---------------------------------------------------------------------
  // The worker's operations on the CacheStorage object

  method ServeNetworkFirst(caches: CacheStorage, req: Request, net: Fetch, name: string) returns (reply: Reply)
    modifies caches
    ensures Step(reply, caches.State()) == NetworkFirstStep(old(caches.State()), req, net, name)
  {
    match net {
      case Fetched(resp) =>
        if resp.Ok() {
          caches.Put(name, req.url, resp);
        }
        reply := Respond(resp);
      case NetworkError =>
        var hit := caches.Match(req.url);
        if hit.Some? {
          reply := Respond(hit.value);
        } else if req.destination == Document {
          var shell := caches.Match(OfflineShell);
          reply := if shell.Some? then Respond(shell.value) else Fail;
        } else {
          reply := Fail;
        }
    }
  }

  method ServeCacheFirst(caches: CacheStorage, req: Request, net: Fetch, name: string) returns (reply: Reply)
    modifies caches
    ensures Step(reply, caches.State()) == CacheFirstStep(old(caches.State()), req, net, name)
  {
    var hit := caches.Match(req.url);
    if hit.Some? {
      return Respond(hit.value);
    }
    match net {
      case Fetched(resp) =>
        if resp.Ok() {
          caches.Put(name, req.url, resp);
        }
        reply := Respond(resp);
      case NetworkError =>
        reply := if req.destination == Image then Respond(ImageFallback) else Fail;
    }
  }

  method ServeStaleWhileRevalidate(caches: CacheStorage, req: Request, net: Fetch, name: string) returns (reply: Reply)
    modifies caches
    ensures Step(reply, caches.State()) == StaleWhileRevalidateStep(old(caches.State()), req, net, name)
  {
    var cached := caches.MatchInPartition(name, req.url);
    if net.Fetched? && net.response.Ok() {
      caches.Put(name, req.url, net.response);
    }
    if cached.Some? {
      reply := Respond(cached.value);
    } else if net.Fetched? {
      reply := Respond(net.response);
    } else {
      reply := Fail;
    }
  }

  method HandleRequest(caches: CacheStorage, req: Request, net: Fetch) returns (reply: Reply)
    modifies caches
    ensures Step(reply, caches.State()) == HandleRequestStep(old(caches.State()), req, net)
  {
    var strategy := DetermineStrategy(req);
    var name := PartitionFor(strategy, req);
    match strategy {
      case NetworkFirst => reply := ServeNetworkFirst(caches, req, net, name);
      case CacheFirst => reply := ServeCacheFirst(caches, req, net, name);
      case StaleWhileRevalidate => reply := ServeStaleWhileRevalidate(caches, req, net, name);
    }
  }

  /** The fetch event listener. */
  method OnFetch(caches: CacheStorage, req: Request, net: Fetch) returns (h: Handling)
    modifies caches
    ensures (h, caches.State()) == FetchEventStep(old(caches.State()), req, net)
  {
    if !Intercepts(req) {
      return NotIntercepted;
    }
    var reply := HandleRequest(caches, req, net);
    h := Handled(reply);
  }

  lemma {:induction false} RemoveNameAbsent(names: seq<string>, name: string)
    requires name !in names
    ensures RemoveName(names, name) == names
  {
    if names != [] {
      RemoveNameAbsent(names[1..], name);
    }
  }

  lemma {:induction false} RemoveNameSplit(prefix: seq<string>, name: string, rest: seq<string>)
    requires name !in prefix && name !in rest
    ensures RemoveName(prefix + [name] + rest, name) == prefix + rest
  {
    if prefix == [] {
      assert ([name] + rest)[1..] == rest;
      RemoveNameAbsent(rest, name);
    } else {
      assert (prefix + [name] + rest)[1..] == prefix[1..] + [name] + rest;
      RemoveNameSplit(prefix[1..], name, rest);
    }
  }

  lemma {:induction false} KeepValidAppend(a: seq<string>, b: seq<string>)
    ensures KeepValid(a + b) == KeepValid(a) + KeepValid(b)
  {
    if a == [] {
      assert a + b == b;
    } else {
      assert (a + b)[1..] == a[1..] + b;
      KeepValidAppend(a[1..], b);
    }
  }

  /** The storage once the first `i` listed names have been examined by the clean-up. */
  function PartlyCleaned(st: Storage, i: nat): Storage
    requires i <= |st.names|
  {
    Storage(KeepValid(st.names[..i]) + st.names[i..],
            map n | n in st.parts && (n in ValidCaches || n !in st.names[..i]) :: st.parts[n])
  }

  lemma PartlyCleanedStart(st: Storage)
    requires WellFormed(st)
    ensures PartlyCleaned(st, 0) == st
  {
    assert st.names[..0] == [];
    assert st.names[0..] == st.names;
    var m := map n | n in st.parts && (n in ValidCaches || n !in st.names[..0]) :: st.parts[n];
    assert m.Keys == st.parts.Keys;
    assert m == st.parts;
  }

  lemma PartlyCleanedEnd(st: Storage)
    requires WellFormed(st)
    ensures PartlyCleaned(st, |st.names|) == Cleaned(st)
  {
    assert st.names[..|st.names|] == st.names;
    assert st.names[|st.names|..] == [];
    assert KeepValid(st.names) + [] == KeepValid(st.names);
    assert PartlyCleaned(st, |st.names|).parts.Keys == Cleaned(st).parts.Keys;
  }

  /** Examining one more name either keeps the storage or deletes that one partition. */
  lemma PartlyCleanedStep(st: Storage, i: nat)
    requires WellFormed(st) && i < |st.names|
    ensures st.names[i] in ValidCaches ==> PartlyCleaned(st, i + 1) == PartlyCleaned(st, i)
    ensures st.names[i] !in ValidCaches ==> PartlyCleaned(st, i + 1) == Without(PartlyCleaned(st, i), st.names[i])
  {
    var names := st.names;
    var name := names[i];
    assert names[..i + 1] == names[..i] + [name];
    KeepValidNamesStep(names, i);
    var before := PartlyCleaned(st, i);
    var after := PartlyCleaned(st, i + 1);
    if name in ValidCaches {
      assert after.parts.Keys == before.parts.Keys;
    } else {
      assert after.parts.Keys == before.parts.Keys - {name};
    }
  }

  lemma KeepValidNamesStep(names: seq<string>, i: nat)
    requires Distinct(names) && i < |names|
    ensures names[i] in ValidCaches ==>
      KeepValid(names[..i + 1]) + names[i + 1..] == KeepValid(names[..i]) + names[i..]
    ensures names[i] !in ValidCaches ==>
      KeepValid(names[..i + 1]) + names[i + 1..] == RemoveName(KeepValid(names[..i]) + names[i..], names[i])
  {
    var name := names[i];
    assert names[..i + 1] == names[..i] + [name];
    assert names[i..] == [name] + names[i + 1..];
    KeepValidAppend(names[..i], [name]);
    if name !in ValidCaches {
      assert name !in names[i + 1..] by {
        forall k | i + 1 <= k < |names| ensures names[k] != name { }
      }
      assert KeepValid(names[..i]) + names[i..] == KeepValid(names[..i]) + [name] + names[i + 1..];
      KeepValidMembers(names[..i]);
      RemoveNameSplit(KeepValid(names[..i]), name, names[i + 1..]);
    } else {
      assert KeepValid([name]) == [name];
    }
  }

  /** `cleanOldCaches`: delete every partition whose name is outside the valid set. */
  method CleanOldCaches(caches: CacheStorage)
    requires WellFormed(caches.State())
    modifies caches
    ensures caches.State() == Cleaned(old(caches.State()))
  {
    ghost var st0 := caches.State();
    var cacheNames := caches.names;
    PartlyCleanedStart(st0);
    var i := 0;
    while i < |cacheNames|
      invariant 0 <= i <= |cacheNames|
      invariant cacheNames == st0.names
      invariant caches.State() == PartlyCleaned(st0, i)
    {
      CleanOne(caches, cacheNames[i], st0, i);
      i := i + 1;
    }
    PartlyCleanedEnd(st0);
  }

  /** One name of the clean-up's scan: deleted when it is outside the valid set. */
  method CleanOne(caches: CacheStorage, name: string, ghost st0: Storage, ghost i: nat)
    requires WellFormed(st0) && i < |st0.names| && name == st0.names[i]
    requires caches.State() == PartlyCleaned(st0, i)
    modifies caches
    ensures caches.State() == PartlyCleaned(st0, i + 1)
  {
    PartlyCleanedStep(st0, i);
    if name !in ValidCaches {
      caches.Delete(name);
    }
  }

  /** `clearSpecificCache` */
  method ClearSpecificCache(caches: CacheStorage, name: string)
    modifies caches
    ensures caches.State() == Without(old(caches.State()), name)
  {
    caches.Delete(name);
  }

  /** `getCacheStatus`: the number of entries of every partition, keyed by name. */
  method GetCacheStatus(caches: CacheStorage) returns (status: map<string, nat>)
    requires WellFormed(caches.State())
    ensures status.Keys == caches.parts.Keys
    ensures forall n :: n in status ==> status[n] == |caches.parts[n]|
  {
    var names, parts := caches.names, caches.parts;
    status := map[];
    var i := 0;
    while i < |names|
      invariant 0 <= i <= |names|
      invariant forall j :: 0 <= j < i ==> names[j] in status
      invariant forall n :: n in status ==> n in parts && status[n] == |parts[n]|
    {
      status := status[names[i] := |parts[names[i]]|];
      i := i + 1;
    }
  }
}
