/** The web-font optimiser: preload links for the two critical families,
    an idempotent rewrite of Google Fonts stylesheet addresses that adds
    `display=swap` and the Latin subsets, and a registry of the font faces
    that loaded, with a fallback stack applied for those that failed. */
module FontOptimizer {
  import opened Strings
  import ServiceWorker

  const GstaticHost := "fonts.gstatic.com"
  const DisplayParam := "display=swap"
  const SubsetParam := "subset=latin,latin-ext"
  const SystemStack := "system-ui, -apple-system, sans-serif"
  const GenericFallback := "sans-serif"

  const CriticalFamilies: seq<string> := ["Inter", "Poppins"]
  const CriticalWeights: seq<string> := ["400", "500", "600", "700"]

  // ---------------------------------------------------------------------
  // Font file addresses

  /** `family.toLowerCase().replace(/\s+/g, '')` */
  function FontSlug(family: string): (slug: string)
    ensures NoSpace(slug)
  {
    RemoveSpaces(ToLower(family))
  }

  /** The path part of a font file address. */
  function FontPath(family: string, weight: string): (p: string)
    ensures EndsWith(p, ".woff2")
  {
    var slug := FontSlug(family);
    "/s/" + slug + "/v1/" + slug + "-" + weight + ".woff2"
  }

  /** `generateOptimizedFontUrl` */
  function FontUrl(family: string, weight: string): (url: string)
    ensures url == "https://" + GstaticHost + FontPath(family, weight)
  {
    var slug := FontSlug(family);
    var rest := "/v1/" + slug + "-" + weight + ".woff2";
    assert "https://fonts.gstatic.com/s/" == "https://" + GstaticHost + "/s/";
    assert FontPath(family, weight) == "/s/" + slug + rest;
    "https://fonts.gstatic.com/s/" + slug + rest
  }

  /** A preloaded font file is served cache-first from the static partition by the
      site's service worker. */
  lemma FontFilesAreCacheFirst(family: string, weight: string, req: ServiceWorker.Request)
    requires req.hostname == GstaticHost && req.pathname == FontPath(family, weight)
    requires req.destination == ServiceWorker.Font
    ensures ServiceWorker.DetermineStrategy(req) == ServiceWorker.CacheFirst
    ensures ServiceWorker.PartitionFor(ServiceWorker.DetermineStrategy(req), req) == ServiceWorker.StaticCache
  {
    var p := req.pathname;
    assert p[|p| - 1] == '2';
  }

  // ---------------------------------------------------------------------
  // Stylesheet address rewriting

  /** Appends `param` after `&` when the address already has a query, after `?` otherwise. */
  function AddParam(href: string, param: string): (r: string)
    ensures Contains(href, "?") ==> r == href + "&" + param
    ensures !Contains(href, "?") ==> r == href + "?" + param
    ensures Contains(r, param) && Contains(r, "?")
    ensures forall sub :: Contains(href, sub) ==> Contains(r, sub)
  {
    var sep := if Contains(href, "?") then "&" else "?";
    var r := href + sep + param;
    assert r[|href| + 1..|href| + 1 + |param|] == param;
    ContainsAt(r, |href| + 1, param);
    assert Contains(r, "?") by {
      if sep == "?" {
        assert r[|href|..|href| + 1] == "?";
        ContainsAt(r, |href|, "?");
      } else {
        ContainsAppend(href, sep + param, "?");
        assert href + (sep + param) == r;
      }
    }
    forall sub | Contains(href, sub) ensures Contains(r, sub) {
      ContainsAppend(href, sep + param, sub);
      assert href + (sep + param) == r;
    }
    r
  }

  /** The `href` that `createOptimizedGoogleFontLink` builds from the original one. */
  function OptimizeHref(href: string): (r: string)
    ensures Contains(r, "display=") && Contains(r, "subset=")
    ensures href <= r
    ensures Contains(href, "display=") && Contains(href, "subset=") ==> r == href
  {
    var withDisplay := if Contains(href, "display=") then href else AddParam(href, DisplayParam);
    assert Contains(withDisplay, "display=") by {
      if !Contains(href, "display=") {
        assert DisplayParam[..8] == "display=";
        ContainsAppend("display=", DisplayParam[8..], "display=");
        assert "display=" + DisplayParam[8..] == DisplayParam;
        ContainsSuffix(withDisplay[..|withDisplay| - |DisplayParam|], DisplayParam, "display=");
        assert withDisplay[..|withDisplay| - |DisplayParam|] + DisplayParam == withDisplay;
      }
    }
    var withSubset := if Contains(withDisplay, "subset=") then withDisplay else AddParam(withDisplay, SubsetParam);
    assert Contains(withSubset, "subset=") by {
      if !Contains(withDisplay, "subset=") {
        assert SubsetParam[..7] == "subset=";
        ContainsAppend("subset=", SubsetParam[7..], "subset=");
        assert "subset=" + SubsetParam[7..] == SubsetParam;
        ContainsSuffix(withSubset[..|withSubset| - |SubsetParam|], SubsetParam, "subset=");
        assert withSubset[..|withSubset| - |SubsetParam|] + SubsetParam == withSubset;
      }
    }
    withSubset
  }

  /** Rewriting an address a second time changes nothing. */
  lemma OptimizeHrefIdempotent(href: string)
    ensures OptimizeHref(OptimizeHref(href)) == OptimizeHref(href)
  {
  }

  /** A bare stylesheet address gains both parameters, the first after `?`, the second after `&`. */
  lemma OptimizeBareHref(href: string)
    requires !Contains(href, "?") && !Contains(href, "display=") && !Contains(href, "subset=")
    ensures OptimizeHref(href) == href + "?" + DisplayParam + "&" + SubsetParam
  {
    var d := href + "?" + DisplayParam;
    assert !Contains(d, "subset=") by {
      NotContainsSubset(href);
    }
  }

  /** The same, at one position of the extended address `d`. */
  lemma NoSubsetAt(href: string, tail: string, d: string, k: nat)
    requires !Contains(href, "subset=")
    requires tail == "?" + DisplayParam && d == href + tail
    requires k <= |d|
    ensures !("subset=" <= d[k..])
  {
    if k + 7 <= |href| {
      assert d[k..][..7] == href[k..k + 7];
      if href[k..k + 7] == "subset=" {
        ContainsAt(href, k, "subset=");
      }
    } else if k + 7 <= |d| {
      var j := k + 6 - |href|;
      assert d[k..][6] == tail[j];
      if j == 8 {
        assert d[k..][0] == tail[2];
      }
    }
  }

  /** `subset=` does not occur in an address without it followed by `?display=swap`:
      an occurrence reaching into the added text would have to end on its only `=`,
      which puts an `i` where `subset=` has its `s`. */
  lemma NotContainsSubset(href: string)
    requires !Contains(href, "subset=")
    ensures !Contains(href + "?" + DisplayParam, "subset=")
  {
    var tail := "?" + DisplayParam;
    var d := href + tail;
    assert href + "?" + DisplayParam == d;
    forall k | 0 <= k <= |d| ensures !("subset=" <= d[k..]) {
      NoSubsetAt(href, tail, d, k);
    }
    if Contains(d, "subset=") {
      var k := ContainsIndex(d, "subset=");
    }
  }

  /** A position where `sub` occurs, for a string known to contain it. */
  lemma {:induction false} ContainsIndex(s: string, sub: string) returns (k: nat)
    requires Contains(s, sub)
    ensures k + |sub| <= |s| && s[k..k + |sub|] == sub && sub <= s[k..]
    decreases |s|
  {
    if sub <= s {
      k := 0;
    } else {
      var j := ContainsIndex(s[1..], sub);
      assert s[1..][j..j + |sub|] == s[j + 1..j + 1 + |sub|];
      k := j + 1;
    }
  }

  // ---------------------------------------------------------------------
  // Fallbacks

  /** `applyFallbackFont`'s stack: the system stack for the two site families. */
  function FallbackFor(family: string): (stack: string)
    ensures stack == SystemStack <==> family == "Inter" || family == "Poppins"
    ensures stack == GenericFallback <==> family != "Inter" && family != "Poppins"
  {
    if family == "Inter" || family == "Poppins" then SystemStack else GenericFallback
  }

  /** The key a loaded face is registered under: `${family}-${weight}`. */
  function FontKey(family: string, weight: string): string
  {
    family + "-" + weight
  }

  datatype Face = Face(family: string, weight: string)

  /** The eight faces the Font Loading API pass loads (`fontsToLoad`). */
  const CriticalFaces: seq<Face> := [
    Face("Inter", "400"), Face("Inter", "500"), Face("Inter", "600"), Face("Inter", "700"),
    Face("Poppins", "400"), Face("Poppins", "500"), Face("Poppins", "600"), Face("Poppins", "700")
  ]

  /** The keys of all the faces. */
  function AllKeys(faces: seq<Face>): set<string>
  {
    if faces == [] then {}
    else AllKeys(faces[..|faces| - 1]) + {FontKey(faces[|faces| - 1].family, faces[|faces| - 1].weight)}
  }

  /** The keys of the faces whose load succeeded. */
  function LoadedKeys(faces: seq<Face>, succeeded: seq<bool>): (keys: set<string>)
    requires |succeeded| == |faces|
  {
    if faces == [] then {}
    else
      var n := |faces| - 1;
      LoadedKeys(faces[..n], succeeded[..n]) + (if succeeded[n] then {FontKey(faces[n].family, faces[n].weight)} else {})
  }

  lemma {:induction false} LoadedKeysMembers(faces: seq<Face>, succeeded: seq<bool>, k: string)
    requires |succeeded| == |faces|
    ensures k in LoadedKeys(faces, succeeded) <==>
      exists i :: 0 <= i < |faces| && succeeded[i] && k == FontKey(faces[i].family, faces[i].weight)
    decreases |faces|
  {
    if faces != [] {
      var n := |faces| - 1;
      LoadedKeysMembers(faces[..n], succeeded[..n], k);
      if k in LoadedKeys(faces[..n], succeeded[..n]) {
        var i :| 0 <= i < n && succeeded[..n][i] && k == FontKey(faces[..n][i].family, faces[..n][i].weight);
        assert succeeded[i] && faces[i] == faces[..n][i];
      }
      if exists i :: 0 <= i < |faces| && succeeded[i] && k == FontKey(faces[i].family, faces[i].weight) {
        var i :| 0 <= i < |faces| && succeeded[i] && k == FontKey(faces[i].family, faces[i].weight);
        if i < n {
          assert succeeded[..n][i] && faces[..n][i] == faces[i];
        }
      }
    }
  }

  /** The body class a load outcome adds: `font-<family>-loaded` or `font-<family>-error`. */
  function OutcomeClass(family: string, loaded: bool): (c: string)
    ensures "font-" <= c
  {
    "font-" + ToLower(family) + (if loaded then "-loaded" else "-error")
  }

  function OutcomeClasses(faces: seq<Face>, succeeded: seq<bool>): (classes: set<string>)
    requires |succeeded| == |faces|
  {
    if faces == [] then {}
    else
      var n := |faces| - 1;
      OutcomeClasses(faces[..n], succeeded[..n]) + {OutcomeClass(faces[n].family, succeeded[n])}
  }

  /** The fallback stacks applied, one per failed face, in order. */
  function Fallbacks(faces: seq<Face>, succeeded: seq<bool>): (stacks: seq<string>)
    requires |succeeded| == |faces|
    ensures |stacks| <= |faces|
  {
    if faces == [] then []
    else
      var n := |faces| - 1;
      Fallbacks(faces[..n], succeeded[..n]) + (if succeeded[n] then [] else [FallbackFor(faces[n].family)])
  }

  /** The preload addresses of one family, weight by weight. */
  function FamilyUrls(family: string, weights: seq<string>): (urls: seq<string>)
    ensures |urls| == |weights|
  {
    if weights == [] then [] else FamilyUrls(family, weights[..|weights| - 1]) + [FontUrl(family, weights[|weights| - 1])]
  }

  /** The preload addresses, family by family. */
  function PreloadUrls(families: seq<string>, weights: seq<string>): (urls: seq<string>)
    ensures |urls| == |families| * |weights|
  {
    if families == [] then []
    else PreloadUrls(families[..|families| - 1], weights) + FamilyUrls(families[|families| - 1], weights)
  }

  lemma FamilyUrlsStep(family: string, weights: seq<string>, w: nat)
    requires w < |weights|
    ensures FamilyUrls(family, weights[..w + 1]) == FamilyUrls(family, weights[..w]) + [FontUrl(family, weights[w])]
  {
    assert weights[..w + 1][..w] == weights[..w];
  }

  lemma PreloadUrlsStep(families: seq<string>, weights: seq<string>, f: nat)
    requires f < |families|
    ensures PreloadUrls(families[..f + 1], weights) == PreloadUrls(families[..f], weights) + FamilyUrls(families[f], weights)
  {
    assert families[..f + 1][..f] == families[..f];
  }

  lemma UnionAssoc<T>(a: set<T>, b: set<T>, c: set<T>)
    ensures a + b + c == a + (b + c)
  {
  }

  /** What the font pass has written so far: the promise keys, the loaded keys,
      the body's classes and the fallback rules. */
  datatype FontState = FontState(promises: set<string>, loaded: set<string>, classes: set<string>, rules: seq<string>)

  /** One face settling: its promise is registered, then its success or error
      callback runs. */
  function AfterFace(st: FontState, face: Face, ok: bool): FontState
  {
    var key := FontKey(face.family, face.weight);
    FontState(
      st.promises + {key},
      st.loaded + (if ok then {key} else {}),
      st.classes + {OutcomeClass(face.family, ok)},
      st.rules + (if ok then [] else [FallbackFor(face.family)]))
  }

  /** The faces settling in order. */
  function AfterFaces(st: FontState, faces: seq<Face>, succeeded: seq<bool>): FontState
    requires |succeeded| == |faces|
  {
    if faces == [] then st
    else
      var n := |faces| - 1;
      AfterFace(AfterFaces(st, faces[..n], succeeded[..n]), faces[n], succeeded[n])
  }

  lemma AfterFacesStep(st: FontState, faces: seq<Face>, succeeded: seq<bool>, i: nat)
    requires i < |faces| == |succeeded|
    ensures AfterFaces(st, faces[..i + 1], succeeded[..i + 1]) ==
      AfterFace(AfterFaces(st, faces[..i], succeeded[..i]), faces[i], succeeded[i])
  {
    assert faces[..i + 1][..i] == faces[..i];
    assert succeeded[..i + 1][..i] == succeeded[..i];
  }

  /** After the pass, the promises cover every face, the loaded keys are those of
      the faces that succeeded, each face left its outcome class, and each failed
      face appended its fallback, in order. */
  lemma {:induction false} AfterFacesFields(st: FontState, faces: seq<Face>, succeeded: seq<bool>)
    requires |succeeded| == |faces|
    ensures var r := AfterFaces(st, faces, succeeded);
      r.promises == st.promises + AllKeys(faces) &&
      r.loaded == st.loaded + LoadedKeys(faces, succeeded) &&
      r.classes == st.classes + OutcomeClasses(faces, succeeded) &&
      r.rules == st.rules + Fallbacks(faces, succeeded)
  {
    if faces != [] {
      var n := |faces| - 1;
      AfterFacesFields(st, faces[..n], succeeded[..n]);
      var key := FontKey(faces[n].family, faces[n].weight);
      UnionAssoc(st.promises, AllKeys(faces[..n]), {key});
      UnionAssoc(st.loaded, LoadedKeys(faces[..n], succeeded[..n]), if succeeded[n] then {key} else {});
      UnionAssoc(st.classes, OutcomeClasses(faces[..n], succeeded[..n]), {OutcomeClass(faces[n].family, succeeded[n])});
    }
  }

  // ---------------------------------------------------------------------
  // The optimiser object

  class Optimizer {
    var loadedFonts: set<string>
    /** The keys of `fontLoadPromises`; the promises themselves are not modelled. */
    var fontLoadPromises: set<string>
    var bodyClasses: set<string>
    /** Font-family stacks of the fallback style rules appended to the head. */
    var fallbackRules: seq<string>
    /** Addresses of the preload links appended to the head. */
    var preloads: seq<string>

    constructor ()
      ensures loadedFonts == {} && fontLoadPromises == {} && bodyClasses == {}
      ensures fallbackRules == [] && preloads == []
    {
      loadedFonts := {};
      fontLoadPromises := {};
      bodyClasses := {};
      fallbackRules := [];
      preloads := [];
    }

    /** `preloadFont`: one preload link in the head. */
    method PreloadFont(family: string, weight: string)
      modifies this`preloads
      ensures preloads == old(preloads) + [FontUrl(family, weight)]
    {
      preloads := preloads + [FontUrl(family, weight)];
    }

    /** `preloadCriticalFonts`: one preload link per critical family and weight. */
    method PreloadCriticalFonts()
      modifies this`preloads
      ensures preloads == old(preloads) + PreloadUrls(CriticalFamilies, CriticalWeights)
      ensures |preloads| == |old(preloads)| + 8
    {
      PreloadFonts(CriticalFamilies, CriticalWeights);
    }

    /** The outer `forEach` over the families. */
    method PreloadFonts(families: seq<string>, weights: seq<string>)
      modifies this`preloads
      ensures preloads == old(preloads) + PreloadUrls(families, weights)
    {
      ghost var preloads0 := preloads;
      var f := 0;
      while f < |families|
        invariant 0 <= f <= |families|
        invariant preloads == preloads0 + PreloadUrls(families[..f], weights)
      {
        PreloadUrlsStep(families, weights, f);
        PreloadFamily(families[f], weights);
        f := f + 1;
      }
      assert families[..f] == families;
    }

    /** The inner `forEach` over one family's weights. */
    method PreloadFamily(family: string, weights: seq<string>)
      modifies this`preloads
      ensures preloads == old(preloads) + FamilyUrls(family, weights)
    {
      ghost var before := preloads;
      var w := 0;
      while w < |weights|
        invariant 0 <= w <= |weights|
        invariant preloads == before + FamilyUrls(family, weights[..w])
      {
        FamilyUrlsStep(family, weights, w);
        PreloadFont(family, weights[w]);
        w := w + 1;
      }
      assert weights[..w] == weights;
    }

    /** The success callback of a face's `load()` promise: the face's key joins
        `loadedFonts`, then `onFontLoaded` adds the family's `-loaded` body class. */
    method OnFontLoaded(face: Face)
      modifies this`loadedFonts, this`bodyClasses
      ensures loadedFonts == old(loadedFonts) + {FontKey(face.family, face.weight)}
      ensures bodyClasses == old(bodyClasses) + {OutcomeClass(face.family, true)}
    {
      loadedFonts := loadedFonts + {FontKey(face.family, face.weight)};
      bodyClasses := bodyClasses + {OutcomeClass(face.family, true)};
    }

    /** `onFontError`: mark the body and apply the family's fallback. */
    method OnFontError(face: Face)
      modifies this`bodyClasses, this`fallbackRules
      ensures bodyClasses == old(bodyClasses) + {OutcomeClass(face.family, false)}
      ensures fallbackRules == old(fallbackRules) + [FallbackFor(face.family)]
    {
      bodyClasses := bodyClasses + {OutcomeClass(face.family, false)};
      fallbackRules := fallbackRules + [FallbackFor(face.family)];
    }

    function Fonts(): FontState
      reads this
    {
      FontState(fontLoadPromises, loadedFonts, bodyClasses, fallbackRules)
    }

    /** `useFontLoadingAPI`, each face's load settling with the given outcome, in order. */
    method UseFontLoadingApi(succeeded: seq<bool>)
      modifies this`loadedFonts, this`fontLoadPromises, this`bodyClasses, this`fallbackRules
      requires |succeeded| == |CriticalFaces|
      ensures fontLoadPromises == old(fontLoadPromises) + AllKeys(CriticalFaces)
      ensures loadedFonts == old(loadedFonts) + LoadedKeys(CriticalFaces, succeeded)
      ensures bodyClasses == old(bodyClasses) + OutcomeClasses(CriticalFaces, succeeded)
      ensures fallbackRules == old(fallbackRules) + Fallbacks(CriticalFaces, succeeded)
    {
      ghost var st0 := Fonts();
      LoadFaces(CriticalFaces, succeeded);
      AfterFacesFields(st0, CriticalFaces, succeeded);
    }

    /** The `forEach` over the faces to load. */
    method LoadFaces(faces: seq<Face>, succeeded: seq<bool>)
      modifies this`loadedFonts, this`fontLoadPromises, this`bodyClasses, this`fallbackRules
      requires |succeeded| == |faces|
      ensures Fonts() == AfterFaces(old(Fonts()), faces, succeeded)
    {
      ghost var st0 := Fonts();
      var i := 0;
      while i < |faces|
        invariant 0 <= i <= |faces|
        invariant Fonts() == AfterFaces(st0, faces[..i], succeeded[..i])
      {
        AfterFacesStep(st0, faces, succeeded, i);
        LoadFace(faces[i], succeeded[i]);
        i := i + 1;
      }
      assert faces[..i] == faces;
      assert succeeded[..i] == succeeded;
    }

    /** One face: register its load promise, then run the callback its outcome calls. */
    method LoadFace(face: Face, loaded: bool)
      modifies this`loadedFonts, this`fontLoadPromises, this`bodyClasses, this`fallbackRules
      ensures Fonts() == AfterFace(old(Fonts()), face, loaded)
    {
      fontLoadPromises := fontLoadPromises + {FontKey(face.family, face.weight)};
      if loaded {
        OnFontLoaded(face);
      } else {
        OnFontError(face);
      }
    }

    /** `isFontLoaded` */
    method IsFontLoaded(family: string, weight: string) returns (loaded: bool)
      ensures loaded <==> FontKey(family, weight) in loadedFonts
    {
      loaded := FontKey(family, weight) in loadedFonts;
    }

    /** `destroy` */
    method Destroy()
      modifies this
      ensures loadedFonts == {} && fontLoadPromises == {}
      ensures bodyClasses == old(bodyClasses) && fallbackRules == old(fallbackRules) && preloads == old(preloads)
    {
      loadedFonts := {};
      fontLoadPromises := {};
    }
  }

  /** After the loading pass, a face counts as loaded exactly when its own load succeeded. */
  lemma LoadedExactlyWhenSucceeded(succeeded: seq<bool>, i: nat)
    requires |succeeded| == 8 && i < 8
    ensures var f := CriticalFaces[i];
      FontKey(f.family, f.weight) in LoadedKeys(CriticalFaces, succeeded) <==> succeeded[i]
  {
    var faces := CriticalFaces;
    var f := faces[i];
    LoadedKeysMembers(faces, succeeded, FontKey(f.family, f.weight));
    if FontKey(f.family, f.weight) in LoadedKeys(faces, succeeded) {
      var j :| 0 <= j < 8 && succeeded[j] && FontKey(f.family, f.weight) == FontKey(faces[j].family, faces[j].weight);
      FontKeyInjective(i, j);
    }
  }

  /** The eight critical faces have eight different keys. */
  lemma FontKeyInjective(i: nat, j: nat)
    requires i < 8 && j < 8
    requires FontKey(CriticalFaces[i].family, CriticalFaces[i].weight)
          == FontKey(CriticalFaces[j].family, CriticalFaces[j].weight)
    ensures i == j
  {
    var a := FontKey(CriticalFaces[i].family, CriticalFaces[i].weight);
    var b := FontKey(CriticalFaces[j].family, CriticalFaces[j].weight);
    assert |a| == |b|;
    assert a[0] == b[0];
    assert a[|a| - 3] == b[|b| - 3];
  }
}
