/** The in-page test suite: the SEO and accessibility checks as predicates over
    what they count, the recording of one result per registered test, and the
    summary with its percentage and colour. */
module TestSuite {
  import opened Strings

  // ---------------------------------------------------------------------
  // The checks

  /** `testMetaDescription`: 120 to 160 characters; a page without the tag is
      measured as the empty description. */
  predicate MetaDescriptionPasses(description: Option<string>)
  {
    var content := if description.Some? then description.value else "";
    120 <= |content| <= 160
  }

  /** `testTitleTag`: 30 to 60 characters. */
  predicate TitlePasses(title: string)
  {
    30 <= |title| <= 60
  }

  /** A missing description always fails, and the two windows are inclusive. */
  lemma LengthWindows(title: string)
    ensures !MetaDescriptionPasses(None)
    ensures |title| == 30 || |title| == 60 ==> TitlePasses(title)
    ensures |title| == 29 || |title| == 61 ==> !TitlePasses(title)
  {
  }

  const RequiredOgTags: seq<string> := ["og:title", "og:description", "og:image", "og:url"]

  /** The required Open Graph properties the page has, in the list's order. */
  function FoundOgTags(present: set<string>, tags: seq<string>): (found: seq<string>)
    ensures |found| <= |tags|
    ensures forall t :: t in found ==> t in present && t in tags
  {
    if tags == [] then []
    else (if tags[0] in present then [tags[0]] else []) + FoundOgTags(present, tags[1..])
  }

  /** `testOpenGraph`: every required property found. */
  predicate OpenGraphPasses(present: set<string>)
  {
    |FoundOgTags(present, RequiredOgTags)| == |RequiredOgTags|
  }

  /** The filter finds all of a list exactly when each entry is present. */
  lemma {:induction false} FoundAllIffPresent(present: set<string>, tags: seq<string>)
    ensures |FoundOgTags(present, tags)| == |tags| <==> forall t :: t in tags ==> t in present
  {
    if tags != [] {
      FoundAllIffPresent(present, tags[1..]);
      assert forall t :: t in tags ==> t == tags[0] || t in tags[1..];
    }
  }

  /** The Open Graph check passes iff the four properties are all on the page. */
  lemma OpenGraphIffAllPresent(present: set<string>)
    ensures OpenGraphPasses(present) <==>
      "og:title" in present && "og:description" in present && "og:image" in present && "og:url" in present
  {
    FoundAllIffPresent(present, RequiredOgTags);
  }

  function CountWithAlt(alts: seq<string>): (n: nat)
    ensures n <= |alts|
  {
    if alts == [] then 0 else (if Blank(alts[0]) then 0 else 1) + CountWithAlt(alts[1..])
  }

  /** `testAltText`: every image has alt text. */
  predicate AltTextPasses(alts: seq<string>)
  {
    CountWithAlt(alts) == |alts|
  }

  lemma {:induction false} AltTextIffEveryImage(alts: seq<string>)
    ensures AltTextPasses(alts) <==> forall i :: 0 <= i < |alts| ==> !Blank(alts[i])
  {
    if alts != [] {
      var rest := alts[1..];
      AltTextIffEveryImage(rest);
      assert CountWithAlt(alts) == (if Blank(alts[0]) then 0 else 1) + CountWithAlt(rest);
      assert (forall i :: 0 <= i < |alts| ==> !Blank(alts[i])) <==>
        !Blank(alts[0]) && forall i :: 0 <= i < |rest| ==> !Blank(rest[i]) by {
        assert forall i :: 0 <= i < |rest| ==> rest[i] == alts[i + 1];
      }
    }
  }

  /** `testAriaLabels`: at least nine in ten interactive elements are labelled. */
  predicate AriaPasses(labelled: nat, total: nat)
  {
    labelled as real >= total as real * 0.9
  }

  /** In whole numbers: ten times the labelled count reaches nine times the total. */
  lemma AriaRatio(labelled: nat, total: nat)
    ensures AriaPasses(labelled, total) <==> 10 * labelled >= 9 * total
    ensures AriaPasses(0, 0)
  {
  }

  // ---------------------------------------------------------------------
  // Running the suite

  /** How a registered test's function ended. */
  datatype Outcome = Returned(passed: bool) | Threw(message: string)

  datatype Status = Pass | Fail | Err

  datatype TestResult = TestResult(name: string, passed: bool, status: Status)

  /** The record `runAllTests` pushes for one test. */
  function ResultOf(name: string, o: Outcome): (r: TestResult)
    ensures r.name == name
    ensures r.status == Pass <==> o == Returned(true)
    ensures r.status == Err <==> o.Threw?
    ensures r.passed <==> r.status == Pass
  {
    match o
    case Returned(p) => TestResult(name, p, if p then Pass else Fail)
    case Threw(_) => TestResult(name, false, Err)
  }

  function Results(names: seq<string>, outcomes: seq<Outcome>): (rs: seq<TestResult>)
    requires |names| == |outcomes|
    ensures |rs| == |names|
    ensures forall i :: 0 <= i < |names| ==> rs[i] == ResultOf(names[i], outcomes[i])
  {
    seq(|names|, i requires 0 <= i < |names| => ResultOf(names[i], outcomes[i]))
  }

  function CountPassed(rs: seq<TestResult>): nat
  {
    if rs == [] then 0 else (if rs[0].passed then 1 else 0) + CountPassed(rs[1..])
  }

  function CountFailed(rs: seq<TestResult>): nat
  {
    if rs == [] then 0 else (if rs[0].passed then 0 else 1) + CountFailed(rs[1..])
  }

  /** The report's `passed` and `failed` add up to its `total`. */
  lemma {:induction false} PassedPlusFailed(rs: seq<TestResult>)
    ensures CountPassed(rs) + CountFailed(rs) == |rs|
  {
    if rs != [] {
      PassedPlusFailed(rs[1..]);
    }
  }

  /** A test that threw is counted as failed. */
  lemma {:induction false} ErrorsCountAsFailed(rs: seq<TestResult>, i: nat)
    requires i < |rs| && rs[i] == ResultOf(rs[i].name, Threw(""))
    ensures CountFailed(rs) >= 1
  {
    if i > 0 {
      ErrorsCountAsFailed(rs[1..], i - 1);
    }
  }

  /** The summary percentage: the pass ratio `100 * passed / total` rounded half
      up, computed exactly rather than as the IEEE product the script rounds; with
      no results the division is 0/0 and the percentage is NaN. */
  function SummaryPercentage(passed: nat, total: nat): (p: Option<nat>)
    requires passed <= total
    ensures p.None? <==> total == 0
    ensures p.Some? ==>
      (p.value <= 100 &&
       2 * passed * 100 < (2 * p.value + 1) * total && (2 * p.value - 1) * total <= 2 * passed * 100)
  {
    if total == 0 then None
    else
      var r := RoundDiv(passed * 100, total);
      PercentAtMostHundred(passed, total, r);
      Some(r)
  }

  lemma PercentAtMostHundred(passed: nat, total: nat, r: nat)
    requires passed <= total && total > 0
    requires (2 * r - 1) * total <= 2 * passed * 100
    ensures r <= 100
  {
    MulMono(passed, total, 200);
    if r > 100 {
      MulMono(201, 2 * r - 1, total);
    }
  }

  lemma MulMono(a: int, b: int, n: nat)
    requires a <= b
    ensures a * n <= b * n
  {
    assert b * n - a * n == (b - a) * n;
  }

  datatype Colour = Green | Yellow | Red

  /** `showSummary`'s colour: green from 80 %, yellow from 60 %, red below and for
      NaN. */
  function SummaryColour(p: Option<nat>): (c: Colour)
    ensures c == Green <==> p.Some? && p.value >= 80
    ensures c == Yellow <==> p.Some? && 60 <= p.value < 80
  {
    if p.Some? && p.value >= 80 then Green
    else if p.Some? && p.value >= 60 then Yellow
    else Red
  }

  /** The report's `summary`. */
  datatype Summary = Summary(total: nat, passed: nat, failed: nat, percentage: Option<nat>)

  function SummaryOf(rs: seq<TestResult>): (s: Summary)
    ensures s.total == |rs| && s.passed + s.failed == s.total
  {
    PassedPlusFailed(rs);
    Summary(|rs|, CountPassed(rs), CountFailed(rs), SummaryPercentage(CountPassed(rs), |rs|))
  }

  /** An empty run is shown in red; a run where every test passed, in green. */
  lemma SummaryExtremes(rs: seq<TestResult>)
    requires CountFailed(rs) == 0 && rs != []
    ensures SummaryColour(SummaryOf(rs).percentage) == Green
    ensures SummaryColour(SummaryOf([]).percentage) == Red
  {
    PassedPlusFailed(rs);
    var n := |rs|;
    assert CountPassed(rs) == n;
    var p := SummaryPercentage(n, n);
    AllPassedIsHundred(n, p.value);
  }

  /** Rounding `n / n * 100` gives 100. */
  lemma AllPassedIsHundred(n: nat, r: nat)
    requires n > 0 && 2 * n * 100 < (2 * r + 1) * n
    ensures r >= 100
  {
    if r < 100 {
      MulMono(2 * r + 1, 200, n);
    }
  }

  /** The sixteen tests `registerTests` adds, in its order. */
  const RegisteredTests: seq<string> := [
    "Performance - First Contentful Paint",
    "Performance - Largest Contentful Paint",
    "Performance - Cumulative Layout Shift",
    "SEO - Meta Description",
    "SEO - Title Tag",
    "SEO - Structured Data",
    "SEO - Open Graph",
    "Accessibility - Alt Text",
    "Accessibility - ARIA Labels",
    "Accessibility - Color Contrast",
    "Optimization - Service Worker",
    "Optimization - Lazy Loading",
    "Optimization - Font Loading",
    "Functionality - Navigation",
    "Functionality - Forms",
    "Functionality - Modal"
  ]

  class Suite {
    /** The registered tests' names, in registration order. */
    var tests: seq<string>
    var results: seq<TestResult>

    /** The constructor's `init` registers the sixteen tests before any run. */
    constructor ()
      ensures tests == RegisteredTests && results == []
    {
      tests := [];
      results := [];
      new;
      RegisterTests();
    }

    /** `registerTests`: one `addTest` per test, in the order of the source. */
    method RegisterTests()
      modifies this`tests
      ensures tests == old(tests) + RegisteredTests
    {
      AddTest("Performance - First Contentful Paint");
      AddTest("Performance - Largest Contentful Paint");
      AddTest("Performance - Cumulative Layout Shift");
      AddTest("SEO - Meta Description");
      AddTest("SEO - Title Tag");
      AddTest("SEO - Structured Data");
      AddTest("SEO - Open Graph");
      AddTest("Accessibility - Alt Text");
      AddTest("Accessibility - ARIA Labels");
      AddTest("Accessibility - Color Contrast");
      AddTest("Optimization - Service Worker");
      AddTest("Optimization - Lazy Loading");
      AddTest("Optimization - Font Loading");
      AddTest("Functionality - Navigation");
      AddTest("Functionality - Forms");
      AddTest("Functionality - Modal");
    }

    /** `addTest` */
    method AddTest(name: string)
      modifies this`tests
      ensures tests == old(tests) + [name]
    {
      tests := tests + [name];
    }

    /** `runAllTests`: start from no results and record one per registered test, in
        order; `outcomes[i]` is how the i-th test function ended. */
    method RunAllTests(outcomes: seq<Outcome>) returns (summary: Summary)
      requires |outcomes| == |tests|
      modifies this`results
      ensures results == Results(tests, outcomes)
      ensures summary == SummaryOf(results)
    {
      results := [];
      var i := 0;
      while i < |tests|
        invariant 0 <= i <= |tests|
        invariant results == Results(tests[..i], outcomes[..i])
      {
        var r := ResultOf(tests[i], outcomes[i]);
        assert Results(tests[..i + 1], outcomes[..i + 1]) == Results(tests[..i], outcomes[..i]) + [r];
        results := results + [r];
        i := i + 1;
      }
      assert tests[..i] == tests && outcomes[..i] == outcomes;
      summary := SummaryOf(results);
    }
  }
}
