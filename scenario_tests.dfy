// Scenario testing: metric validations, expectation checks, the pass/fail/warning status of
// a test, and the test-suite registry with its run bookkeeping.

module ScenarioTests {
  import opened Common
  import Sorting

  // ---------------------------------------------------------------- validations

  /** A validation's expected value: a number, or a `[min, max]` pair. */
  datatype Expected = Scalar(x: real) | Range(lo: real, hi: real)

  /** A validation of one metric; a missing or empty severity means `error`. */
  datatype Validation = Validation(metric: string, operator: string, value: Expected, severity: Option<string>)

  /** The outcome of one validation or expectation check; the message text is not kept. */
  datatype Check = Check(metric: string, passed: bool, severity: string)

  function SeverityOf(v: Validation): string
  {
    if v.severity.Some? && v.severity.value != "" then v.severity.value else "error"
  }

  /** Whether a metric value meets a validation. A missing metric meets no comparison, nor does
      a comparison of a number with a pair. `None` when `within_range` is given a number,
      which cannot be destructured and so throws. */
  function Meets(value: Option<real>, operator: string, expected: Expected): Option<bool>
  {
    if operator == "less_than" then
      Some(value.Some? && expected.Scalar? && value.value < expected.x)
    else if operator == "greater_than" then
      Some(value.Some? && expected.Scalar? && value.value > expected.x)
    else if operator == "within_range" then
      if expected.Scalar? then None
      else Some(value.Some? && expected.lo <= value.value <= expected.hi)
    else if operator == "equals" then
      Some(value.Some? && expected.Scalar? && -0.01 < value.value - expected.x < 0.01)
    else Some(false)
  }

  /** `validateMetric` */
  function ValidateMetric(metrics: Obj<real>, v: Validation): Option<Check>
  {
    var passed := Meets(Get(metrics, v.metric), v.operator, v.value);
    if passed.None? then None else Some(Check(v.metric, passed.value, SeverityOf(v)))
  }

  /** `less_than` and `greater_than` are strict, `within_range` is inclusive, `equals` allows a
      difference below 0.01, and any other operator fails; the severity defaults to `error`. */
  lemma ValidateMetricSpec(metrics: Obj<real>, v: Validation)
    ensures var c := ValidateMetric(metrics, v);
      var x := Get(metrics, v.metric);
      && (c.None? <==> v.operator == "within_range" && v.value.Scalar?)
      && (c.Some? ==> c.value.metric == v.metric && c.value.severity == SeverityOf(v))
      && (c.Some? && c.value.passed ==> x.Some?)
      && (v.operator == "less_than" ==> c.Some? && (c.value.passed <==> x.Some? && v.value.Scalar? && x.value < v.value.x))
      && (v.operator == "greater_than" ==> c.Some? && (c.value.passed <==> x.Some? && v.value.Scalar? && x.value > v.value.x))
      && (v.operator == "within_range" && v.value.Range? ==>
           c.Some? && (c.value.passed <==> x.Some? && v.value.lo <= x.value <= v.value.hi))
      && (v.operator == "equals" ==> c.Some? && (c.value.passed <==> x.Some? && v.value.Scalar? && Distance(x.value, v.value.x) < 0.01))
      && (v.operator !in {"less_than", "greater_than", "within_range", "equals"} ==> c == Some(Check(v.metric, false, SeverityOf(v))))
  {
  }

  function Distance(a: real, b: real): real
  {
    if a >= b then a - b else b - a
  }

  lemma SeverityDefault(v: Validation)
    ensures v.severity.None? ==> SeverityOf(v) == "error"
    ensures v.severity.Some? && v.severity.value != "" ==> SeverityOf(v) == v.severity.value
  {
  }

  // ---------------------------------------------------------------- expectations

  /** A phase's duration in the simulated result. */
  datatype PhaseTime = PhaseTime(phase: string, duration: real)

  /** The parts of a simulated result the checks read. */
  datatype SimResult = SimResult(completionTime: real, helpers: real, phases: seq<PhaseTime>)

  /** Expected bounds; a number 0 counts as absent, as does a missing one. */
  datatype Expectations = Expectations(maxDays: Option<real>, minHelpers: Option<real>, phaseTiming: Option<Obj<Option<real>>>)

  predicate Truthy(x: Option<real>)
  {
    x.Some? && x.value != 0.0
  }

  function MaxDaysChecks(sim: SimResult, e: Expectations): seq<Check>
  {
    if Truthy(e.maxDays) then [Check("max_completion_time", sim.completionTime <= e.maxDays.value, "error")] else []
  }

  function HelperChecks(sim: SimResult, e: Expectations): seq<Check>
  {
    if Truthy(e.minHelpers) then [Check("min_helpers", sim.helpers >= e.minHelpers.value, "warning")] else []
  }

  /** The phase's maximum, when the timing expectations give it one. */
  function PhaseMax(timing: Obj<Option<real>>, phase: string): Option<real>
  {
    var m := Get(timing, phase);
    if m.Some? && Truthy(m.value) then m.value else None
  }

  function PhaseCheck(timing: Obj<Option<real>>, p: PhaseTime): Option<Check>
  {
    var m := PhaseMax(timing, p.phase);
    if m.Some? then Some(Check(p.phase + "_phase_timing", p.duration <= m.value, "warning")) else None
  }

  function PhaseChecks(sim: SimResult, e: Expectations): seq<Check>
  {
    if e.phaseTiming.None? then [] else Collect(sim.phases, p => PhaseCheck(e.phaseTiming.value, p))
  }

  /** `checkExpectations` */
  function CheckExpectations(sim: SimResult, e: Expectations): seq<Check>
  {
    MaxDaysChecks(sim, e) + HelperChecks(sim, e) + PhaseChecks(sim, e)
  }

  /** A maximum number of days gives one error-severity check on the completion time, first;
      a minimum number of helpers gives one warning-severity check on the helpers. */
  lemma ExpectationHeadSpec(sim: SimResult, e: Expectations)
    ensures var r := CheckExpectations(sim, e);
      && (Truthy(e.maxDays) ==> r[0] == Check("max_completion_time", sim.completionTime <= e.maxDays.value, "error"))
      && (Truthy(e.minHelpers) ==>
           var k := if Truthy(e.maxDays) then 1 else 0;
           r[k] == Check("min_helpers", sim.helpers >= e.minHelpers.value, "warning"))
  {
  }

  /** Phase `i` has an expected maximum, and `passed` says whether it kept to it. */
  predicate TimedAt(sim: SimResult, timing: Obj<Option<real>>, i: int, passed: bool)
    requires 0 <= i < |sim.phases|
  {
    var m := PhaseMax(timing, sim.phases[i].phase);
    m.Some? && passed == (sim.phases[i].duration <= m.value)
  }

  /** There is exactly one timing check for each phase with an expected maximum, a warning that
      passes exactly when the phase took no longer; every other check after the first two is one
      of these. */
  lemma PhaseChecksSpec(sim: SimResult, e: Expectations)
    requires e.phaseTiming.Some?
    ensures var f := (p: PhaseTime) => PhaseCheck(e.phaseTiming.value, p);
      && |PhaseChecks(sim, e)| == CountSome(sim.phases, f)
      && (forall i :: 0 <= i < |sim.phases| && PhaseMax(e.phaseTiming.value, sim.phases[i].phase).Some? ==>
           Check(sim.phases[i].phase + "_phase_timing",
             sim.phases[i].duration <= PhaseMax(e.phaseTiming.value, sim.phases[i].phase).value, "warning") in PhaseChecks(sim, e))
      && (forall c :: c in PhaseChecks(sim, e) ==>
           c.severity == "warning" && exists i :: 0 <= i < |sim.phases| && TimedAt(sim, e.phaseTiming.value, i, c.passed))
  {
    var f := (p: PhaseTime) => PhaseCheck(e.phaseTiming.value, p);
    CollectSpec(sim.phases, f);
    forall i | 0 <= i < |sim.phases| && PhaseMax(e.phaseTiming.value, sim.phases[i].phase).Some?
      ensures Check(sim.phases[i].phase + "_phase_timing",
        sim.phases[i].duration <= PhaseMax(e.phaseTiming.value, sim.phases[i].phase).value, "warning") in PhaseChecks(sim, e)
    {
      CollectHas(sim.phases, f, i);
    }
    forall c | c in PhaseChecks(sim, e)
      ensures c.severity == "warning" && exists i :: 0 <= i < |sim.phases| && TimedAt(sim, e.phaseTiming.value, i, c.passed)
    {
      var i := CollectFrom(sim.phases, f, c);
      assert TimedAt(sim, e.phaseTiming.value, i, c.passed);
    }
  }

  /** The number of expectation checks: one per present bound and one per timed phase. */
  lemma ExpectationCountSpec(sim: SimResult, e: Expectations)
    ensures |CheckExpectations(sim, e)| ==
      (if Truthy(e.maxDays) then 1 else 0) + (if Truthy(e.minHelpers) then 1 else 0)
      + (if e.phaseTiming.None? then 0 else CountSome(sim.phases, (p: PhaseTime) => PhaseCheck(e.phaseTiming.value, p)))
  {
    if e.phaseTiming.Some? {
      CollectSpec(sim.phases, (p: PhaseTime) => PhaseCheck(e.phaseTiming.value, p));
    }
  }

  // ---------------------------------------------------------------- test status

  datatype TestStatus = Passed | Failed | Warned | Errored

  predicate HasFailed(checks: seq<Check>, severity: string)
  {
    exists i :: 0 <= i < |checks| && !checks[i].passed && checks[i].severity == severity
  }

  /** Failed when a check of severity `error` failed, otherwise warning when one of severity
      `warning` failed, otherwise passed. */
  function StatusOf(checks: seq<Check>): TestStatus
  {
    if HasFailed(checks, "error") then Failed else if HasFailed(checks, "warning") then Warned else Passed
  }

  function Rank(s: TestStatus): nat
  {
    match s
    case Passed => 0
    case Warned => 1
    case Failed => 2
    case Errored => 3
  }

  /** More checks never improve a status, and a test passes exactly when every failed check has
      a severity other than `error` and `warning`. */
  lemma StatusMonotone(a: seq<Check>, b: seq<Check>)
    ensures Rank(StatusOf(a)) <= Rank(StatusOf(a + b))
    ensures StatusOf(a) == Passed <==>
      forall i :: 0 <= i < |a| && !a[i].passed ==> a[i].severity != "error" && a[i].severity != "warning"
  {
    if HasFailed(a, "error") {
      var i :| 0 <= i < |a| && !a[i].passed && a[i].severity == "error";
      assert (a + b)[i] == a[i];
    } else if HasFailed(a, "warning") {
      var i :| 0 <= i < |a| && !a[i].passed && a[i].severity == "warning";
      assert (a + b)[i] == a[i];
    }
  }

  /** What a test run yields before validation: the simulated result and the metrics drawn from
      it. */
  datatype Outcome = Outcome(sim: SimResult, metrics: Obj<real>)

  datatype Test = Test(id: string, name: string, validations: Option<seq<Validation>>, expectations: Option<Expectations>)

  /** A test's result; the failed validations go to `issues` when of severity `error` and to
      `warnings` otherwise. */
  datatype TestResult = TestResult(testId: string, status: TestStatus, checks: seq<Check>, issues: seq<Check>, warnings: seq<Check>)

  /** The validations up to the first that throws, and whether one threw. */
  function Validated(metrics: Obj<real>, vs: seq<Validation>): (seq<Check>, bool)
  {
    if vs == [] then ([], false)
    else
      var (prev, threw) := Validated(metrics, vs[..|vs| - 1]);
      if threw then (prev, true)
      else
        var c := ValidateMetric(metrics, vs[|vs| - 1]);
        if c.None? then (prev, true) else (prev + [c.value], false)
  }

  function FailedWith(cs: seq<Check>, error: bool): seq<Check>
  {
    if cs == [] then []
    else FailedWith(cs[..|cs| - 1], error) + (var c := cs[|cs| - 1]; if !c.passed && (c.severity == "error") == error then [c] else [])
  }

  function ValidatedOf(t: Test, o: Outcome): (seq<Check>, bool)
  {
    if t.validations.Some? then Validated(o.metrics, t.validations.value) else ([], false)
  }

  /** The result of a test: when a validation throws, the test is in error with the checks made
      so far; otherwise the expectation checks follow the validations and decide the status
      with them. */
  function SingleTest(t: Test, o: Outcome): TestResult
  {
    var v := ValidatedOf(t, o);
    var vc := v.0;
    if v.1 then TestResult(t.id, Errored, vc, FailedWith(vc, true), FailedWith(vc, false))
    else
      var checks := vc + (if t.expectations.Some? then CheckExpectations(o.sim, t.expectations.value) else []);
      TestResult(t.id, StatusOf(checks), checks, FailedWith(vc, true), FailedWith(vc, false))
  }

  /** A test that throws is in error; one that does not has the status of all its checks, and
      every issue and warning is a failed validation. */
  lemma SingleTestSpec(t: Test, o: Outcome)
    ensures var r := SingleTest(t, o);
      && r.testId == t.id
      && (r.status == Errored || r.status == StatusOf(r.checks))
      && (forall c :: c in r.issues ==> !c.passed && c.severity == "error" && c in r.checks)
      && (forall c :: c in r.warnings ==> !c.passed && c.severity != "error" && c in r.checks)
  {
    var vc := if t.validations.Some? then Validated(o.metrics, t.validations.value).0 else [];
    FailedWithSpec(vc, true);
    FailedWithSpec(vc, false);
  }

  lemma {:induction false} FailedWithSpec(cs: seq<Check>, error: bool)
    ensures forall c :: c in FailedWith(cs, error) ==> c in cs && !c.passed && (c.severity == "error") == error
  {
    if cs != [] { FailedWithSpec(cs[..|cs| - 1], error); }
  }

  /** `runSingleTest`, given what the simulated run yields. */
  method RunSingleTest(t: Test, o: Outcome) returns (r: TestResult)
    ensures r == SingleTest(t, o)
  {
    var checks: seq<Check> := [];
    var issues: seq<Check> := [];
    var warnings: seq<Check> := [];
    if t.validations.Some? {
      var vs := t.validations.value;
      for i := 0 to |vs|
        invariant Validated(o.metrics, vs[..i]) == (checks, false)
        invariant issues == FailedWith(checks, true) && warnings == FailedWith(checks, false)
      {
        assert vs[..i + 1][..i] == vs[..i];
        var c := ValidateMetric(o.metrics, vs[i]);
        if c.None? {
          assert Validated(o.metrics, vs[..i + 1]) == (checks, true);
          ThrewStays(o.metrics, vs, i + 1);
          assert ValidatedOf(t, o) == (checks, true);
          r := TestResult(t.id, Errored, checks, issues, warnings);
          assert r == SingleTest(t, o);
          return;
        }
        assert FailedWith(checks + [c.value], true) == FailedWith(checks, true) + (if !c.value.passed && c.value.severity == "error" then [c.value] else []);
        assert FailedWith(checks + [c.value], false) == FailedWith(checks, false) + (if !c.value.passed && c.value.severity != "error" then [c.value] else []);
        checks := checks + [c.value];
        if !c.value.passed {
          if c.value.severity == "error" {
            issues := issues + [c.value];
          } else {
            warnings := warnings + [c.value];
          }
        }
      }
      assert vs[..|vs|] == vs;
    }
    assert ValidatedOf(t, o) == (checks, false);
    assert issues == FailedWith(checks, true) && warnings == FailedWith(checks, false);
    if t.expectations.Some? {
      checks := checks + CheckExpectations(o.sim, t.expectations.value);
    } else {
      assert checks + [] == checks;
    }
    var status := if HasFailed(checks, "error") then Failed else if HasFailed(checks, "warning") then Warned else Passed;
    r := TestResult(t.id, status, checks, issues, warnings);
    assert status == StatusOf(checks);
  }

  /** Once a validation has thrown, the later ones are not run. */
  lemma {:induction false} ThrewStays(metrics: Obj<real>, vs: seq<Validation>, k: nat)
    requires k <= |vs| && Validated(metrics, vs[..k]).1
    ensures Validated(metrics, vs) == Validated(metrics, vs[..k])
  {
    if k < |vs| {
      var n := |vs| - 1;
      assert vs[..n][..k] == vs[..k];
      ThrewStays(metrics, vs[..n], k);
    } else {
      assert vs[..k] == vs;
    }
  }

  // ---------------------------------------------------------------- suites

  datatype SuiteStatus = SuitePassed | SuiteFailed

  datatype Summary = Summary(total: nat, passed: nat, failed: nat, warnings: nat)

  datatype SuiteResult = SuiteResult(runId: string, suiteId: string, startTime: int, endTime: int,
                                     tests: seq<TestResult>, summary: Summary, status: SuiteStatus)

  /** A registered suite; `lastRun` is the end time of its last run. */
  datatype Suite = Suite(id: string, name: string, tests: seq<Test>, created: int, lastRun: Option<int>, results: seq<SuiteResult>)

  datatype RunError = SuiteNotFound | AlreadyRunning

  datatype RunResult = Ran(result: SuiteResult) | Refused(error: RunError)

  function CountStatus(rs: seq<TestResult>, s: TestStatus): nat
  {
    if rs == [] then 0 else CountStatus(rs[..|rs| - 1], s) + (if rs[|rs| - 1].status == s then 1 else 0)
  }

  /** The counts of passed, failed and warning tests never exceed the number of tests. */
  lemma {:induction false} CountsBounded(rs: seq<TestResult>)
    ensures CountStatus(rs, Passed) + CountStatus(rs, Failed) + CountStatus(rs, Warned) <= |rs|
  {
    if rs != [] { CountsBounded(rs[..|rs| - 1]); }
  }

  /** The last ten of a suite's results. */
  function LastTen(rs: seq<SuiteResult>): (r: seq<SuiteResult>)
    ensures |r| <= 10 && |r| <= |rs|
    ensures r == rs[|rs| - |r|..]
    ensures |rs| <= 10 ==> r == rs
  {
    if |rs| > 10 then rs[|rs| - 10..] else rs
  }

  function StartKey(r: SuiteResult): real
  {
    r.startTime as real
  }

  /** The end of `slice(0, limit)` on a sequence of length `n`; a negative limit counts from
      the end. */
  function SliceEnd(limit: int, n: nat): (e: nat)
    ensures e <= n
    ensures limit >= 0 ==> e == (if limit < n then limit else n)
    ensures limit < 0 ==> e == (if n + limit > 0 then n + limit else 0)
  {
    if limit >= 0 then (if limit < n then limit else n)
    else if n + limit > 0 then n + limit else 0
  }

  class ScenarioTestManager {
    var testSuites: Obj<Suite>
    var testResults: seq<SuiteResult>
    var isRunning: bool
    var currentTest: Option<Test>

    constructor ()
      ensures testSuites == [] && testResults == [] && !isRunning && currentTest.None?
    {
      testSuites := [];
      testResults := [];
      isRunning := false;
      currentTest := None;
    }

    /** Registers a suite under the id, replacing one already there, with no run yet. */
    method AddTestSuite(id: string, name: string, tests: seq<Test>, now: int)
      modifies this
      ensures testSuites == Put(old(testSuites), id, Suite(id, name, tests, now, None, []))
      ensures testResults == old(testResults) && isRunning == old(isRunning) && currentTest == old(currentTest)
    {
      testSuites := Put(testSuites, id, Suite(id, name, tests, now, None, []));
    }

    /** Runs every test of a suite in order, given what each simulated run yields, counts the
        outcomes, and records the result with the suite (keeping its last ten) and in the
        history. An unknown suite, or a run already in progress, is refused with no change. */
    method RunTestSuite(suiteId: string, simulate: Test -> Outcome, start: int, end: int) returns (r: RunResult)
      modifies this
      ensures Get(old(testSuites), suiteId).None? ==> r == Refused(SuiteNotFound)
      ensures Get(old(testSuites), suiteId).Some? && old(isRunning) ==> r == Refused(AlreadyRunning)
      ensures r.Refused? ==>
        testSuites == old(testSuites) && testResults == old(testResults) && isRunning == old(isRunning) && currentTest == old(currentTest)
      ensures Get(old(testSuites), suiteId).Some? && !old(isRunning) ==>
        var suite := Get(old(testSuites), suiteId).value;
        && r.Ran?
        && r.result.tests == seq(|suite.tests|, i requires 0 <= i < |suite.tests| => SingleTest(suite.tests[i], simulate(suite.tests[i])))
        && r.result.summary == Summary(|suite.tests|, CountStatus(r.result.tests, Passed), CountStatus(r.result.tests, Failed), CountStatus(r.result.tests, Warned))
        && (r.result.status == SuiteFailed <==> r.result.summary.failed > 0)
        && r.result.suiteId == suiteId && r.result.startTime == start && r.result.endTime == end
        && testSuites == Put(old(testSuites), suiteId, suite.(lastRun := Some(end), results := LastTen(suite.results + [r.result])))
        && testResults == old(testResults) + [r.result]
        && !isRunning && currentTest.None?
    {
      var found := Get(testSuites, suiteId);
      if found.None? {
        return Refused(SuiteNotFound);
      }
      if isRunning {
        return Refused(AlreadyRunning);
      }
      var suite := found.value;
      isRunning := true;
      var runId := suiteId + "_" + IntToString(start);
      var results, passed, failed, warnings := RunTests(suite.tests, simulate);
      var summary := Summary(|suite.tests|, passed, failed, warnings);
      var result := SuiteResult(runId, suiteId, start, end, results, summary, if failed > 0 then SuiteFailed else SuitePassed);
      testSuites := Put(testSuites, suiteId, suite.(lastRun := Some(end), results := LastTen(suite.results + [result])));
      isRunning := false;
      currentTest := None;
      testResults := testResults + [result];
      r := Ran(result);
    }

    /** Runs the tests in order, each in turn the current test, and counts their outcomes. */
    method RunTests(tests: seq<Test>, simulate: Test -> Outcome) returns (results: seq<TestResult>, passed: nat, failed: nat, warnings: nat)
      modifies this`currentTest
      ensures results == seq(|tests|, i requires 0 <= i < |tests| => SingleTest(tests[i], simulate(tests[i])))
      ensures passed == CountStatus(results, Passed) && failed == CountStatus(results, Failed)
      ensures warnings == CountStatus(results, Warned)
    {
      results := [];
      passed, failed, warnings := 0, 0, 0;
      for i := 0 to |tests|
        invariant |results| == i
        invariant forall j :: 0 <= j < i ==> results[j] == SingleTest(tests[j], simulate(tests[j]))
        invariant passed == CountStatus(results, Passed) && failed == CountStatus(results, Failed)
        invariant warnings == CountStatus(results, Warned)
      {
        var test := tests[i];
        currentTest := Some(test);
        var tr := RunSingleTest(test, simulate(test));
        assert (results + [tr])[..i] == results;
        results := results + [tr];
        assert forall j :: 0 <= j < i + 1 ==> results[j] == SingleTest(tests[j], simulate(tests[j]));
        if tr.status == Passed {
          passed := passed + 1;
        } else if tr.status == Failed {
          failed := failed + 1;
        } else if tr.status == Warned {
          warnings := warnings + 1;
        }
      }
    }

    /** Sorts the history by start time, latest first (in place, as the source does), and
        returns up to `limit` of it. */
    method GetRecentResults(limit: int) returns (recent: seq<SuiteResult>)
      modifies this
      ensures testResults == Sorting.SortDesc(old(testResults), StartKey)
      ensures recent == testResults[..SliceEnd(limit, |testResults|)]
      ensures testSuites == old(testSuites) && isRunning == old(isRunning) && currentTest == old(currentTest)
    {
      testResults := Sorting.SortDesc(testResults, StartKey);
      recent := testResults[..SliceEnd(limit, |testResults|)];
    }
  }

  /** The recent results are at most `limit` (when non-negative) results of the history, latest
      first. */
  lemma RecentResultsSpec(history: seq<SuiteResult>, limit: int)
    ensures var sorted := Sorting.SortDesc(history, StartKey);
      var recent := sorted[..SliceEnd(limit, |sorted|)];
      && (limit >= 0 ==> |recent| <= limit)
      && |recent| <= |history|
      && Sorting.NonIncreasing(recent, StartKey)
      && multiset(recent) <= multiset(history)
      && (forall i, j :: 0 <= i < j < |recent| ==> recent[i].startTime >= recent[j].startTime)
  {
    var sorted := Sorting.SortDesc(history, StartKey);
    var e := SliceEnd(limit, |sorted|);
    Sorting.TakeSorted(sorted, StartKey, e);
    assert sorted[..e] == sorted[..if e < |sorted| then e else |sorted|];
  }
}
