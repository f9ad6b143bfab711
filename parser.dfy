/**
 * MochawesomeJsonParser: turns a decoded mochawesome report into one run of suites, groups and
 * test cases. All emitted tests go to a single suite, keyed by the relative path of
 * `results[0].fullFile` and created when the first test is emitted.
 */
module MochawesomeParser {
  import opened Wrappers
  import opened MochawesomeTypes
  import opened TestResults
  import opened Collaborators
  import opened GroupNames
  import opened Grouping
  import opened Classification
  import opened Traversal
  import opened WorkDirs

  /**
   * The error record of a test: none exactly when `err.estack` is undefined (an empty stack
   * still gives one); otherwise the message and the stack are copied, and a path and line are
   * set only when the stack names a tracked source file.
   */
  function GetTestCaseError(test: MochawesomeJsonTest, trackedFiles: seq<string>,
                            getExceptionSource: (string, seq<string>) -> Option<ExceptionSource>): (r: Option<TestCaseError>)
    ensures r.None? <==> test.err.estack.None?
    ensures r.Some? ==> r.value.message == test.err.message && test.err.estack == Some(r.value.details)
    ensures r.Some? ==>
      var src := getExceptionSource(r.value.details, trackedFiles);
      && (r.value.path.Some? <==> src.Some?)
      && (r.value.line.Some? <==> src.Some?)
      && (src.Some? ==> r.value.path.value == src.value.path && r.value.line.value == src.value.line)
  {
    match test.err.estack
    case None => None
    case Some(details) =>
      var src := getExceptionSource(details, trackedFiles);
      var path := if src.Some? then Some(src.value.path) else None;
      var line := if src.Some? then Some(src.value.line) else None;
      Some(TestCaseError(path, line, test.err.message, details))
  }

  /** The test case emitted for a test processed with a status. */
  function TestCaseOf(e: Emission, trackedFiles: seq<string>,
                      getExceptionSource: (string, seq<string>) -> Option<ExceptionSource>): (r: TestCaseResult)
    ensures r.name == e.test.title && r.result == e.status
    ensures e.test.duration.Some? ==> r.time == e.test.duration.value
    ensures e.test.duration.None? ==> r.time == 0
    ensures r.error == GetTestCaseError(e.test, trackedFiles, getExceptionSource)
  {
    TestCaseResult(e.test.title, e.status, e.test.duration.GetOr(0), GetTestCaseError(e.test, trackedFiles, getExceptionSource))
  }

  function Placement(e: Emission, trackedFiles: seq<string>,
                     getExceptionSource: (string, seq<string>) -> Option<ExceptionSource>): Placed
  {
    Placed(GroupName(e.test), TestCaseOf(e, trackedFiles, getExceptionSource))
  }

  function Placements(es: seq<Emission>, trackedFiles: seq<string>,
                      getExceptionSource: (string, seq<string>) -> Option<ExceptionSource>): seq<Placed>
  {
    if es == [] then []
    else Placements(es[..|es| - 1], trackedFiles, getExceptionSource) + [Placement(es[|es| - 1], trackedFiles, getExceptionSource)]
  }

  lemma PlacementsSnoc(es: seq<Emission>, e: Emission, trackedFiles: seq<string>,
                       getExceptionSource: (string, seq<string>) -> Option<ExceptionSource>)
    ensures Placements(es + [e], trackedFiles, getExceptionSource)
      == Placements(es, trackedFiles, getExceptionSource) + [Placement(e, trackedFiles, getExceptionSource)]
  {
    assert (es + [e])[..|es|] == es;
  }

  /** Each emission becomes one test case, in emission order. */
  lemma {:induction false} PlacementsElements(es: seq<Emission>, trackedFiles: seq<string>,
                                              getExceptionSource: (string, seq<string>) -> Option<ExceptionSource>)
    ensures |Placements(es, trackedFiles, getExceptionSource)| == |es|
    ensures forall i :: 0 <= i < |es| ==>
      Placements(es, trackedFiles, getExceptionSource)[i] == Placement(es[i], trackedFiles, getExceptionSource)
  {
    if es != [] {
      PlacementsElements(es[..|es| - 1], trackedFiles, getExceptionSource);
    }
  }

  /**
   * The `suitesMap` object: suites by path, plus the order in which paths were first inserted,
   * which is the order `Object.values` lists them in.
   */
  datatype SuiteIndex = SuiteIndex(keys: seq<string>, byPath: map<string, TestSuiteResult>) {
    predicate Valid() {
      forall k :: k in keys ==> k in byPath
    }

    function Values(): seq<TestSuiteResult>
      requires Valid()
    {
      seq(|keys|, i requires 0 <= i < |keys| => byPath[keys[i]])
    }
  }

  class MochawesomeJsonParser {
    const options: ParseOptions
    const utils: Utils
    var assumedWorkDir: Option<string>

    constructor (options: ParseOptions, utils: Utils)
      ensures this.options == options && this.utils == utils && assumedWorkDir == None
    {
      this.options := options;
      this.utils := utils;
      assumedWorkDir := None;
    }

    /** The cases of `done`, filed by group. */
    ghost function GroupsOf(done: seq<Emission>): seq<TestGroupResult> {
      Grouped(Placements(done, options.trackedFiles, utils.getExceptionSource))
    }

    /** One more emission files one more case, under the emitted test's group name. */
    lemma GroupsOfSnoc(done: seq<Emission>, e: Emission)
      ensures GroupsOf(done + [e])
        == AddCase(GroupsOf(done), GroupName(e.test), TestCaseOf(e, options.trackedFiles, utils.getExceptionSource))
    {
      PlacementsSnoc(done, e, options.trackedFiles, utils.getExceptionSource);
      GroupedSnoc(Placements(done, options.trackedFiles, utils.getExceptionSource),
                  Placement(e, options.trackedFiles, utils.getExceptionSource));
    }

    /**
     * The suite map is empty before the first emission, and afterwards holds exactly the suite
     * created for `key`.
     */
    static predicate Shape(suitesMap: SuiteIndex, key: string, started: bool) {
      if started then
        && suitesMap.keys == [key]
        && suitesMap.byPath.Keys == {key}
        && suitesMap.byPath[key].name == key
      else suitesMap.keys == [] && suitesMap.byPath == map[]
    }

    /** `Object.values(suitesMap)` holds the one suite once it exists, and nothing before. */
    static lemma ShapeValues(suitesMap: SuiteIndex, key: string, started: bool)
      requires Shape(suitesMap, key, started)
      ensures suitesMap.Valid()
      ensures suitesMap.Values() == if started then [suitesMap.byPath[key]] else []
      ensures started ==> suitesMap.byPath[key] in suitesMap.byPath.Values
    {
    }

    /**
     * The state the closures of `getTestRunResult` share after the emissions `done`: the suite
     * key and memo are those the first `getSuite` computes for `filePath` from `memo0`; the map
     * is empty and the memo untouched until something is emitted, and afterwards the map holds
     * the one suite, whose groups are those of `done`.
     */
    ghost predicate Filed(suitesMap: SuiteIndex, filePath: string, memo0: Option<string>, key: string,
                          memo1: Option<string>, done: seq<Emission>)
      reads this, suitesMap.byPath.Values
    {
      && RelativePath(options, utils, memo0, filePath) == Relativized(key, memo1)
      && Shape(suitesMap, key, done != [])
      && (done != [] ==> suitesMap.byPath[key].groups == GroupsOf(done))
      && assumedWorkDir == if done != [] then memo1 else memo0
    }

    method GetWorkDir(path: string) returns (workDir: Option<string>)
      modifies this`assumedWorkDir
      ensures Resolution(workDir, assumedWorkDir) == ResolveWorkDir(options, utils.getBasePath, old(assumedWorkDir), path)
    {
      if options.workDir.Some? {
        workDir := options.workDir;
      } else if assumedWorkDir.Some? {
        workDir := assumedWorkDir;
      } else {
        assumedWorkDir := utils.getBasePath(path, options.trackedFiles);
        workDir := assumedWorkDir;
      }
    }

    method GetRelativePath(path: string) returns (relative: string)
      modifies this`assumedWorkDir
      ensures Relativized(relative, assumedWorkDir) == RelativePath(options, utils, old(assumedWorkDir), path)
    {
      relative := utils.normalizeFilePath(path);
      var workDir := GetWorkDir(relative);
      if workDir.Some? && workDir.value <= relative {
        relative := relative[|workDir.value|..];
      }
    }

    /**
     * The `getSuite` closure: look the suite up by relative path, creating it on first use.
     * `key` and `memo1` are what the first lookup from `memo0` computes; every later lookup
     * computes them again.
     */
    method GetSuite(suitesMap: SuiteIndex, filePath: string, ghost memo0: Option<string>,
                    ghost key: string, ghost memo1: Option<string>, ghost started: bool)
      returns (suite: TestSuiteResult, suitesMap': SuiteIndex)
      requires RelativePath(options, utils, memo0, filePath) == Relativized(key, memo1)
      requires Shape(suitesMap, key, started)
      requires assumedWorkDir == if started then memo1 else memo0
      modifies this`assumedWorkDir
      ensures Shape(suitesMap', key, true) && suite == suitesMap'.byPath[key]
      ensures assumedWorkDir == memo1
      ensures started ==> suitesMap' == suitesMap
      ensures !started ==> fresh(suite) && suite.groups == []
    {
      RelativePathSettles(options, utils, memo0, filePath);
      var path := GetRelativePath(filePath);
      if path in suitesMap.byPath {
        suite := suitesMap.byPath[path];
        suitesMap' := suitesMap;
      } else {
        suite := new TestSuiteResult(path, []);
        suitesMap' := SuiteIndex(suitesMap.keys + [path], suitesMap.byPath[path := suite]);
      }
    }

    /**
     * processTest: file one test case, processed with status `result`, under the group its
     * titles name, appending a new group only when no group has that name.
     */
    method ProcessTest(suite: TestSuiteResult, test: MochawesomeJsonTest, result: TestExecutionResult)
      modifies suite
      ensures suite.groups == AddCase(old(suite.groups), GroupName(test),
                                      TestCaseOf(Emission(test, result), options.trackedFiles, utils.getExceptionSource))
    {
      ghost var groups := suite.groups;
      var groupName := GroupName(test);
      var i := 0;
      while i < |suite.groups| && suite.groups[i].name != groupName
        invariant suite.groups == groups
        invariant i <= |suite.groups|
        invariant forall k :: 0 <= k < i ==> suite.groups[k].name != groupName
      {
        i := i + 1;
      }
      FindGroupSpec(groups, groupName);
      if i < |groups| {
        assert groups[i] in groups;
        assert FindGroup(groups, groupName) == Some(i);
      } else {
        assert forall g :: g in groups ==> g.name != groupName;
      }
      if i == |suite.groups| {
        suite.groups := suite.groups + [TestGroupResult(groupName, [])];
      }
      var error := GetTestCaseError(test, options.trackedFiles, utils.getExceptionSource);
      var testCase := TestCaseResult(test.title, result, test.duration.GetOr(0), error);
      suite.groups := suite.groups[i := suite.groups[i].(tests := suite.groups[i].tests + [testCase])];
      assert testCase == TestCaseOf(Emission(test, result), options.trackedFiles, utils.getExceptionSource);
      if i == |groups| {
        assert [] + [testCase] == [testCase];
        assert suite.groups == groups + [TestGroupResult(groupName, [testCase])];
      }
    }

    /** The callback of one scan: get the suite, then process the test into it. */
    method ProcessInSuite(suitesMap: SuiteIndex, filePath: string, test: MochawesomeJsonTest, status: TestExecutionResult,
                          ghost memo0: Option<string>, ghost key: string, ghost memo1: Option<string>, ghost done: seq<Emission>)
      returns (suitesMap': SuiteIndex)
      requires Filed(suitesMap, filePath, memo0, key, memo1, done)
      modifies this`assumedWorkDir, suitesMap.byPath.Values
      ensures Filed(suitesMap', filePath, memo0, key, memo1, done + [Emission(test, status)])
      ensures done != [] ==> suitesMap' == suitesMap
      ensures done == [] ==> fresh(suitesMap'.byPath.Values)
    {
      var suite;
      suite, suitesMap' := GetSuite(suitesMap, filePath, memo0, key, memo1, done != []);
      ghost var e := Emission(test, status);
      ghost var tc := TestCaseOf(e, options.trackedFiles, utils.getExceptionSource);
      GroupsOfSnoc(done, e);
      ghost var g0 := GroupsOf(done);
      ghost var g1 := GroupsOf(done + [e]);
      assert g1 == AddCase(g0, GroupName(test), tc);
      assert suite.groups == g0;
      ProcessTest(suite, test, status);
      assert suite.groups == g1;
      assert suitesMap'.byPath[key] == suite;
    }

    /**
     * One of the three scans of a test list: every test carrying `status`'s flag is filed, in
     * list order, into the suite `getSuite` returns. `done` is what was emitted before.
     */
    method ProcessTests(suitesMap: SuiteIndex, filePath: string, tests: seq<MochawesomeJsonTest>, status: TestExecutionResult,
                        ghost memo0: Option<string>, ghost key: string, ghost memo1: Option<string>, ghost done: seq<Emission>)
      returns (suitesMap': SuiteIndex)
      requires Filed(suitesMap, filePath, memo0, key, memo1, done)
      modifies this`assumedWorkDir, suitesMap.byPath.Values
      ensures Filed(suitesMap', filePath, memo0, key, memo1, done + Tagged(Flagged(tests, status), status))
      ensures done != [] ==> suitesMap' == suitesMap
      ensures done == [] ==> fresh(suitesMap'.byPath.Values)
    {
      var selected := Flagged(tests, status);
      suitesMap' := suitesMap;
      ghost var processed := done;
      for i := 0 to |selected|
        invariant processed == done + Tagged(selected[..i], status)
        invariant Filed(suitesMap', filePath, memo0, key, memo1, processed)
        invariant done != [] ==> suitesMap' == suitesMap
        invariant done == [] ==> fresh(suitesMap'.byPath.Values)
      {
        suitesMap' := ProcessInSuite(suitesMap', filePath, selected[i], status, memo0, key, memo1, processed);
        TaggedPrefix(selected, i, status);
        AppendAssoc(done, Tagged(selected[..i], status), [Emission(selected[i], status)]);
        processed := processed + [Emission(selected[i], status)];
      }
      assert selected[..|selected|] == selected;
    }

    /** processAllTests: the passing scan, then the failing scan, then the pending scan. */
    method ProcessAllTests(suitesMap: SuiteIndex, filePath: string, tests: seq<MochawesomeJsonTest>,
                           ghost memo0: Option<string>, ghost key: string, ghost memo1: Option<string>, ghost done: seq<Emission>)
      returns (suitesMap': SuiteIndex)
      requires Filed(suitesMap, filePath, memo0, key, memo1, done)
      modifies this`assumedWorkDir, suitesMap.byPath.Values
      ensures Filed(suitesMap', filePath, memo0, key, memo1, done + Classified(tests))
      ensures done != [] ==> suitesMap' == suitesMap
      ensures done == [] ==> fresh(suitesMap'.byPath.Values)
    {
      var passed := ProcessTests(suitesMap, filePath, tests, Success, memo0, key, memo1, done);
      ghost var done1 := done + Tagged(Flagged(tests, Success), Success);
      var failed := ProcessTests(passed, filePath, tests, Failed, memo0, key, memo1, done1);
      ghost var done2 := done1 + Tagged(Flagged(tests, Failed), Failed);
      suitesMap' := ProcessTests(failed, filePath, tests, Skipped, memo0, key, memo1, done2);
      ClassifiedAfter(done, tests);
    }

    /**
     * The callback run for each top-level suite: its own tests, then the nested walk, which reads
     * `suite.suites[nestedSuiteIterator]` with the iterator at 0 and only re-enters itself (on the
     * same index) when that child has children of its own; the precondition rules that out.
     */
    method ProcessSuite(suitesMap: SuiteIndex, filePath: string, suite: MochawesomeJsonSuite,
                        ghost memo0: Option<string>, ghost key: string, ghost memo1: Option<string>, ghost done: seq<Emission>)
      returns (suitesMap': SuiteIndex)
      requires |suite.suites| > 0 ==> suite.suites[0].suites == []
      requires Filed(suitesMap, filePath, memo0, key, memo1, done)
      modifies this`assumedWorkDir, suitesMap.byPath.Values
      ensures Filed(suitesMap', filePath, memo0, key, memo1, done + SuiteEmissions(suite))
      ensures done != [] ==> suitesMap' == suitesMap
      ensures done == [] ==> fresh(suitesMap'.byPath.Values)
    {
      suitesMap' := ProcessAllTests(suitesMap, filePath, suite.tests, memo0, key, memo1, done);
      ghost var processed := done + Classified(suite.tests);
      ghost var nested: seq<Emission> := [];
      var nestedSuiteIterator := 0;
      if nestedSuiteIterator < |suite.suites| {
        var innerSuite := suite.suites[nestedSuiteIterator];
        suitesMap' := ProcessAllTests(suitesMap', filePath, innerSuite.tests, memo0, key, memo1, processed);
        nested := Classified(innerSuite.tests);
        if |innerSuite.suites| > 0 {
          assert false;
        } else {
          nestedSuiteIterator := nestedSuiteIterator + 1;
        }
      } else {
        assert processed + nested == processed;
      }
      assert SuiteEmissions(suite) == Classified(suite.tests) + nested;
      AppendAssoc(done, Classified(suite.tests), nested);
    }

    /** The `suites.forEach` loop: every top-level suite of `results`, in order. */
    method ProcessSuites(suitesMap: SuiteIndex, results: MochawesomeJsonResult,
                         ghost memo0: Option<string>, ghost key: string, ghost memo1: Option<string>, ghost done: seq<Emission>)
      returns (suitesMap': SuiteIndex)
      requires forall i :: 0 <= i < |results.suites| && |results.suites[i].suites| > 0 ==> results.suites[i].suites[0].suites == []
      requires done == EmittedUpTo(results, 0)
      requires Filed(suitesMap, results.fullFile, memo0, key, memo1, done)
      modifies this`assumedWorkDir, suitesMap.byPath.Values
      ensures Filed(suitesMap', results.fullFile, memo0, key, memo1, EmittedUpTo(results, |results.suites|))
      ensures done != [] ==> suitesMap' == suitesMap
      ensures done == [] ==> fresh(suitesMap'.byPath.Values)
    {
      suitesMap' := suitesMap;
      ghost var processed := done;
      for i := 0 to |results.suites|
        invariant processed == EmittedUpTo(results, i)
        invariant Filed(suitesMap', results.fullFile, memo0, key, memo1, processed)
        invariant done != [] ==> suitesMap' == suitesMap
        invariant done == [] ==> fresh(suitesMap'.byPath.Values)
      {
        suitesMap' := ProcessSuite(suitesMap', results.fullFile, results.suites[i], memo0, key, memo1, processed);
        EmittedUpToStep(results, i);
        processed := processed + SuiteEmissions(results.suites[i]);
      }
    }

    /**
     * getTestRunResult: walk `results[0]` (suiteless tests, then each top-level suite followed by
     * its first child) and return the suites created on the way, with the report's duration.
     */
    method GetTestRunResult(resultsPath: string, mochawesome: MochawesomeJson) returns (run: TestRunResult)
      requires NestedWalkTerminates(mochawesome)
      modifies this`assumedWorkDir
      ensures run.path == resultsPath && run.time == mochawesome.stats.duration
      ensures Emissions(mochawesome) == [] ==> run.suites == [] && assumedWorkDir == old(assumedWorkDir)
      ensures Emissions(mochawesome) != [] ==>
        var rel := RelativePath(options, utils, old(assumedWorkDir), mochawesome.results[0].fullFile);
        && |run.suites| == 1
        && fresh(run.suites[0])
        && run.suites[0].name == rel.path
        && run.suites[0].groups == GroupsOf(Emissions(mochawesome))
        && assumedWorkDir == rel.memo
    {
      var suitesMap := SuiteIndex([], map[]);
      ghost var memo0 := assumedWorkDir;
      ghost var done: seq<Emission> := [];
      if |mochawesome.results| > 0 {
        var results := mochawesome.results[0];
        var suites := results.suites;
        var filePath := results.fullFile;
        var suitelessTests := results.tests;
        ghost var key := RelativePath(options, utils, memo0, filePath).path;
        ghost var memo1 := RelativePath(options, utils, memo0, filePath).memo;

        // Tests that are not in a suite
        if |suitelessTests| > 0 {
          suitesMap := ProcessAllTests(suitesMap, filePath, suitelessTests, memo0, key, memo1, done);
          done := done + Classified(suitelessTests);
        }
        EmittedUpToStart(results);
        ghost var created := fresh(suitesMap.byPath.Values);
        assert done != [] ==> created;

        // Tests that are in a suite
        if |suites| > 0 {
          suitesMap := ProcessSuites(suitesMap, results, memo0, key, memo1, done);
          created := fresh(suitesMap.byPath.Values);
        }
        done := EmittedUpTo(results, |suites|);
        assert done != [] ==> created;
        EmittedUpToEnd(mochawesome);
        ShapeValues(suitesMap, key, done != []);
      } else {
        ShapeValues(suitesMap, "", false);
      }
      var mappedSuites := suitesMap.Values();
      run := TestRunResult(resultsPath, mappedSuites, mochawesome.stats.duration);
    }
  }
}
