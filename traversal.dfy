/**
 * The order in which the parser hands test lists to the three scans. Only `results[0]` is read:
 * first its suiteless tests (when there are any), then, for each top-level suite, its own tests
 * followed by the tests of its first child suite. Children at index 1 and beyond, and the
 * children of the first child, are never visited.
 */
module Traversal {
  import opened MochawesomeTypes
  import opened TestResults
  import opened Classification

  /**
   * The nested walk only ends when the first child of every top-level suite has no children of
   * its own; otherwise it re-enters the same child until the call stack overflows.
   */
  predicate NestedWalkTerminates(report: MochawesomeJson) {
    |report.results| > 0 ==>
      var suites := report.results[0].suites;
      forall i :: 0 <= i < |suites| && |suites[i].suites| > 0 ==> suites[i].suites[0].suites == []
  }

  /** One top-level suite: its own tests, then (the nested walk) its first child's tests. */
  function SuiteTestLists(suite: MochawesomeJsonSuite): seq<seq<MochawesomeJsonTest>> {
    [suite.tests] + if |suite.suites| > 0 then [suite.suites[0].tests] else []
  }

  function SuitesTestLists(suites: seq<MochawesomeJsonSuite>): seq<seq<MochawesomeJsonTest>> {
    if suites == [] then []
    else SuitesTestLists(suites[..|suites| - 1]) + SuiteTestLists(suites[|suites| - 1])
  }

  /** The suiteless tests of a result, processed only when there are any. */
  function SuitelessTestLists(results: MochawesomeJsonResult): seq<seq<MochawesomeJsonTest>> {
    if |results.tests| > 0 then [results.tests] else []
  }

  /** The test lists processed, in processing order. */
  function TestLists(report: MochawesomeJson): seq<seq<MochawesomeJsonTest>> {
    if |report.results| == 0 then []
    else SuitelessTestLists(report.results[0]) + SuitesTestLists(report.results[0].suites)
  }

  /** Every list classified in turn. */
  function EmitAll(lists: seq<seq<MochawesomeJsonTest>>): seq<Emission> {
    if lists == [] then []
    else EmitAll(lists[..|lists| - 1]) + Classified(lists[|lists| - 1])
  }

  /** Everything processTest is called with, in call order. */
  function Emissions(report: MochawesomeJson): seq<Emission> {
    EmitAll(TestLists(report))
  }

  /** What one top-level suite contributes: its own tests, then its first child's. */
  function SuiteEmissions(suite: MochawesomeJsonSuite): seq<Emission> {
    Classified(suite.tests) + if |suite.suites| > 0 then Classified(suite.suites[0].tests) else []
  }

  lemma EmitAllSuite(suite: MochawesomeJsonSuite)
    ensures EmitAll(SuiteTestLists(suite)) == SuiteEmissions(suite)
  {
    assert EmitAll([suite.tests]) == Classified(suite.tests) by {
      assert [suite.tests][..0] == [];
    }
    if |suite.suites| > 0 {
      assert [suite.tests, suite.suites[0].tests][..1] == [suite.tests];
    }
  }

  /** The emissions of the suiteless tests and of the first `i` top-level suites. */
  function EmittedUpTo(results: MochawesomeJsonResult, i: nat): seq<Emission>
    requires i <= |results.suites|
  {
    EmitAll(SuitelessTestLists(results) + SuitesTestLists(results.suites[..i]))
  }

  lemma EmittedUpToStart(results: MochawesomeJsonResult)
    ensures EmittedUpTo(results, 0) == if |results.tests| > 0 then Classified(results.tests) else []
  {
    assert results.suites[..0] == [];
    assert SuitesTestLists([]) == [];
    assert SuitelessTestLists(results) + [] == SuitelessTestLists(results);
    if |results.tests| > 0 {
      assert [results.tests][..0] == [];
      assert EmitAll([results.tests]) == EmitAll([]) + Classified(results.tests);
    }
  }

  lemma EmittedUpToStep(results: MochawesomeJsonResult, i: nat)
    requires i < |results.suites|
    ensures EmittedUpTo(results, i + 1) == EmittedUpTo(results, i) + SuiteEmissions(results.suites[i])
  {
    var before := SuitelessTestLists(results) + SuitesTestLists(results.suites[..i]);
    assert results.suites[..i + 1][..i] == results.suites[..i];
    assert SuitelessTestLists(results) + SuitesTestLists(results.suites[..i + 1])
      == before + SuiteTestLists(results.suites[i]);
    EmitAllAppend(before, SuiteTestLists(results.suites[i]));
    EmitAllSuite(results.suites[i]);
  }

  lemma EmittedUpToEnd(report: MochawesomeJson)
    requires |report.results| > 0
    ensures Emissions(report) == EmittedUpTo(report.results[0], |report.results[0].suites|)
  {
    assert report.results[0].suites[..|report.results[0].suites|] == report.results[0].suites;
  }

  /** The tests of all visited lists, in order. */
  function Visited(lists: seq<seq<MochawesomeJsonTest>>): seq<MochawesomeJsonTest> {
    if lists == [] then [] else Visited(lists[..|lists| - 1]) + lists[|lists| - 1]
  }

  lemma {:induction false} EmitAllAppend(a: seq<seq<MochawesomeJsonTest>>, b: seq<seq<MochawesomeJsonTest>>)
    ensures EmitAll(a + b) == EmitAll(a) + EmitAll(b)
  {
    if b != [] {
      var init := b[..|b| - 1];
      assert a + b == (a + init) + [b[|b| - 1]];
      assert (a + b)[..|a + b| - 1] == a + init;
      EmitAllAppend(a, init);
    } else {
      assert a + b == a;
    }
  }

  /**
   * Over the whole traversal, a test is emitted with a status once per visit when it carries
   * that status's flag, and never otherwise.
   */
  lemma {:induction false} EmitAllCount(lists: seq<seq<MochawesomeJsonTest>>, t: MochawesomeJsonTest, s: TestExecutionResult)
    ensures multiset(EmitAll(lists))[Emission(t, s)] == if HasFlag(t, s) then multiset(Visited(lists))[t] else 0
  {
    if lists != [] {
      EmitAllCount(lists[..|lists| - 1], t, s);
      ClassifiedCount(lists[|lists| - 1], t, s);
    }
  }

  /** Every emission is of a visited test carrying its status's flag. */
  lemma EmittedIsFlagged(lists: seq<seq<MochawesomeJsonTest>>, e: Emission)
    requires e in EmitAll(lists)
    ensures e.test in Visited(lists) && HasFlag(e.test, e.status)
  {
    EmitAllCount(lists, e.test, e.status);
    assert e.test in multiset(Visited(lists));
  }

  /** Every visited test is emitted with each status whose flag it carries. */
  lemma FlaggedIsEmitted(lists: seq<seq<MochawesomeJsonTest>>, t: MochawesomeJsonTest, s: TestExecutionResult)
    requires t in Visited(lists)
    ensures HasFlag(t, s) ==> Emission(t, s) in EmitAll(lists)
  {
    EmitAllCount(lists, t, s);
    assert t in multiset(Visited(lists));
  }

  /** A report yields no emission exactly when no visited test has a true flag. */
  lemma EmissionsEmpty(report: MochawesomeJson)
    ensures Emissions(report) == [] <==>
      forall t :: t in Visited(TestLists(report)) ==> !t.pass && !t.fail && !t.pending
  {
    var lists := TestLists(report);
    if Emissions(report) != [] {
      EmittedIsFlagged(lists, Emissions(report)[0]);
    } else {
      forall t | t in Visited(lists)
        ensures !t.pass && !t.fail && !t.pending
      {
        FlaggedIsEmitted(lists, t, Success);
        FlaggedIsEmitted(lists, t, Failed);
        FlaggedIsEmitted(lists, t, Skipped);
      }
    }
  }

  /** The suites agree on everything the walk reads: own tests and first child's tests. */
  predicate SameFirstChildren(a: seq<MochawesomeJsonSuite>, b: seq<MochawesomeJsonSuite>) {
    && |a| == |b|
    && forall i :: 0 <= i < |a| ==>
      && a[i].tests == b[i].tests
      && (|a[i].suites| > 0 <==> |b[i].suites| > 0)
      && (|a[i].suites| > 0 ==> a[i].suites[0].tests == b[i].suites[0].tests)
  }

  /**
   * Of two reports the walk finishes on, only `results[0]` is read, and of its suites only
   * their own tests and their first child's tests: changing later results, or children at
   * index 1 and beyond with everything under them, changes nothing.
   */
  lemma {:induction false} EmissionsReadOnlyFirstChildren(r1: MochawesomeJson, r2: MochawesomeJson)
    requires |r1.results| > 0 && |r2.results| > 0
    requires NestedWalkTerminates(r1) && NestedWalkTerminates(r2)
    requires r1.results[0].tests == r2.results[0].tests
    requires SameFirstChildren(r1.results[0].suites, r2.results[0].suites)
    ensures Emissions(r1) == Emissions(r2)
  {
    SuitesTestListsFirstChildren(r1.results[0].suites, r2.results[0].suites);
  }

  /**
   * For suites whose first children have no children of their own, the visited lists depend
   * only on each suite's own tests and its first child's tests.
   */
  lemma {:induction false} SuitesTestListsFirstChildren(a: seq<MochawesomeJsonSuite>, b: seq<MochawesomeJsonSuite>)
    requires forall i :: 0 <= i < |a| && |a[i].suites| > 0 ==> a[i].suites[0].suites == []
    requires forall i :: 0 <= i < |b| && |b[i].suites| > 0 ==> b[i].suites[0].suites == []
    requires SameFirstChildren(a, b)
    ensures SuitesTestLists(a) == SuitesTestLists(b)
  {
    if a != [] {
      SuitesTestListsFirstChildren(a[..|a| - 1], b[..|b| - 1]);
    }
  }

  /**
   * Every top-level suite's own tests are visited, and every visited suite list is the tests of
   * a top-level suite or of its first child.
   */
  lemma {:induction false} SuitesTestListsMembers(suites: seq<MochawesomeJsonSuite>)
    ensures forall i :: 0 <= i < |suites| ==> suites[i].tests in SuitesTestLists(suites)
    ensures forall l :: l in SuitesTestLists(suites) ==>
      exists i :: 0 <= i < |suites| && (l == suites[i].tests || (|suites[i].suites| > 0 && l == suites[i].suites[0].tests))
  {
    if suites != [] {
      var init := suites[..|suites| - 1];
      SuitesTestListsMembers(init);
      assert forall i :: 0 <= i < |init| ==> init[i] == suites[i];
    }
  }
}
