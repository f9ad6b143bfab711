/**
 * Status classification: a list of tests is scanned three times, emitting every `pass` test as
 * success, then every `fail` test as failed, then every `pending` test as skipped. Nothing makes
 * the flags exclusive: a test with k true flags is emitted k times, one with none is dropped.
 */
module Classification {
  import opened MochawesomeTypes
  import opened TestResults

  /** A test handed to processTest together with the status it is processed with. */
  datatype Emission = Emission(test: MochawesomeJsonTest, status: TestExecutionResult)

  /** The flag each scan filters on. */
  predicate HasFlag(test: MochawesomeJsonTest, status: TestExecutionResult) {
    match status
    case Success => test.pass
    case Failed => test.fail
    case Skipped => test.pending
  }

  /** Position of a status in the emission order. */
  function Rank(status: TestExecutionResult): nat {
    match status
    case Success => 0
    case Failed => 1
    case Skipped => 2
  }

  /** `tests.filter(...)` for one scan. */
  function Flagged(tests: seq<MochawesomeJsonTest>, status: TestExecutionResult): seq<MochawesomeJsonTest>
  {
    if tests == [] then []
    else
      var last := tests[|tests| - 1];
      Flagged(tests[..|tests| - 1], status) + if HasFlag(last, status) then [last] else []
  }

  /** The filter keeps every occurrence of a flagged test and nothing else. */
  lemma {:induction false} FlaggedCount(tests: seq<MochawesomeJsonTest>, status: TestExecutionResult, t: MochawesomeJsonTest)
    ensures multiset(Flagged(tests, status))[t] == if HasFlag(t, status) then multiset(tests)[t] else 0
  {
    if tests != [] {
      var init := tests[..|tests| - 1];
      assert tests == init + [tests[|tests| - 1]];
      FlaggedCount(init, status, t);
    }
  }

  /** The filter keeps list order: filtering a concatenation filters each part in turn. */
  lemma {:induction false} FlaggedAppend(a: seq<MochawesomeJsonTest>, b: seq<MochawesomeJsonTest>, status: TestExecutionResult)
    ensures Flagged(a + b, status) == Flagged(a, status) + Flagged(b, status)
  {
    if b == [] {
      assert a + b == a;
    } else {
      var init := b[..|b| - 1];
      assert (a + b)[..|a + b| - 1] == a + init;
      assert (a + b)[|a + b| - 1] == b[|b| - 1];
      FlaggedAppend(a, init, status);
    }
  }

  /** The selected tests, each paired with the status of its scan. */
  function Tagged(tests: seq<MochawesomeJsonTest>, status: TestExecutionResult): (r: seq<Emission>)
    ensures |r| == |tests|
  {
    if tests == [] then []
    else Tagged(tests[..|tests| - 1], status) + [Emission(tests[|tests| - 1], status)]
  }

  lemma {:induction false} TaggedStatus(tests: seq<MochawesomeJsonTest>, status: TestExecutionResult)
    ensures forall e :: e in Tagged(tests, status) ==> e.status == status
  {
    if tests != [] {
      TaggedStatus(tests[..|tests| - 1], status);
    }
  }

  lemma TaggedPrefix(tests: seq<MochawesomeJsonTest>, i: nat, status: TestExecutionResult)
    requires i < |tests|
    ensures Tagged(tests[..i + 1], status) == Tagged(tests[..i], status) + [Emission(tests[i], status)]
  {
    assert tests[..i + 1][..i] == tests[..i];
  }

  /** `processAllTests(tests)`: the three scans, in order. */
  function Classified(tests: seq<MochawesomeJsonTest>): seq<Emission> {
    Tagged(Flagged(tests, Success), Success)
    + Tagged(Flagged(tests, Failed), Failed)
    + Tagged(Flagged(tests, Skipped), Skipped)
  }

  lemma {:induction false} TaggedCount(tests: seq<MochawesomeJsonTest>, status: TestExecutionResult, t: MochawesomeJsonTest, s: TestExecutionResult)
    ensures multiset(Tagged(tests, status))[Emission(t, s)] == if s == status then multiset(tests)[t] else 0
  {
    if tests != [] {
      var init := tests[..|tests| - 1];
      assert tests == init + [tests[|tests| - 1]];
      TaggedCount(init, status, t, s);
    }
  }

  lemma AppendAssoc<T>(a: seq<T>, b: seq<T>, c: seq<T>)
    ensures a + b + c == a + (b + c)
  {
  }

  lemma ClassifiedAfter(done: seq<Emission>, tests: seq<MochawesomeJsonTest>)
    ensures done + Tagged(Flagged(tests, Success), Success) + Tagged(Flagged(tests, Failed), Failed)
      + Tagged(Flagged(tests, Skipped), Skipped) == done + Classified(tests)
  {
  }

  /**
   * A test is emitted with a status once per occurrence in the list when it carries that
   * status's flag, and never otherwise.
   */
  lemma ClassifiedCount(tests: seq<MochawesomeJsonTest>, t: MochawesomeJsonTest, s: TestExecutionResult)
    ensures multiset(Classified(tests))[Emission(t, s)] == if HasFlag(t, s) then multiset(tests)[t] else 0
  {
    TaggedCount(Flagged(tests, Success), Success, t, s);
    TaggedCount(Flagged(tests, Failed), Failed, t, s);
    TaggedCount(Flagged(tests, Skipped), Skipped, t, s);
    FlaggedCount(tests, s, t);
  }

  /** A test with no true flag produces nothing. */
  lemma UnflaggedDropped(tests: seq<MochawesomeJsonTest>, t: MochawesomeJsonTest)
    requires !t.pass && !t.fail && !t.pending
    ensures forall e :: e in Classified(tests) ==> e.test != t
  {
    forall e | e in Classified(tests)
      ensures e.test != t
    {
      ClassifiedCount(tests, e.test, e.status);
    }
  }

  /** All successes come first, then all failures, then all skipped tests. */
  lemma ClassifiedOrder(tests: seq<MochawesomeJsonTest>)
    ensures forall i, j :: 0 <= i < j < |Classified(tests)| ==>
      Rank(Classified(tests)[i].status) <= Rank(Classified(tests)[j].status)
  {
    var a := Tagged(Flagged(tests, Success), Success);
    var b := Tagged(Flagged(tests, Failed), Failed);
    var c := Tagged(Flagged(tests, Skipped), Skipped);
    var all := a + b + c;
    TaggedStatus(Flagged(tests, Success), Success);
    TaggedStatus(Flagged(tests, Failed), Failed);
    TaggedStatus(Flagged(tests, Skipped), Skipped);
    assert forall i :: 0 <= i < |a| ==> a[i] in a;
    assert forall i :: 0 <= i < |b| ==> b[i] in b;
    assert forall i :: 0 <= i < |c| ==> c[i] in c;
    assert forall i :: 0 <= i < |all| ==>
      all[i].status == if i < |a| then Success else if i < |a| + |b| then Failed else Skipped;
  }
}
