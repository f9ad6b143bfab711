/**
 * The framework-agnostic result model the parser builds: a run holds suites, a suite holds
 * groups, a group holds test cases. A suite is an object whose group list the parser extends in
 * place; a group is a value that is replaced whenever a test case is appended to it.
 */
module TestResults {
  import opened Wrappers

  /** 'success' | 'failed' | 'skipped' */
  datatype TestExecutionResult = Success | Failed | Skipped

  /** `path` and `line` are undefined when no source location was found. */
  datatype TestCaseError = TestCaseError(path: Option<string>, line: Option<int>, message: string, details: string)

  datatype TestCaseResult = TestCaseResult(
    name: string,
    result: TestExecutionResult,
    time: int,
    error: Option<TestCaseError>)

  /** A group name of `None` is the ungrouped (null-named) group. */
  datatype TestGroupResult = TestGroupResult(name: Option<string>, tests: seq<TestCaseResult>)

  class TestSuiteResult {
    const name: string
    var groups: seq<TestGroupResult>

    constructor (name: string, groups: seq<TestGroupResult>)
      ensures this.name == name && this.groups == groups
    {
      this.name := name;
      this.groups := groups;
    }
  }

  datatype TestRunResult = TestRunResult(path: string, suites: seq<TestSuiteResult>, time: int)
}
