/**
 * The decoded mochawesome report, as the parser reads it.
 * Two fields the interfaces in mochawesome-json-types.ts omit but the parser reads are added:
 * `tests` on a result and `suites` on a suite. A list is a sequence, and the empty sequence is
 * the empty array. Where the parser guards the read with `?.length > 0` (`results.tests`,
 * `results.suites` and the children of a first child suite) an absent list behaves like the
 * empty one, so the empty sequence stands for both. At the unguarded reads (a suite's own
 * `tests`, its `suites`, and the first child's `tests`) an absent list makes the parser throw;
 * that input has no representation here, and the empty sequence is only the empty array, which
 * the parser accepts.
 */
module MochawesomeTypes {
  import opened Wrappers

  datatype MochawesomeJson = MochawesomeJson(stats: MochawesomeJsonStat, results: seq<MochawesomeJsonResult>)

  datatype MochawesomeJsonStat = MochawesomeJsonStat(duration: int)

  datatype MochawesomeJsonResult = MochawesomeJsonResult(
    suites: seq<MochawesomeJsonSuite>,
    fullFile: string,
    tests: seq<MochawesomeJsonTest>)

  datatype MochawesomeJsonSuite = MochawesomeJsonSuite(
    tests: seq<MochawesomeJsonTest>,
    suites: seq<MochawesomeJsonSuite>)

  datatype MochawesomeJsonTest = MochawesomeJsonTest(
    title: string,
    fullTitle: string,
    duration: Option<int>,
    pass: bool,
    fail: bool,
    pending: bool,
    err: MochawesomeJsonTestError)

  /** `estack` absent (undefined) is `None`; an empty stack string is `Some("")`. */
  datatype MochawesomeJsonTestError = MochawesomeJsonTestError(message: string, estack: Option<string>)
}
