# Mochawesome JSON parser, modelled in Dafny

This project models `MochawesomeJsonParser` from the test-reporting action. The parser turns a
decoded mochawesome report into one test run. The run holds suites, a suite holds groups, and a
group holds test cases. The model covers:

- **Traversal.** Only `results[0]` is read. Its suiteless tests come first. Then each top-level
  suite's own tests come, followed by the tests of that suite's first child.
- **Classification.** Every visited test list is scanned three times: `pass` tests are emitted as
  success, then `fail` tests as failed, then `pending` tests as skipped.
- **Suites.** Suites are found or created lazily in a path-keyed map, under the relative path of
  `results[0].fullFile`.
- **Groups.** Each emitted test is filed into the group named by its title prefix. The group is
  found, or appended when missing.
- **Error records.** The optional error record is built from `err.estack`.
- **Relative paths.** They are computed by stripping a work directory. That directory is
  `options.workDir` or the parser's memoised `assumedWorkDir`.

Modules:

| file | module | contents |
|---|---|---|
| `wrappers.dfy` | `Wrappers` | `Option` |
| `mochawesome_types.dfy` | `MochawesomeTypes` | the decoded report: `MochawesomeJson`, results, suites, tests, errors |
| `test_results.dfy` | `TestResults` | the output: `TestRunResult`, the class `TestSuiteResult` whose `groups` are updated in place, groups, cases, errors |
| `collaborators.dfy` | `Collaborators` | `ParseOptions` and the three helpers the parser calls but does not define (`normalizeFilePath`, `getBasePath`, `getExceptionSource`), passed in as functions |
| `group_names.dfy` | `GroupNames` | the group-name expression (`substr` + `trimEnd`) |
| `grouping.dfy` | `Grouping` | find-or-append of groups, as a specification (`AddCase`, `Grouped`) with its lemmas |
| `classification.dfy` | `Classification` | the three filter scans |
| `traversal.dfy` | `Traversal` | the order in which test lists are visited |
| `work_dirs.dfy` | `WorkDirs` | `getWorkDir` and `getRelativePath` as functions of the memo |
| `parser.dfy` | `MochawesomeParser` | the class `MochawesomeJsonParser` with the `assumedWorkDir` field, and its methods |

How the imperative parts are modelled:

- The closures inside `getTestRunResult` are methods of the class: `getSuite`, the three scans,
  `processAllTests`, the per-suite callback and the `suites.forEach` loop.
- Each of these methods is proved against the specification functions. `Emissions(report)` is
  the sequence of (test, status) pairs handed to `processTest`. `GroupsOf(done)` is the groups
  obtained by filing those pairs one by one.
- The `suitesMap` object is a `SuiteIndex` value. It holds the insertion order of its keys and a
  map to the suite objects.

Three behaviours of the code are modelled as written:

- The three flags are not exclusive. A test is emitted once per true flag, with no precedence
  between them.
- Only `suite.suites[0]` of each top-level suite is visited. When that child has children of its
  own, `processNestedSuites` re-enters the same index until the call stack overflows.
- `options.parseErrors` is never read.

## Model

| member | source | states |
|---|---|---|
| GroupNames.IsWhitespace | src/parsers/mochawesome-json/mochawesome-json-parser.ts:122 | the characters `trimEnd` removes: tab, line feed, vertical tab, form feed, carriage return, space, no-break space, the Unicode space separators, line and paragraph separators and the byte-order mark; used by `TrimEndDropsWhitespace` and `TrimEndOfPadded` |
| GroupNames.TrimEnd | src/parsers/mochawesome-json/mochawesome-json-parser.ts:122 | `trimEnd` returns a prefix of its input that is empty or ends in a non-whitespace character |
| GroupNames.TrimEndDropsWhitespace | src/parsers/mochawesome-json/mochawesome-json-parser.ts:122 | every character `trimEnd` removes is whitespace, so the result is the longest prefix not ending in whitespace |
| GroupNames.TrimEndOfPadded | src/parsers/mochawesome-json/mochawesome-json-parser.ts:122 | trimming text followed by whitespace gives back exactly the text |
| GroupNames.CutLength | src/parsers/mochawesome-json/mochawesome-json-parser.ts:122 | the length `substr` takes is at most `|fullTitle|`, and when the title is not longer it leaves exactly `|title|` characters off the end; a longer title takes nothing |
| GroupNames.GroupName | src/parsers/mochawesome-json/mochawesome-json-parser.ts:120-123 | the group name is null exactly when `fullTitle == title`; otherwise it is a prefix of the first `|fullTitle| - |title|` characters of `fullTitle` and does not end in whitespace |
| GroupNames.GroupNameDropsWhitespace | src/parsers/mochawesome-json/mochawesome-json-parser.ts:120-123 | only whitespace lies between the group name and the cut at `|fullTitle| - |title|` |
| GroupNames.GroupNameOfJoinedTitle | src/parsers/mochawesome-json/mochawesome-json-parser.ts:120-123 | a full title built as prefix + whitespace + title yields the group named by the prefix |
| GroupNames.GroupNameOfLongTitle | src/parsers/mochawesome-json/mochawesome-json-parser.ts:120-123 | a title at least as long as a different full title gives the empty group name, not null |
| GroupNames.GroupNameIgnoresTitleText | src/parsers/mochawesome-json/mochawesome-json-parser.ts:120-123 | only the title's length matters: the code never checks that `fullTitle` ends with `title` |
| Grouping.FindGroup | src/parsers/mochawesome-json/mochawesome-json-parser.ts:125 | a found index is in range and names a group with the searched name |
| Grouping.FindGroupSpec | src/parsers/mochawesome-json/mochawesome-json-parser.ts:125 | `find` returns the first group with the name, and returns nothing only when no group has it |
| Grouping.AddCaseSpec | src/parsers/mochawesome-json/mochawesome-json-parser.ts:125-133 | the case is appended at the end of the first group with that name and every other group is unchanged; with no such group, a new group holding only the case is appended last |
| Grouping.AddCase | src/parsers/mochawesome-json/mochawesome-json-parser.ts:125-133 | one find-or-append step; its behaviour is stated by `AddCaseSpec`, `AddCaseNames` and `AddCaseDistinct` |
| Grouping.Grouped | src/parsers/mochawesome-json/mochawesome-json-parser.ts:125-133 | the groups after filing a sequence of cases one by one into a suite with none; `GroupedDistinct`, `GroupedNames` and `GroupedCases` state that names are distinct, that there is one group per filed name, and that each group holds exactly its cases in order |
| Grouping.AddCaseNames | src/parsers/mochawesome-json/mochawesome-json-parser.ts:125-129 | filing a case adds its group name to the set of names and removes none |
| Grouping.AddCaseDistinct | src/parsers/mochawesome-json/mochawesome-json-parser.ts:125-129 | filing a case keeps group names distinct |
| Grouping.GroupedDistinct | src/parsers/mochawesome-json/mochawesome-json-parser.ts:125-129 | the groups built by filing any sequence of cases have distinct names |
| Grouping.GroupedNames | src/parsers/mochawesome-json/mochawesome-json-parser.ts:125-129 | there is one group per group name that occurs among the filed cases, and no other |
| Grouping.GroupedCases | src/parsers/mochawesome-json/mochawesome-json-parser.ts:125-133 | each group holds exactly the cases filed under its name, in filing order |
| Grouping.CasesInAbsent | src/parsers/mochawesome-json/mochawesome-json-parser.ts:125-133 | a name under which nothing was filed collects no cases |
| Classification.Flagged | src/parsers/mochawesome-json/mochawesome-json-parser.ts:48-70 | one `.filter` on a flag; `FlaggedCount` states that it keeps every occurrence of a flagged test and nothing else |
| Classification.FlaggedCount | src/parsers/mochawesome-json/mochawesome-json-parser.ts:48-70 | each filter keeps every occurrence of a test with its flag, and nothing else |
| Classification.FlaggedAppend | src/parsers/mochawesome-json/mochawesome-json-parser.ts:50 | `.filter` keeps list order: filtering a concatenation gives the filtered parts in the same order |
| Classification.TaggedStatus | src/parsers/mochawesome-json/mochawesome-json-parser.ts:48-70 | every test of one scan is processed with that scan's status |
| Classification.TaggedCount | src/parsers/mochawesome-json/mochawesome-json-parser.ts:48-70 | a scan emits each selected test once per occurrence, with the scan's status only |
| Classification.Classified | src/parsers/mochawesome-json/mochawesome-json-parser.ts:72-76 | the emissions of `processAllTests`: the three scans in order; `ClassifiedCount`, `UnflaggedDropped` and `ClassifiedOrder` state what it emits and in which order |
| Classification.ClassifiedCount | src/parsers/mochawesome-json/mochawesome-json-parser.ts:72-76 | a test is emitted with a status once per occurrence when it carries that status's flag, and never otherwise, so a test with k true flags is emitted k times |
| Classification.UnflaggedDropped | src/parsers/mochawesome-json/mochawesome-json-parser.ts:72-76 | a test with no true flag is never emitted |
| Classification.ClassifiedOrder | src/parsers/mochawesome-json/mochawesome-json-parser.ts:72-76 | all successes come before all failures, which come before all skipped tests |
| Traversal.TestLists | src/parsers/mochawesome-json/mochawesome-json-parser.ts:78-111 | the test lists visited, in order; `SuitesTestListsMembers` and `EmissionsReadOnlyFirstChildren` state which lists they are |
| Traversal.Emissions | src/parsers/mochawesome-json/mochawesome-json-parser.ts:78-111 | every (test, status) pair handed to `processTest`, in call order; `EmitAllCount`, `EmissionsEmpty` and `EmittedUpToEnd` state its contents |
| Traversal.EmitAllSuite | src/parsers/mochawesome-json/mochawesome-json-parser.ts:85-110 | one top-level suite emits its own tests, then the tests of its first child |
| Traversal.EmittedUpToStart | src/parsers/mochawesome-json/mochawesome-json-parser.ts:79-81 | before any suite, only the suiteless tests are emitted, and only when there are some |
| Traversal.EmittedUpToStep | src/parsers/mochawesome-json/mochawesome-json-parser.ts:84-111 | the top-level suites are processed in order, each adding its own emissions at the end |
| Traversal.EmittedUpToEnd | src/parsers/mochawesome-json/mochawesome-json-parser.ts:38-112 | the report's emissions are the suiteless tests followed by all top-level suites of `results[0]` |
| Traversal.EmitAllAppend | src/parsers/mochawesome-json/mochawesome-json-parser.ts:78-111 | processing two runs of test lists one after the other emits the concatenation |
| Traversal.EmitAllCount | src/parsers/mochawesome-json/mochawesome-json-parser.ts:78-111 | across the traversal, a test is emitted with a status once per visit when it has that flag, and never otherwise |
| Traversal.EmittedIsFlagged | src/parsers/mochawesome-json/mochawesome-json-parser.ts:78-111 | every emission is of a visited test that carries its status's flag |
| Traversal.FlaggedIsEmitted | src/parsers/mochawesome-json/mochawesome-json-parser.ts:78-111 | every visited test is emitted with each status whose flag it carries |
| Traversal.EmissionsEmpty | src/parsers/mochawesome-json/mochawesome-json-parser.ts:78-111 | a report produces no emission exactly when no visited test has a true flag |
| Traversal.EmissionsReadOnlyFirstChildren | src/parsers/mochawesome-json/mochawesome-json-parser.ts:38-111 | for two reports the walk finishes on (the first child of every top-level suite has no children), later results and children at index 1 and beyond, with everything under them, do not affect what is emitted |
| Traversal.SuitesTestListsFirstChildren | src/parsers/mochawesome-json/mochawesome-json-parser.ts:85-110 | for suites whose first children have no children of their own, the visited lists depend only on each suite's own tests and its first child's tests |
| Traversal.SuitesTestListsMembers | src/parsers/mochawesome-json/mochawesome-json-parser.ts:85-110 | every top-level suite's tests are visited, and every visited list belongs to a top-level suite or its first child |
| WorkDirs.StripWorkDir | src/parsers/mochawesome-json/mochawesome-json-parser.ts:163-165 | the work-directory prefix is removed only when the path starts with it; otherwise the path is returned unchanged |
| WorkDirs.ResolveWorkDir | src/parsers/mochawesome-json/mochawesome-json-parser.ts:169-175 | `options.workDir` overrides the memo and leaves it untouched; a defined memo is never reassigned; an undefined memo takes the value of `getBasePath`, so an undefined base path is recomputed next time |
| WorkDirs.RelativePath | src/parsers/mochawesome-json/mochawesome-json-parser.ts:160-167 | the relative path is a suffix of the normalised path; with `StripWorkDir` and `ResolveWorkDir` it is the normalised path with the work directory removed when it is a prefix |
| WorkDirs.ResolveWorkDirSettles | src/parsers/mochawesome-json/mochawesome-json-parser.ts:169-175 | a second lookup of the same path with the updated memo gives the same directory and keeps the memo |
| WorkDirs.RelativePathSettles | src/parsers/mochawesome-json/mochawesome-json-parser.ts:160-175 | a second relativisation of the same path gives the same result, so the suite key never changes |
| MochawesomeParser.GetTestCaseError | src/parsers/mochawesome-json/mochawesome-json-parser.ts:136-158 | there is no error record exactly when `estack` is undefined (an empty stack still gives one); message and details are copied verbatim; path and line are set exactly when a source is found, with its values |
| MochawesomeParser.TestCaseOf | src/parsers/mochawesome-json/mochawesome-json-parser.ts:131-132 | the test case carries the test's title and the status it was processed with; its time is the duration, or 0 when absent; its error is the record `GetTestCaseError` builds, so it has one exactly when `estack` is defined |
| MochawesomeParser.Placement | src/parsers/mochawesome-json/mochawesome-json-parser.ts:119-134 | the group name and test case one emission is filed with; `PlacementsElements` ties each emission to its placement |
| MochawesomeParser.Placements | src/parsers/mochawesome-json/mochawesome-json-parser.ts:119-134 | the placements of all emissions; `PlacementsElements` states one per emission, in emission order |
| MochawesomeParser.PlacementsElements | src/parsers/mochawesome-json/mochawesome-json-parser.ts:119-134 | each emission yields one case and one group name, in emission order |
| MochawesomeParser.MochawesomeJsonParser.constructor | src/parsers/mochawesome-json/mochawesome-json-parser.ts:15-18 | a new parser keeps its options and has no assumed work directory |
| MochawesomeParser.MochawesomeJsonParser.ShapeValues | src/parsers/mochawesome-json/mochawesome-json-parser.ts:114 | `Object.values` of the suite map is empty before the first emission and is the one suite afterwards |
| MochawesomeParser.MochawesomeJsonParser.GetWorkDir | src/parsers/mochawesome-json/mochawesome-json-parser.ts:169-175 | the returned directory and the new memo are those `ResolveWorkDir` gives for the old memo |
| MochawesomeParser.MochawesomeJsonParser.GetRelativePath | src/parsers/mochawesome-json/mochawesome-json-parser.ts:160-167 | the returned path and the new memo are those `RelativePath` gives for the old memo: normalise, resolve, strip |
| MochawesomeParser.MochawesomeJsonParser.GetSuite | src/parsers/mochawesome-json/mochawesome-json-parser.ts:43-46 | the first call creates a fresh suite with no groups under the relative path; every later call returns that same suite and leaves the map unchanged |
| MochawesomeParser.MochawesomeJsonParser.ProcessTest | src/parsers/mochawesome-json/mochawesome-json-parser.ts:119-134 | the suite's groups become `AddCase` of the old groups, the derived group name and the test case (see `AddCaseSpec`, `AddCaseDistinct`) |
| MochawesomeParser.MochawesomeJsonParser.ProcessInSuite | src/parsers/mochawesome-json/mochawesome-json-parser.ts:51-54 | after one callback, the suite's groups are those of the emissions so far plus this one |
| MochawesomeParser.MochawesomeJsonParser.ProcessTests | src/parsers/mochawesome-json/mochawesome-json-parser.ts:48-70 | after one scan, the suite's groups are those of the earlier emissions followed by every flagged test with the scan's status; the suite exists exactly when something was emitted |
| MochawesomeParser.MochawesomeJsonParser.ProcessAllTests | src/parsers/mochawesome-json/mochawesome-json-parser.ts:72-76 | after `processAllTests`, the groups are those of the earlier emissions followed by the three scans of the list |
| MochawesomeParser.MochawesomeJsonParser.ProcessSuite | src/parsers/mochawesome-json/mochawesome-json-parser.ts:85-111 | after one suite's callback, the groups also hold its own tests and those of its first child |
| MochawesomeParser.MochawesomeJsonParser.ProcessSuites | src/parsers/mochawesome-json/mochawesome-json-parser.ts:84-112 | after the `forEach` loop, the groups hold the emissions of the suiteless tests and of every top-level suite, in order |
| MochawesomeParser.MochawesomeJsonParser.GetTestRunResult | src/parsers/mochawesome-json/mochawesome-json-parser.ts:35-117 | the run has the results path and `stats.duration`. With no emission it has no suite and the memo is untouched. Otherwise it has exactly one fresh suite, named by the relative path of `results[0].fullFile`, whose groups are `GroupsOf(Emissions(report))` |
| TestResults.TestSuiteResult.constructor | src/parsers/mochawesome-json/mochawesome-json-parser.ts:45 | a new suite has the given name and groups |

## Left out

- JSON decoding (`getMochawesomeJson`) is not modelled. The model starts from a decoded report. Malformed text fails in the source with an "Invalid JSON at <path>" error.
- The `parse` wrapper is not modelled: its promise, and its `result.sort(true)` call. `TestRunResult` sorting and derived totals live in `test-results`, which is not part of this model. `GetTestRunResult` returns the suites unsorted.
- `normalizeFilePath`, `getBasePath` and `getExceptionSource` are not part of this model. They are arbitrary functions passed to the parser. `getExceptionSource` is treated as returning an already relativised path and line.
- The callback that `getExceptionSource` receives can update `assumedWorkDir`. That update is not modelled, so after the first lookup the suite key is taken to stay fixed. In the source, when no `options.workDir` is set and `getBasePath` finds no directory for `fullFile`, `assumedWorkDir` stays undefined after the first `getSuite`. A test's `getExceptionSource` call (mochawesome-json-parser.ts:146) can then define it from another file. A later `getSuite` (:44) resolves `fullFile` against that directory. When that directory is a prefix of the normalised `fullFile`, it computes a different key and creates a second suite. MochawesomeParser.MochawesomeJsonParser.GetTestRunResult promises exactly one suite only under this abstraction.
- MochawesomeParser.MochawesomeJsonParser.GetTestRunResult requires that the first child of every top-level suite has no children. Otherwise the source's nested walk re-enters the same child until the call stack overflows.
- JavaScript failure modes are left out: a missing `err` object, a missing `suites` or `tests` array, or a non-array `results`.
- Object keys that JavaScript treats specially are left out. Examples are `__proto__`, or integer-like paths that `Object.values` lists first. The map is modelled as plain insertion-ordered keys.
- String lengths in the source count UTF-16 code units. Dafny counts characters. Titles outside the Basic Multilingual Plane can therefore cut differently.
- Durations are integers, not floating-point numbers.
- The `diff` field of a test error is never read and is not modelled.
- `options.parseErrors` is accepted but, as in the source, never consulted.
- The suite map is a local value threaded through the methods, not a shared mutable object. Only the suite objects and `assumedWorkDir` are updated in place.
