/**
 * Filing test cases into the groups of one suite: the first group whose name equals the test's
 * group name receives the case at its end; a new group is appended only when none matches.
 */
module Grouping {
  import opened Wrappers
  import opened TestResults

  /** A test case together with the name of the group it is filed under. */
  datatype Placed = Placed(group: Option<string>, testCase: TestCaseResult)

  predicate DistinctNames(groups: seq<TestGroupResult>) {
    forall i, j :: 0 <= i < j < |groups| ==> groups[i].name != groups[j].name
  }

  function Names(groups: seq<TestGroupResult>): set<Option<string>> {
    set g | g in groups :: g.name
  }

  /** `groups.find(grp => grp.name === name)`, as the index of the first match. */
  function FindGroup(groups: seq<TestGroupResult>, name: Option<string>): (r: Option<nat>)
    ensures r.Some? ==> r.value < |groups| && groups[r.value].name == name
  {
    if |groups| == 0 then None
    else if groups[0].name == name then Some(0)
    else match FindGroup(groups[1..], name)
      case None => None
      case Some(k) => Some(k + 1)
  }

  /** The search finds the first group with that name, and finds nothing only when none has it. */
  lemma {:induction false} FindGroupSpec(groups: seq<TestGroupResult>, name: Option<string>)
    ensures FindGroup(groups, name).Some? ==>
      forall k :: 0 <= k < FindGroup(groups, name).value ==> groups[k].name != name
    ensures FindGroup(groups, name).None? ==> forall k :: 0 <= k < |groups| ==> groups[k].name != name
  {
    if |groups| > 0 && groups[0].name != name {
      FindGroupSpec(groups[1..], name);
    }
  }

  /** The groups after one test case is filed under `name`. */
  function AddCase(groups: seq<TestGroupResult>, name: Option<string>, tc: TestCaseResult): seq<TestGroupResult>
  {
    match FindGroup(groups, name)
    case Some(i) => groups[i := groups[i].(tests := groups[i].tests + [tc])]
    case None => groups + [TestGroupResult(name, [tc])]
  }

  /**
   * Filing a case appends it to the first group with that name and changes nothing else; when
   * no group has the name, a new group holding only the case is appended last.
   */
  lemma AddCaseSpec(groups: seq<TestGroupResult>, name: Option<string>, tc: TestCaseResult)
    ensures var r := AddCase(groups, name, tc);
      forall i :: 0 <= i < |groups| && groups[i].name == name && (forall k :: 0 <= k < i ==> groups[k].name != name) ==>
        && |r| == |groups|
        && r[i] == TestGroupResult(name, groups[i].tests + [tc])
        && forall k :: 0 <= k < |groups| && k != i ==> r[k] == groups[k]
    ensures (forall k :: 0 <= k < |groups| ==> groups[k].name != name) ==>
      AddCase(groups, name, tc) == groups + [TestGroupResult(name, [tc])]
  {
    FindGroupSpec(groups, name);
    forall i | 0 <= i < |groups| && groups[i].name == name && (forall k :: 0 <= k < i ==> groups[k].name != name)
      ensures FindGroup(groups, name) == Some(i)
    {
      if FindGroup(groups, name).Some? {
        var j := FindGroup(groups, name).value;
        assert !(j < i) && !(i < j);
      }
    }
  }

  /** Filing a case adds its group name to the names present and removes none. */
  lemma AddCaseNames(groups: seq<TestGroupResult>, name: Option<string>, tc: TestCaseResult)
    ensures Names(AddCase(groups, name, tc)) == Names(groups) + {name}
  {
    var r := AddCase(groups, name, tc);
    match FindGroup(groups, name)
    case Some(i) =>
      forall n | n in Names(groups) ensures n in Names(r) {
        var g :| g in groups && g.name == n;
        var k :| 0 <= k < |groups| && groups[k] == g;
        assert r[k].name == n;
      }
      forall n | n in Names(r) ensures n in Names(groups) {
        var g :| g in r && g.name == n;
        var k :| 0 <= k < |r| && r[k] == g;
        assert groups[k].name == n;
      }
    case None =>
  }

  /** Filing a case keeps group names distinct. */
  lemma AddCaseDistinct(groups: seq<TestGroupResult>, name: Option<string>, tc: TestCaseResult)
    requires DistinctNames(groups)
    ensures DistinctNames(AddCase(groups, name, tc))
  {
    FindGroupSpec(groups, name);
  }

  /** The groups obtained by filing `placed`, in order, into a suite that starts with none. */
  function Grouped(placed: seq<Placed>): seq<TestGroupResult> {
    if placed == [] then []
    else
      var last := placed[|placed| - 1];
      AddCase(Grouped(placed[..|placed| - 1]), last.group, last.testCase)
  }

  /** The cases filed under `name`, in the order they were filed: a reference definition. */
  function CasesIn(placed: seq<Placed>, name: Option<string>): seq<TestCaseResult> {
    if placed == [] then []
    else
      var last := placed[|placed| - 1];
      CasesIn(placed[..|placed| - 1], name) + if last.group == name then [last.testCase] else []
  }

  lemma GroupedSnoc(placed: seq<Placed>, p: Placed)
    ensures Grouped(placed + [p]) == AddCase(Grouped(placed), p.group, p.testCase)
  {
    assert (placed + [p])[..|placed|] == placed;
  }

  /** Group names stay distinct whatever is filed. */
  lemma {:induction false} GroupedDistinct(placed: seq<Placed>)
    ensures DistinctNames(Grouped(placed))
  {
    if placed != [] {
      var last := placed[|placed| - 1];
      GroupedDistinct(placed[..|placed| - 1]);
      AddCaseDistinct(Grouped(placed[..|placed| - 1]), last.group, last.testCase);
    }
  }

  /** There is a group for a name exactly when some filed case carries that name. */
  lemma {:induction false} GroupedNames(placed: seq<Placed>)
    ensures Names(Grouped(placed)) == set p | p in placed :: p.group
  {
    if placed != [] {
      var init := placed[..|placed| - 1];
      GroupedNames(init);
      assert placed == init + [placed[|placed| - 1]];
      AddCaseNames(Grouped(init), placed[|placed| - 1].group, placed[|placed| - 1].testCase);
    }
  }

  lemma CasesInSnoc(placed: seq<Placed>, p: Placed, name: Option<string>)
    ensures CasesIn(placed + [p], name) == CasesIn(placed, name) + if p.group == name then [p.testCase] else []
  {
    assert (placed + [p])[..|placed|] == placed;
  }

  lemma {:induction false} CasesInAbsent(placed: seq<Placed>, name: Option<string>)
    requires name !in set p | p in placed :: p.group
    ensures CasesIn(placed, name) == []
  {
    if placed != [] {
      var init := placed[..|placed| - 1];
      assert placed == init + [placed[|placed| - 1]];
      CasesInAbsent(init, name);
    }
  }

  /** One filing step keeps every group equal to the cases filed under its name. */
  lemma AddCaseKeepsCases(g: seq<TestGroupResult>, init: seq<Placed>, p: Placed)
    requires forall j :: 0 <= j < |g| ==> g[j].tests == CasesIn(init, g[j].name)
    requires Names(g) == set q | q in init :: q.group
    requires DistinctNames(g)
    ensures var g' := AddCase(g, p.group, p.testCase);
      forall j :: 0 <= j < |g'| ==> g'[j].tests == CasesIn(init + [p], g'[j].name)
  {
    var g' := AddCase(g, p.group, p.testCase);
    FindGroupSpec(g, p.group);
    forall j | 0 <= j < |g'|
      ensures g'[j].tests == CasesIn(init + [p], g'[j].name)
    {
      CasesInSnoc(init, p, g'[j].name);
      match FindGroup(g, p.group)
      case Some(i) =>
        if j != i {
          assert g'[j] == g[j];
          assert g[j].name != g[i].name;
        }
      case None =>
        if j == |g| {
          assert p.group !in Names(g) by {
            forall x | x in g ensures x.name != p.group {
              var k :| 0 <= k < |g| && g[k] == x;
            }
          }
          CasesInAbsent(init, p.group);
        } else {
          assert g'[j] == g[j];
          assert g[j] in g;
        }
    }
  }

  /** Each group holds exactly the cases filed under its name, in filing order: nothing is lost,
   * duplicated, reordered or filed elsewhere.
   */
  lemma {:induction false} GroupedCases(placed: seq<Placed>)
    ensures forall j :: 0 <= j < |Grouped(placed)| ==>
      Grouped(placed)[j].tests == CasesIn(placed, Grouped(placed)[j].name)
  {
    if placed != [] {
      var init := placed[..|placed| - 1];
      var last := placed[|placed| - 1];
      assert placed == init + [last];
      GroupedCases(init);
      GroupedNames(init);
      GroupedDistinct(init);
      AddCaseKeepsCases(Grouped(init), init, last);
    }
  }
}
