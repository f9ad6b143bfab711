/**
 * The group a test is filed under: its `fullTitle` with its own title's length cut off the end,
 * trailing whitespace trimmed; no group (null) when the two titles are equal.
 */
module GroupNames {
  import opened Wrappers
  import opened MochawesomeTypes

  /**
   * The characters JavaScript's `String.prototype.trimEnd` removes: the WhiteSpace and
   * LineTerminator code points of ECMAScript (sections 12.2 and 12.3 of ECMA-262).
   */
  predicate IsWhitespace(c: char) {
    var n := c as int;
    n == 0x09 || n == 0x0A || n == 0x0B || n == 0x0C || n == 0x0D || n == 0x20
    || n == 0xA0 || n == 0x1680 || (0x2000 <= n <= 0x200A)
    || n == 0x2028 || n == 0x2029 || n == 0x202F || n == 0x205F || n == 0x3000 || n == 0xFEFF
  }

  /** `s.trimEnd()`: the longest prefix of `s` that does not end in whitespace. */
  function TrimEnd(s: string): (r: string)
    ensures r <= s
    ensures r == [] || !IsWhitespace(r[|r| - 1])
  {
    if |s| > 0 && IsWhitespace(s[|s| - 1]) then TrimEnd(s[..|s| - 1]) else s
  }

  /** Only whitespace is removed. */
  lemma {:induction false} TrimEndDropsWhitespace(s: string)
    ensures forall i :: |TrimEnd(s)| <= i < |s| ==> IsWhitespace(s[i])
  {
    if |s| > 0 && IsWhitespace(s[|s| - 1]) {
      TrimEndDropsWhitespace(s[..|s| - 1]);
    }
  }

  /**
   * `fullTitle.length - title.length`, as `substr(0, n)` uses it: a negative length takes
   * nothing. Whether `fullTitle` actually ends with `title` is never checked.
   */
  function CutLength(test: MochawesomeJsonTest): (r: nat)
    ensures r <= |test.fullTitle|
    ensures |test.title| <= |test.fullTitle| ==> r + |test.title| == |test.fullTitle|
    ensures |test.title| > |test.fullTitle| ==> r == 0
  {
    if |test.title| <= |test.fullTitle| then |test.fullTitle| - |test.title| else 0
  }

  /** The derived group name of a test. */
  function GroupName(test: MochawesomeJsonTest): (r: Option<string>)
    ensures r.None? <==> test.fullTitle == test.title
    ensures r.Some? ==> r.value <= test.fullTitle[..CutLength(test)]
    ensures r.Some? ==> r.value == [] || !IsWhitespace(r.value[|r.value| - 1])
  {
    if test.fullTitle != test.title then Some(TrimEnd(test.fullTitle[..CutLength(test)])) else None
  }

  /** Between the group name and the cut there is only whitespace. */
  lemma GroupNameDropsWhitespace(test: MochawesomeJsonTest)
    requires GroupName(test).Some?
    ensures forall i :: |GroupName(test).value| <= i < CutLength(test) ==> IsWhitespace(test.fullTitle[i])
  {
    TrimEndDropsWhitespace(test.fullTitle[..CutLength(test)]);
  }

  /** Trimming a string that is some text followed by whitespace gives back that text. */
  lemma {:induction false} TrimEndOfPadded(text: string, pad: string)
    requires text == [] || !IsWhitespace(text[|text| - 1])
    requires forall i :: 0 <= i < |pad| ==> IsWhitespace(pad[i])
    ensures TrimEnd(text + pad) == text
  {
    var s := text + pad;
    assert s[..|text|] == text;
    TrimEndDropsWhitespace(s);
    assert |TrimEnd(s)| == |text|;
  }

  /**
   * The name the exporter's `fullTitle` was built from is recovered: a test titled `title` under
   * the suites `prefix` (joined to the title by whitespace) lands in the group `prefix`.
   */
  lemma GroupNameOfJoinedTitle(test: MochawesomeJsonTest, prefix: string, sep: string)
    requires test.fullTitle == prefix + sep + test.title
    requires sep != [] && forall i :: 0 <= i < |sep| ==> IsWhitespace(sep[i])
    requires prefix == [] || !IsWhitespace(prefix[|prefix| - 1])
    ensures GroupName(test) == Some(prefix)
  {
    assert |test.fullTitle| > |test.title|;
    assert test.fullTitle[..CutLength(test)] == prefix + sep;
    TrimEndOfPadded(prefix, sep);
  }

  /** A test whose title is at least as long as a different full title is filed under "". */
  lemma GroupNameOfLongTitle(test: MochawesomeJsonTest)
    requires test.fullTitle != test.title && |test.title| >= |test.fullTitle|
    ensures GroupName(test) == Some("")
  {
  }

  /**
   * Only the length of `title` matters, not its text: two tests with the same full title and
   * titles of equal length (both different from it) share a group even when the full title does
   * not end with either title.
   */
  lemma GroupNameIgnoresTitleText(a: MochawesomeJsonTest, b: MochawesomeJsonTest)
    requires a.fullTitle == b.fullTitle && |a.title| == |b.title|
    requires a.title != a.fullTitle && b.title != b.fullTitle
    ensures GroupName(a) == GroupName(b)
  {
  }
}
