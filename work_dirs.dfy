/**
 * Relative paths: a normalised path loses the working-directory prefix when it starts with it.
 * The working directory is `options.workDir` when configured, otherwise the parser's memo
 * `assumedWorkDir`, which is filled from `getBasePath` the first time it is needed and never
 * reassigned once defined.
 */
module WorkDirs {
  import opened Wrappers
  import opened Collaborators

  /** The prefix strip of getRelativePath. */
  function StripWorkDir(path: string, workDir: Option<string>): (r: string)
    ensures workDir.Some? && workDir.value <= path ==> workDir.value + r == path
    ensures !(workDir.Some? && workDir.value <= path) ==> r == path
  {
    if workDir.Some? && workDir.value <= path then path[|workDir.value|..] else path
  }

  /** The working directory used for one lookup, and the memo afterwards. */
  datatype Resolution = Resolution(workDir: Option<string>, memo: Option<string>)

  /** getWorkDir on a memo value. */
  function ResolveWorkDir(options: ParseOptions, getBasePath: (string, seq<string>) -> Option<string>,
                          memo: Option<string>, path: string): (r: Resolution)
    ensures memo.Some? ==> r.memo == memo
    ensures options.workDir.Some? ==> r.workDir == options.workDir && r.memo == memo
    ensures options.workDir.None? ==> r.workDir == r.memo
    ensures options.workDir.None? && memo.None? ==> r.memo == getBasePath(path, options.trackedFiles)
  {
    if options.workDir.Some? then Resolution(options.workDir, memo)
    else if memo.Some? then Resolution(memo, memo)
    else
      var base := getBasePath(path, options.trackedFiles);
      Resolution(base, base)
  }

  /** The relative form of a path, and the memo afterwards. */
  datatype Relativized = Relativized(path: string, memo: Option<string>)

  /** getRelativePath on a memo value. */
  function RelativePath(options: ParseOptions, utils: Utils, memo: Option<string>, path: string): (r: Relativized)
    ensures var normalized := utils.normalizeFilePath(path);
      |r.path| <= |normalized| && r.path == normalized[|normalized| - |r.path|..]
  {
    var normalized := utils.normalizeFilePath(path);
    var resolution := ResolveWorkDir(options, utils.getBasePath, memo, normalized);
    Relativized(StripWorkDir(normalized, resolution.workDir), resolution.memo)
  }

  /**
   * A second lookup of the same path changes nothing and gives the same answer: a defined memo
   * is kept, and an undefined one is recomputed to the same undefined value.
   */
  lemma ResolveWorkDirSettles(options: ParseOptions, getBasePath: (string, seq<string>) -> Option<string>,
                              memo: Option<string>, path: string)
    ensures var r := ResolveWorkDir(options, getBasePath, memo, path);
      ResolveWorkDir(options, getBasePath, r.memo, path) == r
  {
    var r := ResolveWorkDir(options, getBasePath, memo, path);
    if options.workDir.None? && memo.None? && r.memo.Some? {
      assert ResolveWorkDir(options, getBasePath, r.memo, path).workDir == r.memo;
    }
  }

  /** Relativizing the same path twice yields the same path and leaves the memo as it was. */
  lemma RelativePathSettles(options: ParseOptions, utils: Utils, memo: Option<string>, path: string)
    ensures var r := RelativePath(options, utils, memo, path);
      RelativePath(options, utils, r.memo, path) == r
  {
    ResolveWorkDirSettles(options, utils.getBasePath, memo, utils.normalizeFilePath(path));
  }
}
