/**
 * What the parser receives from outside its own file: the parse options of test-parser.ts and the
 * three helpers it imports from utils/path-utils and utils/node-utils. Their code is not part of
 * this model, so they are parameters: any total functions of these signatures.
 */
module Collaborators {
  import opened Wrappers

  /** `parseErrors` is carried but never consulted by the mochawesome parser. */
  datatype ParseOptions = ParseOptions(parseErrors: bool, trackedFiles: seq<string>, workDir: Option<string>)

  /** A source location found in a stack trace, already relative to the working directory. */
  datatype ExceptionSource = ExceptionSource(path: string, line: int)

  datatype Utils = Utils(
    normalizeFilePath: string -> string,
    getBasePath: (string, seq<string>) -> Option<string>,
    getExceptionSource: (string, seq<string>) -> Option<ExceptionSource>)
}
