/**
 * The plugin's compile step (the default export of `src/compiler.ts`): build
 * the in-process compiler from the options, run it on the `js` file list, and
 * decide from the reported exit code and error text whether the compilation
 * is rejected or its first compiled file goes on to the post-compilation
 * transforms.
 */
module Compiler {
  import opened Wrappers
  import opened Strings
  import opened Flags
  import opened CompilerLogger
  import opened CompilerJs

  /**
   * How the returned promise settles. `Resolved` carries the source handed on
   * to the post-compilation transforms; `Unsettled` is an accepted run without
   * compiled files, where reading `code[0].src` throws inside the callback and
   * the promise neither resolves nor rejects.
   */
  datatype Outcome = Rejected(message: string) | Resolved(compiledSource: string) | Unsettled

  /**
   * `'warning_level' in compileOptions && compileOptions.warning_level === 'VERBOSE'`:
   * the options are an object whose last `warning_level` pair says `VERBOSE`.
   * An options list is an array, which has no such property.
   */
  function IsVerbose(options: Options): (r: bool)
    ensures r <==> options.FlagObject? &&
                   exists i :: 0 <= i < |options.entries| && options.entries[i] == ("warning_level", Str("VERBOSE"))
                               && forall j :: i < j < |options.entries| ==> options.entries[j].0 != "warning_level"
  {
    options.FlagObject? && Lookup(options.entries, "warning_level") == Some(Str("VERBOSE"))
  }

  /** The callback of the default export. */
  function Settle(options: Options, exitCode: int, compiled: seq<CompiledFile>, stdErr: string): (o: Outcome)
    ensures IsVerbose(options) && stdErr != "" ==> o == Rejected("Google Closure Compiler " + stdErr)
    ensures !(IsVerbose(options) && stdErr != "") && exitCode != 0 ==>
              o == Rejected("Google Closure Compiler exit " + IntText(exitCode) + ": " + stdErr)
    ensures o.Resolved? <==> !(IsVerbose(options) && stdErr != "") && exitCode == 0 && compiled != []
    ensures o.Resolved? ==> o.compiledSource == compiled[0].src
    ensures !(IsVerbose(options) && stdErr != "") && exitCode == 0 && compiled == [] ==> o == Unsettled
  {
    if IsVerbose(options) && stdErr != "" then Rejected("Google Closure Compiler " + stdErr)
    else if exitCode != 0 then Rejected("Google Closure Compiler exit " + IntText(exitCode) + ": " + stdErr)
    else if compiled == [] then Unsettled
    else Resolved(compiled[0].src)
  }

  /**
   * The whole compile step, given what the embedded compiler returns for the
   * file list. With this backend any warning, not only an error, makes the
   * compilation fail, whatever the warning level: `run` counts logged lines,
   * and every message is logged. A clean run hands on its first compiled file.
   */
  function CompileOutcome(options: Options, fileList: seq<InputFile>, out: CompilerOutput, disk: map<string, string>): (o: Outcome)
    ensures o.Rejected? <==> out.warnings != [] || out.errors != []
    ensures out.warnings == [] && out.errors == [] && out.compiledFiles != [] ==> o == Resolved(out.compiledFiles[0].src)
    ensures out.warnings == [] && out.errors == [] && out.compiledFiles == [] ==> o == Unsettled
  {
    var report := RunReport(out, fileList, disk);
    Settle(options, report.exitCode, out.compiledFiles, report.stdErr)
  }

  /** A failed run with error text is rejected either way; `VERBOSE` picks the wording. */
  lemma SettleFailed(options: Options, compiled: seq<CompiledFile>, stdErr: string)
    requires stdErr != ""
    ensures Settle(options, 1, compiled, stdErr)
         == Rejected(if IsVerbose(options) then "Google Closure Compiler " + stdErr
                     else "Google Closure Compiler exit 1: " + stdErr)
  {
    assert IntText(1) == "1";
  }

  /**
   * The `VERBOSE` test only changes the wording of a rejection: the error
   * text of a run is non-empty exactly when its exit code is not 0.
   */
  lemma VerboseOnlyRewords(options: Options, fileList: seq<InputFile>, out: CompilerOutput, disk: map<string, string>)
    requires out.warnings != [] || out.errors != []
    ensures var report := RunReport(out, fileList, disk);
            CompileOutcome(options, fileList, out, disk)
              == Rejected(if IsVerbose(options) then "Google Closure Compiler " + report.stdErr
                          else "Google Closure Compiler exit 1: " + report.stdErr)
  {
    var report := RunReport(out, fileList, disk);
    SettleFailed(options, out.compiledFiles, report.stdErr);
  }

  /**
   * The default export: builds the compiler from the options, runs it on the
   * `js` file list and settles. The embedded compiler's answer for that run
   * is the parameter `out`.
   */
  method Compile(options: Options, fileList: seq<InputFile>, out: CompilerOutput, disk: map<string, string>)
    returns (outcome: Outcome)
    ensures outcome == CompileOutcome(options, fileList, out, disk)
    ensures outcome.Rejected? <==> out.warnings != [] || out.errors != []
  {
    var instance := new ClosureCompilerJs(options);
    var exitCode, code, stdErr := instance.RunFiles(out, fileList, disk);
    outcome := Settle(options, exitCode, code, stdErr);
  }
}
