# Closure Compiler adapter of a Rollup plugin, modelled in Dafny

This Rollup plugin hands a chunk to the Google Closure Compiler. It can use
one of two backends:

- **the in-process backend** (`ClosureCompilerJS`). It converts the plugin's
  snake_case options into a camelCase options object and calls the embedded
  compiler. It then formats the compiler's warnings and errors into log lines
  with terminal colours, turns them into an exit code and an error text, and
  decides whether the compilation is accepted;
- **the command-line backend** (`ClosureCompilerCMD`). It converts camelCase
  options into `--snake_case[=value]` arguments and spawns the
  `closure-compiler` program. When the program fails, it puts the command line
  in front of the error output.

The model covers:

- the key conversions of both backends;
- the state that each constructor builds. The in-process constructor builds an
  options map where the last write wins. The command-line constructor builds
  an ordered argument list, in which an array value expands into one argument
  per element;
- the command-line `run`, which puts the extra arguments in front, and the text
  of the command;
- the diagnostic logger: the header, description, source line, caret line and
  blank line it writes for each message, with all warnings before all errors;
- the in-process `run`, which turns the logged lines into an exit code and an
  error text;
- the accept/reject decision of the plugin's default export.

The code has some duplicates. `src/compiler.ts` carries copies of the
in-process backend and of the logger. `src/compilerJs.ts` and
`src/compilerLogger.ts` carry them too. Each is modelled once:

- `CompilerLogger` is the logger (`compilerLogOutput` and
  `closureCompilerLogErrors`);
- `CompilerJs.ClosureCompilerJs` is the in-process class. Its `RunFiles` is the
  `run(fileList, …)` of `src/compiler.ts`. Its `RunSource` is the
  `run(sourcePath, …)` of `src/compilerJs.ts`.

Two results stand out:

- **Any diagnostic rejects.** The in-process `run` fails whenever the compiler
  reports anything at all, including a single warning. It counts logged lines,
  and every message logs at least three of them. The logger's own answer,
  which is failure only when there are errors, is not used (`CompilerJs.RunReport`,
  `Compiler.CompileOutcome`).
  - As a result, the `VERBOSE` branch of the default export can only change the
    wording of a rejection, never whether there is one
    (`Compiler.VerboseOnlyRewords`).
- **The command-line output reads back.** The in-process list form reads an
  argument written by the command-line backend back as the key and value it
  came from (`FlagRoundTrip`).

The command-line backend announces the command as `closure_compiler …`, but it
spawns `closure-compiler`. The model keeps both spellings as the code has them.

Modules:

| module | file | contents |
|---|---|---|
| `Wrappers` | `wrappers.dfy` | `Option` |
| `Strings` | `strings.dfy` | ASCII character classes; `split`, `join` and decimal text, with their round trips |
| `Flags` | `flags.dfy` | the JavaScript values options can hold; the two option forms; template-literal text; `^--` stripping |
| `CompilerLogger` | `compiler_logger.dfy` | the logger |
| `ConsoleColors` | `console_colors.dfy` | the terminal colour markers, and their removal from logged lines |
| `CompilerJs` | `compiler_js.dfy` | the in-process backend |
| `CompilerCmd` | `compiler_cmd.dfy` | the command-line backend |
| `Compiler` | `compiler.dfy` | the default export's accept/reject decision |
| `FlagRoundTrip` | `flag_round_trip.dfy` | command-line arguments read back by the in-process backend |

Some things become parameters of the model:

- **The embedded compiler.** It is a foreign library. Its answer is the
  parameter `out: CompilerOutput`, which holds the warnings, the errors and the
  compiled files.
- **The file system.** The logger's `fs.readFileSync` fallback is the oracle
  `disk: map<string, string>`. A read succeeds exactly when the path is a key
  of the map.
- **The spawned program.** Its exit code, standard output and error output are
  parameters of the `close` and `error` handlers.

## Model

| member | source | states |
|---|---|---|
| Strings.ToUpper | src/compiler.ts:101 | a lower-case letter becomes the upper-case letter 32 code points below it; any other character is unchanged |
| Strings.ToLower | src/compilerCmd.ts:113 | an upper-case letter becomes the lower-case letter 32 code points above it; any other character is unchanged |
| Strings.UpperOfLower | src/compilerCmd.ts:113 | upper-casing a lower-cased capital gives the capital back |
| Strings.Split | src/compilerJs.ts:12 | `split` gives at least one piece, and no piece contains the separator |
| Strings.SplitWithoutSeparator | src/compilerJs.ts:12 | a string without the separator splits into itself alone |
| Strings.SplitAtFirst | src/compilerJs.ts:12 | the text before the first separator is the first piece, and the rest splits on its own |
| Strings.JoinSplit | src/compilerLogger.ts:65 | joining the pieces of a split with the separator gives the original string |
| Strings.SplitJoin | src/compilerLogger.ts:65 | splitting separator-free pieces that were joined with the separator gives the pieces back |
| Strings.JoinWith | src/compilerJs.ts:41 | `join` of one piece is that piece; a join of several pieces is at least as long as the separator |
| Strings.NatText | src/compilerLogger.ts:59 | the decimal text of a natural number is non-empty and made of digits only, with no leading zero unless the number is 0 |
| Strings.NatTextValue | src/compilerLogger.ts:59 | the digits of that text spell the number |
| Strings.IntText | src/compiler.ts:41 | the decimal text of an integer starts with `-` exactly when the number is negative; the digits after any `-` spell the magnitude |
| Flags.Lookup | src/compiler.ts:38 | no value exactly when no pair has the key; otherwise the value of the last pair with that key |
| Flags.StripDashes | src/compilerCmd.ts:114 | a leading `--` is removed once, and a string without one is unchanged |
| Flags.ToText | src/compilerCmd.ts:120 | a string value is written verbatim, and a boolean as `true` or `false` |
| Flags.ItemsText | src/compilerCmd.ts:120 | an array of two or more elements is written with `,` between them |
| Flags.ItemsTextSplits | src/compilerCmd.ts:120 | the strings of an array, none holding a comma, are read back by splitting its text at the commas |
| CompilerLogger.BlankNonTabs | src/compilerLogger.ts:14 | same length; a position holds a tab exactly when the input has a tab there, and a space otherwise |
| CompilerLogger.CaretPrefix | src/compilerLogger.ts:13-15 | the length is `charNo` clamped to between 0 and the line's length; tabs stay where they are, and every other character becomes a space |
| CompilerLogger.FindInput | src/compilerLogger.ts:41 | the index of the first input file with the path; none exactly when no input file has it |
| CompilerLogger.FileFor | src/compilerLogger.ts:36-53 | no file for an empty name; the first input file with that path, before any disk lookup; otherwise the disk's content exactly when the disk has the file |
| CompilerLogger.Header | src/compilerLogger.ts:56-60 | the header is the bare type exactly when the file is empty and `lineNo < 0`; otherwise it is `file:lineNo (type)` |
| CompilerLogger.SourceLine | src/compilerLogger.ts:65-66 | the line shown never contains a newline, and it is `''` when `lineNo - 1` is not a line index |
| CompilerLogger.SourceLineOfLines | src/compilerLogger.ts:65-66 | for a source made of newline-free lines, the line shown for `k` is line `k`, counting from 1, or `''` outside the range |
| CompilerLogger.WriteMsg | src/compilerLogger.ts:55-71 | 5 lines when the file is found and 3 otherwise; header, then description, and always a blank last line; with a file, the source line at `lineNo - 1` in the message's colour and then, in green, the caret prefix of that line followed by `^` |
| CompilerLogger.MessagesLines | src/compilerLogger.ts:73 | n messages log between 3n and 5n lines |
| CompilerLogger.MessagesLinesStep | src/compilerLogger.ts:73 | one more message appends exactly its own lines |
| CompilerLogger.LogLines | src/compilerLogger.ts:73-74 | the logger emits nothing exactly when there are no warnings and no errors, and otherwise at least 3 lines per message |
| CompilerLogger.WriteAll | src/compilerLogger.ts:73 | the loop over the messages emits the lines of each message in turn, with the colour given |
| CompilerLogger.CompilerLogOutput | src/compilerLogger.ts:73-76 | all warnings in yellow, then all errors in red; reports failure exactly when there is an error, whatever the warnings |
| ConsoleColors.ColorCodeLength | src/compilerJs.ts:3 | what it measures at the start of the text is a whole `ESC [ digits m` marker, and it never runs past the text |
| ConsoleColors.ColorCodeLengthOf | src/compilerJs.ts:3 | a marker at the start of the text is found, and measured whole |
| ConsoleColors.StripColors | src/compilerJs.ts:39 | removing every colour marker never lengthens the text, and text without `ESC` is unchanged |
| ConsoleColors.LoggerColors | src/compilerLogger.ts:1-5 | the end, red, green and yellow constants are all colour markers |
| ConsoleColors.DigitRun | src/compilerJs.ts:3 | the digits at the start of the text, and the character after them is not a digit |
| ConsoleColors.DigitRunOf | src/compilerJs.ts:3 | a run of digits that is followed by a non-digit is measured exactly |
| ConsoleColors.StripLeadingCode | src/compilerJs.ts:39 | a leading colour marker is removed |
| ConsoleColors.StripBeforeEnd | src/compilerJs.ts:39 | `ESC`-free text followed by the end marker loses only the marker |
| ConsoleColors.StripColored | src/compilerLogger.ts:67 | a coloured line `code + x + end`, with `x` free of `ESC`, strips back to `x` |
| CompilerJs.ToCamel | src/compilerJs.ts:47 | camelCase conversion never lengthens a key, and a key without `_` is unchanged |
| CompilerJs.CamelDashes | src/compilerJs.ts:47-48 | the conversion neither creates nor removes a leading `--`, so stripping it before or after the conversion comes to the same |
| CompilerJs.FormatArgument | src/compilerJs.ts:46-54 | the key is the camelCase of the key without its leading `--`, and a key without `_` only loses that `--`; a missing value becomes `true`, and any other value is kept |
| CompilerJs.ListFlag | src/compilerJs.ts:12-13 | the key is the converted text up to the first `=`; the value is `true` or a string holding no `=` |
| CompilerJs.ListFlagWithValue | src/compilerJs.ts:12-13 | `key=val` sets `key` to `val`, and anything after a second `=` is ignored |
| CompilerJs.ListFlagWithoutValue | src/compilerJs.ts:12-13 | a flag without `=` is switched on (`true`) |
| CompilerJs.UnderscorePairExample | src/compiler.ts:101 | the scan does not overlap: `__a` becomes `_a` |
| CompilerJs.DashesExample | src/compiler.ts:101-102 | `--` is removed after the conversion: `--a_b` becomes `aB` |
| CompilerJs.SecondEqualsExample | src/compiler.ts:58-59 | `a=b=c` gives `a → b` |
| CompilerJs.Normalize | src/compilerJs.ts:10-20 | one normalised pair per input flag or key, in input order |
| CompilerJs.Assign | src/compilerJs.ts:14 | every normalised key is in the options map, and the last pair's value is the one stored for its key |
| CompilerJs.AssignStep | src/compilerJs.ts:14 | each assignment updates exactly one key of the options map |
| CompilerJs.AssignKeys | src/compiler.ts:55-67 | the keys of the options map are exactly the normalised keys, and no other entry appears |
| CompilerJs.AssignLastWins | src/compilerJs.ts:17-20 | when several pairs normalise to the same key, the last of them decides its value |
| CompilerJs.StripAll | src/compilerJs.ts:39 | every logged line is kept in order, without its colour markers |
| CompilerJs.RunReport | src/compilerJs.ts:36-41 | exit code 0 exactly when there is neither a warning nor an error, and 1 otherwise; the error text is empty exactly then too |
| CompilerJs.SourcePathMessage | src/compilerJs.ts:37 | a message about the source path shows an empty source line and a lone `^` once colours are stripped |
| CompilerJs.ClosureCompilerJs.constructor | src/compilerJs.ts:8-22 | the options map is the result of assigning the normalised pairs in order |
| CompilerJs.ClosureCompilerJs.RunFiles | src/compiler.ts:75-93 | reports the exit code and joined stripped log lines of the run, and passes the compiled files through; exit 0 exactly when there are no diagnostics |
| CompilerJs.ClosureCompilerJs.RunSource | src/compilerJs.ts:24-44 | the same, with `sourcePath` and an empty source as the logger's only input file |
| CompilerCmd.ToSnake | src/compilerCmd.ts:113 | no upper-case letter is left, and a key without one is unchanged |
| CompilerCmd.SnakeOfConcat | src/compilerCmd.ts:113 | the conversion works character by character |
| CompilerCmd.SnakeKeeps | src/compilerCmd.ts:113 | a character that is not a letter or `_`, such as `=` or `-`, appears in the result exactly when it appears in the key |
| CompilerCmd.SnakeDashes | src/compilerCmd.ts:113-114 | the conversion neither creates nor removes a leading `--` |
| CompilerCmd.CmdKeyShape | src/compilerCmd.ts:113-114 | stripping `--` after the conversion comes to the same as stripping it before, and the key has no upper-case letter |
| CompilerCmd.FormatArgument | src/compilerCmd.ts:112-121 | every argument starts with `--` |
| CompilerCmd.FormatArgumentShape | src/compilerCmd.ts:112-121 | every argument starts with `--`; it is the bare `--key` exactly when the value is missing, and `--key=` plus the value's text otherwise |
| CompilerCmd.ElementArguments | src/compilerCmd.ts:19-22 | an array value gives one argument per element, in element order |
| CompilerCmd.EntryArguments | src/compilerCmd.ts:19-25 | an array value gives one argument per element, in element order, and any other value exactly one |
| CompilerCmd.ObjectArguments | src/compilerCmd.ts:18-26 | every argument of an options object is a `--` flag |
| CompilerCmd.ObjectArgumentsStep | src/compilerCmd.ts:18-26 | each further key appends exactly its own arguments |
| CompilerCmd.ObjectArgumentsOfScalars | src/compilerCmd.ts:18-26 | with no array values, there is exactly one argument per key, in key order |
| CompilerCmd.CommandArguments | src/compilerCmd.ts:15-26 | the list form is kept as an exact copy, and every argument of the object form is a `--` flag |
| CompilerCmd.CommandText | src/compilerCmd.ts:95-97 | the command text starts with `closure_compiler ` |
| CompilerCmd.CommandTextSplits | src/compilerCmd.ts:96 | when no argument holds a space, the arguments are recovered by splitting the text after the program name |
| CompilerCmd.WithCommand | src/compilerCmd.ts:103-105 | the command, then a blank line, the message unchanged at a fixed offset, and a closing blank line |
| CompilerCmd.FormatEntry | src/compilerCmd.ts:19-25 | the inner loop contributes the arguments of one key: one per element for an array, otherwise one |
| CompilerCmd.ClosureCompilerCmd.constructor | src/compilerCmd.ts:11-28 | the list form is kept as an exact copy, and the object form is formatted key by key; extra arguments are stored as given |
| CompilerCmd.ClosureCompilerCmd.Run | src/compilerCmd.ts:48-54 | the extra arguments are put in front of the stored ones, in their own order, and the rest is unchanged; `closure-compiler` is spawned with the new list after the command is announced |
| CompilerCmd.ClosureCompilerCmd.FullCommand | src/compilerCmd.ts:95-97 | `closure_compiler `, then the stored arguments joined with single spaces |
| CompilerCmd.ClosureCompilerCmd.PrependFullCommand | src/compilerCmd.ts:103-105 | the full command, a blank line, the message unchanged, and a blank line |
| CompilerCmd.ClosureCompilerCmd.OnClose | src/compilerCmd.ts:76-82 | the exit code and standard output pass through; the error text gets the command in front exactly when the exit code is not 0 |
| CompilerCmd.ClosureCompilerCmd.OnSpawnError | src/compilerCmd.ts:84-86 | a spawn failure always reports exit code 1, with the command put in front of the "Process spawn error" message |
| CompilerCmd.RunTwice | src/compilerCmd.ts:49-51 | a second `run` puts the extra arguments in front a second time |
| Compiler.IsVerbose | src/compiler.ts:38 | verbose exactly when the options are an object whose last `warning_level` pair is `VERBOSE` |
| Compiler.Settle | src/compiler.ts:37-46 | verbose with non-empty error text rejects, even with exit code 0; otherwise a non-zero exit rejects with the code in the message; exit 0 accepts with the first compiled file, and without compiled files nothing settles |
| Compiler.CompileOutcome | src/compiler.ts:36-46 | the compilation is rejected exactly when the compiler reports a warning or an error; a clean run hands on its first compiled file, and a clean run without one leaves the outcome unsettled |
| Compiler.SettleFailed | src/compiler.ts:38-41 | a failed run with error text is rejected, and `VERBOSE` decides only the wording |
| Compiler.VerboseOnlyRewords | src/compiler.ts:38-41 | once there is a diagnostic, `VERBOSE` decides only the wording of the rejection |
| Compiler.Compile | src/compiler.ts:29-48 | building the backend and running it gives the decided outcome, which is a rejection exactly when there are diagnostics |
| FlagRoundTrip.CamelAfterUnderscore | src/compilerJs.ts:47 | `_` followed by a word character becomes that character upper-cased |
| FlagRoundTrip.CamelKeeps | src/compilerJs.ts:47 | any character other than `_` is kept |
| FlagRoundTrip.CamelOfSnake | src/compilerCmd.ts:113 | camelCase conversion undoes snake_case conversion on a key without `_` |
| FlagRoundTrip.CmdArgumentReadBack | src/compilerCmd.ts:112-121 | for a key without `_`, `=` or leading `--` and a value without `=`, the list form reads `--key=val` back as `key → val` |
| FlagRoundTrip.CmdArgumentConfiguresJs | src/compilerJs.ts:10-15 | that one argument configures the in-process backend with exactly `key → val` |
| FlagRoundTrip.ObjectThroughCommandLine | src/compilerCmd.ts:18-26 | an options object with such keys and string values normalises the same whether it is given directly or passed through the command-line arguments first |

## Left out

- The embedded compiler (`jscomp`) and the post-compilation transforms are not modelled. The compiler is a foreign library, and its answer is the parameter `out`. The transforms live in files that are not part of this model, so `Compiler.Outcome.Resolved` carries the source they would receive.
- `spawn`, the stream handlers, the event registration, `spawnOptions`, `console.log`/`console.warn` and `debugger` are not modelled, because they are process and console I/O. `Run` returns the announcement text, the program and its arguments, and the handlers are pure functions of what the process reports.
- The `Promise` and `async` wrapper is not modelled. The outcome is a value, and the case where no error occurs and no compiled file exists is `Unsettled`.
- The disk read in `fileFor` is the oracle `disk`. Read errors other than "not found" are not distinguished.
- JavaScript numbers are integers here. Options take no numeric values, and `NaN`, fractional `lineNo`/`charNo` and a `null` exit code from a killed process are not modelled.
- A missing `file` field of a message is modelled as the empty string, and a missing `extraCommandArgs` as the empty list. A `null` extra list, which `run` skips, is not modelled.
- The order of keys is the order of the options pairs. The JavaScript rule that enumerates integer-like keys first is not modelled.
- The compiler is run with the file list as a parameter, rather than with `compileOptions.js`. The `js` entry itself passes through the options map like every other key, and values such as file objects are not `Flags.Value`s.
- Calls without a callback are not modelled. When the callback is absent, both `run`s only return.
- Characters are ASCII as the regular expressions see them. Unicode case mapping and characters outside the Basic Multilingual Plane are not modelled.
- CompilerCmd.FormatArgument: its own contract states only the `--` prefix; the rest of its properties live in the lemma `CompilerCmd.FormatArgumentShape`.
- CompilerCmd.CmdKey: its properties live in the lemma `CompilerCmd.CmdKeyShape` rather than in its own contract.
