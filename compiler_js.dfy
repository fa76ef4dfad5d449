/**
 * The in-process backend, `ClosureCompilerJS`. Its constructor turns the
 * plugin's options into the compiler's options object, renaming snake_case
 * keys to camelCase; `run` hands the options to the embedded compiler and
 * turns the compiler's diagnostics into an exit code and an error text.
 * The class appears twice in the source, once running on a list of input
 * files and once on a single source path; one class models both.
 */
module CompilerJs {
  import opened Wrappers
  import opened Strings
  import opened Flags
  import opened CompilerLogger
  import opened ConsoleColors

  /**
   * `key.replace(/_(\w)/g, m => m[1].toUpperCase())`: scanning left to right,
   * an underscore followed by a word character becomes that character in upper
   * case; the matches do not overlap, so `__a` becomes `_a`.
   */
  function ToCamel(s: string): (r: string)
    ensures |r| <= |s|
    ensures '_' !in s ==> r == s
    decreases |s|
  {
    if |s| >= 2 && s[0] == '_' && IsWordChar(s[1]) then [ToUpper(s[1])] + ToCamel(s[2..])
    else if s == [] then []
    else [s[0]] + ToCamel(s[1..])
  }

  /** The conversion neither creates nor removes a leading `--`. */
  lemma CamelDashes(s: string)
    ensures HasDashes(ToCamel(s)) <==> HasDashes(s)
    ensures HasDashes(s) ==> ToCamel(s) == "--" + ToCamel(s[2..])
  {
    if HasDashes(s) {
      assert s[1..][1..] == s[2..];
    } else if |s| >= 2 && s[0] == '_' && IsWordChar(s[1]) {
    } else if |s| >= 1 && s[0] == '-' {
      var t := s[1..];
      if |t| >= 2 && t[0] == '_' && IsWordChar(t[1]) {
        assert ToCamel(s) == "-" + [ToUpper(t[1])] + ToCamel(t[2..]);
      }
    }
  }

  /** A normalised option: the compiler's key and its value. */
  datatype NormalizedFlag = NormalizedFlag(key: string, val: Value)

  /**
   * `formatArgument`: the key is converted to camelCase and then loses one
   * leading `--`; a missing value means the flag is switched on.
   */
  function FormatArgument(key: string, val: Value): (r: NormalizedFlag)
    ensures r.key == ToCamel(StripDashes(key))
    ensures '_' !in key ==> r.key == StripDashes(key)
    ensures !IsMissing(r.val)
    ensures IsMissing(val) ==> r.val == Bool(true)
    ensures !IsMissing(val) ==> r.val == val
  {
    CamelDashes(key);
    NormalizedFlag(StripDashes(ToCamel(key)), if IsMissing(val) then Bool(true) else val)
  }

  /** An element of the list form: `flag.split('=')`, of which only pieces 0 and 1 are used. */
  function ListFlag(flag: string): (r: NormalizedFlag)
    ensures r.key == ToCamel(StripDashes(Split(flag, '=')[0]))
    ensures r.val == Bool(true) || (r.val.Str? && '=' !in r.val.s)
  {
    var pieces := Split(flag, '=');
    FormatArgument(pieces[0], if |pieces| >= 2 then Str(pieces[1]) else Undefined)
  }

  /** `key=value` sets `key` to `value`, and anything after a second `=` is dropped. */
  lemma ListFlagWithValue(key: string, val: string, rest: string)
    requires '=' !in key && '=' !in val
    ensures ListFlag(key + "=" + val) == FormatArgument(key, Str(val))
    ensures ListFlag(key + "=" + val + "=" + rest) == FormatArgument(key, Str(val))
  {
    SplitAtFirst(key, '=', val);
    SplitWithoutSeparator(val, '=');
    assert key + "=" + val == key + ['='] + val;
    SplitAtFirst(key, '=', val + "=" + rest);
    SplitAtFirst(val, '=', rest);
    assert key + "=" + val + "=" + rest == key + ['='] + (val + ['='] + rest);
  }

  /** A flag without `=` is switched on. */
  lemma ListFlagWithoutValue(key: string)
    requires '=' !in key
    ensures ListFlag(key) == NormalizedFlag(ToCamel(StripDashes(key)), Bool(true))
  {
    SplitWithoutSeparator(key, '=');
  }

  /** The conversion scans left to right without overlap, so `__a` keeps one `_`. */
  lemma UnderscorePairExample()
    ensures FormatArgument("__a", Undefined) == NormalizedFlag("_a", Bool(true))
  {
    assert "__a"[2..] == "a" && "a"[1..] == "";
    assert ToCamel("__a") == "_a";
  }

  /** The `--` goes after the conversion. */
  lemma DashesExample()
    ensures FormatArgument("--a_b", Null) == NormalizedFlag("aB", Bool(true))
  {
    assert "_b"[2..] == "" && "a_b"[1..] == "_b";
    assert ToCamel("a_b") == "aB";
  }

  /** A list flag uses only the text up to its second `=`. */
  lemma SecondEqualsExample()
    ensures ListFlag("a=b=c") == NormalizedFlag("a", Str("b"))
  {
    assert "a=b=c" == "a" + "=" + "b" + "=" + "c";
    ListFlagWithValue("a", "b", "c");
  }

  /** The normalised options in the order the constructor visits them. */
  function Normalize(options: Options): (r: seq<NormalizedFlag>)
    ensures options.FlagList? ==> |r| == |options.flags| && forall i :: 0 <= i < |r| ==> r[i] == ListFlag(options.flags[i])
    ensures options.FlagObject? ==> |r| == |options.entries|
                                    && forall i :: 0 <= i < |r| ==> r[i] == FormatArgument(options.entries[i].0, options.entries[i].1)
  {
    match options
    case FlagList(fs) => seq(|fs|, i requires 0 <= i < |fs| => ListFlag(fs[i]))
    case FlagObject(es) => seq(|es|, i requires 0 <= i < |es| => FormatArgument(es[i].0, es[i].1))
  }

  /** The options object after `this.flags[key] = val` for every pair in turn. */
  function Assign(pairs: seq<NormalizedFlag>): (r: map<string, Value>)
    ensures forall i :: 0 <= i < |pairs| ==> pairs[i].key in r
    ensures pairs != [] ==> r[pairs[|pairs| - 1].key] == pairs[|pairs| - 1].val
  {
    if pairs == [] then map[]
    else Assign(pairs[..|pairs| - 1])[pairs[|pairs| - 1].key := pairs[|pairs| - 1].val]
  }

  lemma AssignStep(pairs: seq<NormalizedFlag>, i: nat)
    requires i < |pairs|
    ensures Assign(pairs[..i + 1]) == Assign(pairs[..i])[pairs[i].key := pairs[i].val]
  {
    assert pairs[..i + 1][..i] == pairs[..i];
  }

  /** The keys of the options object are exactly the normalised keys: no other entry appears. */
  lemma {:induction false} AssignKeys(pairs: seq<NormalizedFlag>)
    ensures Assign(pairs).Keys == set i | 0 <= i < |pairs| :: pairs[i].key
  {
    if pairs != [] {
      var init := pairs[..|pairs| - 1];
      AssignKeys(init);
      assert (set i | 0 <= i < |pairs| :: pairs[i].key)
          == (set i | 0 <= i < |init| :: init[i].key) + {pairs[|pairs| - 1].key};
    }
  }

  /** When several pairs share a key, the last of them decides its value. */
  lemma {:induction false} AssignLastWins(pairs: seq<NormalizedFlag>, i: nat)
    requires i < |pairs|
    requires forall j :: i < j < |pairs| ==> pairs[j].key != pairs[i].key
    ensures pairs[i].key in Assign(pairs) && Assign(pairs)[pairs[i].key] == pairs[i].val
  {
    if i < |pairs| - 1 {
      AssignLastWins(pairs[..|pairs| - 1], i);
    }
  }

  /** A compiled file as the compiler returns it. */
  datatype CompiledFile = CompiledFile(src: string, path: string, sourceMap: string)

  /** What the embedded compiler returns; the compiler itself is not part of this model. */
  datatype CompilerOutput = CompilerOutput(warnings: seq<Msg>, errors: seq<Msg>, compiledFiles: seq<CompiledFile>)

  /** The exit code and error text `run` passes to its callback. */
  datatype Report = Report(exitCode: int, stdErr: string)

  function StripAll(lines: seq<string>): (r: seq<string>)
    ensures |r| == |lines| && forall i :: 0 <= i < |r| ==> r[i] == StripColors(lines[i])
  {
    seq(|lines|, i requires 0 <= i < |lines| => StripColors(lines[i]))
  }

  /**
   * Every logged line, stripped of colour markers, counts as an error line.
   * So `run` succeeds exactly when the compiler reported neither a warning
   * nor an error, and only then is its error text empty: every message is
   * logged as at least three lines, whatever the logger itself answers.
   */
  function RunReport(out: CompilerOutput, inputs: seq<InputFile>, disk: map<string, string>): (r: Report)
    ensures r.exitCode == 0 <==> out.warnings == [] && out.errors == []
    ensures r.exitCode == 0 || r.exitCode == 1
    ensures r.stdErr == "" <==> out.warnings == [] && out.errors == []
  {
    var errors := StripAll(LogLines(out.warnings, out.errors, inputs, disk));
    Report(if |errors| == 0 then 0 else 1, JoinWith(errors, "\n\n"))
  }

  /**
   * The only input file `run` gives the logger for a source path is that path
   * with an empty source, so a message about it shows an empty source line and
   * a lone caret once the colours are stripped.
   */
  lemma SourcePathMessage(color: string, msg: Msg, sourcePath: string, disk: map<string, string>)
    requires color == ColorYellow || color == ColorRed
    requires sourcePath != "" && msg.file == sourcePath
    ensures var lines := WriteMsg(color, msg, [InputFile("", sourcePath)], disk);
            |lines| == 5 && StripColors(lines[2]) == "" && StripColors(lines[3]) == "^"
  {
    var inputs := [InputFile("", sourcePath)];
    assert FileFor(msg.file, inputs, disk) == Some(inputs[0]);
    var line := SourceLine("", msg.lineNo);
    assert line == "";
    var lines := WriteMsg(color, msg, inputs, disk);
    assert lines[2] == color + "" + ColorEnd;
    assert lines[3] == ColorGreen + "^" + ColorEnd;
    LoggerColors();
    StripColored(color, "");
    StripColored(ColorGreen, "^");
  }

  class ClosureCompilerJs {
    /** The compiler options (`flags` in one copy of the class, `compileOptions` in the other). */
    var flags: map<string, Value>

    /** Fills the options object from the plugin's options; a later key overwrites an earlier one. */
    constructor (options: Options)
      ensures flags == Assign(Normalize(options))
    {
      ghost var pairs := Normalize(options);
      var m: map<string, Value> := map[];
      match options {
        case FlagList(fs) =>
          var i := 0;
          while i < |fs|
            invariant 0 <= i <= |fs|
            invariant m == Assign(pairs[..i])
          {
            var pieces := Split(fs[i], '=');
            var nf := FormatArgument(pieces[0], if |pieces| >= 2 then Str(pieces[1]) else Undefined);
            AssignStep(pairs, i);
            m := m[nf.key := nf.val];
            i := i + 1;
          }
          assert pairs[..i] == pairs;
        case FlagObject(es) =>
          var i := 0;
          while i < |es|
            invariant 0 <= i <= |es|
            invariant m == Assign(pairs[..i])
          {
            var nf := FormatArgument(es[i].0, es[i].1);
            AssignStep(pairs, i);
            m := m[nf.key := nf.val];
            i := i + 1;
          }
          assert pairs[..i] == pairs;
      }
      flags := m;
    }

    /**
     * `run(fileList, callback)` with the compiler's output `out`: logs the
     * diagnostics against the input files, collects every logged line without
     * its colour markers and reports them joined by blank lines.
     */
    method RunFiles(out: CompilerOutput, fileList: seq<InputFile>, disk: map<string, string>)
      returns (exitCode: int, compiled: seq<CompiledFile>, stdErr: string)
      ensures Report(exitCode, stdErr) == RunReport(out, fileList, disk)
      ensures compiled == out.compiledFiles
      ensures exitCode == 0 <==> out.warnings == [] && out.errors == []
    {
      var lines, _ := CompilerLogOutput(out.warnings, out.errors, fileList, disk);
      var errors: seq<string> := [];
      var i := 0;
      while i < |lines|
        invariant 0 <= i <= |lines|
        invariant |errors| == i
        invariant forall k :: 0 <= k < i ==> errors[k] == StripColors(lines[k])
      {
        errors := errors + [StripColors(lines[i])];
        i := i + 1;
      }
      assert errors == StripAll(lines);
      exitCode := if |errors| == 0 then 0 else 1;
      compiled := out.compiledFiles;
      stdErr := JoinWith(errors, "\n\n");
    }

    /** `run(sourcePath, callback)`: the logger sees the one input `sourcePath` with an empty source. */
    method RunSource(out: CompilerOutput, sourcePath: string, disk: map<string, string>)
      returns (exitCode: int, compiled: seq<CompiledFile>, stdErr: string)
      ensures Report(exitCode, stdErr) == RunReport(out, [InputFile("", sourcePath)], disk)
      ensures compiled == out.compiledFiles
      ensures exitCode == 0 <==> out.warnings == [] && out.errors == []
    {
      exitCode, compiled, stdErr := RunFiles(out, [InputFile("", sourcePath)], disk);
    }
  }
}
