/**
 * The command-line backend, `ClosureCompilerCMD`. Its constructor turns the
 * plugin's options into `--snake_case[=value]` arguments for the
 * `closure-compiler` program; `run` puts the extra arguments in front, spawns
 * the program and reports its exit code and error text, prefixed by the
 * command line when the program failed.
 */
module CompilerCmd {
  import opened Strings
  import opened Flags

  /** `key.replace(/[A-Z]/g, m => `_${m.toLowerCase()}`)`: every upper-case letter becomes `_` and its lower case. */
  function ToSnake(s: string): (r: string)
    ensures forall i :: 0 <= i < |r| ==> !IsUpper(r[i])
    ensures (forall i :: 0 <= i < |s| ==> !IsUpper(s[i])) ==> r == s
  {
    if s == [] then []
    else (if IsUpper(s[0]) then ['_', ToLower(s[0])] else [s[0]]) + ToSnake(s[1..])
  }

  /** The conversion works letter by letter. */
  lemma {:induction false} SnakeOfConcat(a: string, b: string)
    ensures ToSnake(a + b) == ToSnake(a) + ToSnake(b)
  {
    if a == [] {
      assert a + b == b;
    } else {
      assert (a + b)[1..] == a[1..] + b;
      SnakeOfConcat(a[1..], b);
    }
  }

  /** Characters other than upper-case letters, `_` and lower-case letters neither appear nor vanish. */
  lemma {:induction false} SnakeKeeps(s: string, c: char)
    requires !IsUpper(c) && !IsLower(c) && c != '_'
    ensures c in ToSnake(s) <==> c in s
  {
    if s != [] {
      SnakeKeeps(s[1..], c);
      assert s == [s[0]] + s[1..];
    }
  }

  /** The conversion neither creates nor removes a leading `--`. */
  lemma SnakeDashes(s: string)
    ensures HasDashes(ToSnake(s)) <==> HasDashes(s)
    ensures HasDashes(s) ==> ToSnake(s) == "--" + ToSnake(s[2..])
  {
  }

  /** The key part of an argument: converted, then one leading `--` removed. */
  function CmdKey(key: string): string
  {
    StripDashes(ToSnake(key))
  }

  /** Removing the `--` before or after the conversion comes to the same, and no upper-case letter is left. */
  lemma CmdKeyShape(key: string)
    ensures CmdKey(key) == ToSnake(StripDashes(key))
    ensures forall i :: 0 <= i < |CmdKey(key)| ==> !IsUpper(CmdKey(key)[i])
  {
    SnakeDashes(key);
  }

  /** `formatArgument`: `--key` for a missing value, otherwise `--key=value`. */
  function FormatArgument(key: string, val: Value): (r: string)
    ensures StartsWith(r, "--")
  {
    if IsMissing(val) then "--" + CmdKey(key) else "--" + CmdKey(key) + "=" + ToText(val)
  }

  /**
   * Every argument starts with `--`; it is the bare key exactly when the value
   * is missing, and otherwise it carries the value's text verbatim after `=`.
   */
  lemma FormatArgumentShape(key: string, val: Value)
    ensures StartsWith(FormatArgument(key, val), "--")
    ensures FormatArgument(key, val) == "--" + CmdKey(key) <==> IsMissing(val)
    ensures !IsMissing(val) ==> FormatArgument(key, val) == "--" + CmdKey(key) + "=" + ToText(val)
  {
    if !IsMissing(val) {
      assert |FormatArgument(key, val)| > |"--" + CmdKey(key)|;
    }
  }

  /** The arguments of one array-valued option: one per element, in element order. */
  function ElementArguments(key: string, items: seq<Value>): (r: seq<string>)
    ensures |r| == |items| && forall j :: 0 <= j < |items| ==> r[j] == FormatArgument(key, items[j])
  {
    seq(|items|, j requires 0 <= j < |items| => FormatArgument(key, items[j]))
  }

  /** The arguments of one option: one per element of an array, in element order, otherwise exactly one. */
  function EntryArguments(key: string, val: Value): (r: seq<string>)
    ensures val.List? ==> |r| == |val.items| && forall j :: 0 <= j < |r| ==> r[j] == FormatArgument(key, val.items[j])
    ensures !val.List? ==> r == [FormatArgument(key, val)]
  {
    if val.List? then ElementArguments(key, val.items) else [FormatArgument(key, val)]
  }

  /** The arguments of an options object, key by key; every one of them is a `--` flag. */
  function ObjectArguments(entries: seq<(string, Value)>): (r: seq<string>)
    ensures forall i :: 0 <= i < |r| ==> StartsWith(r[i], "--")
  {
    if entries == [] then []
    else ObjectArguments(entries[..|entries| - 1]) + EntryArguments(entries[|entries| - 1].0, entries[|entries| - 1].1)
  }

  lemma ObjectArgumentsStep(entries: seq<(string, Value)>, k: nat)
    requires k < |entries|
    ensures ObjectArguments(entries[..k + 1]) == ObjectArguments(entries[..k]) + EntryArguments(entries[k].0, entries[k].1)
  {
    assert entries[..k + 1][..k] == entries[..k];
  }

  /** Without array values, an options object gives exactly one argument per key, in key order. */
  lemma {:induction false} ObjectArgumentsOfScalars(entries: seq<(string, Value)>)
    requires forall i :: 0 <= i < |entries| ==> !entries[i].1.List?
    ensures |ObjectArguments(entries)| == |entries|
    ensures forall i :: 0 <= i < |entries| ==> ObjectArguments(entries)[i] == FormatArgument(entries[i].0, entries[i].1)
  {
    if entries != [] {
      var init, last := entries[..|entries| - 1], entries[|entries| - 1];
      ObjectArgumentsOfScalars(init);
      var prefix := ObjectArguments(init);
      var arg := FormatArgument(last.0, last.1);
      assert EntryArguments(last.0, last.1) == [arg];
      var all := ObjectArguments(entries);
      assert all == prefix + [arg];
      forall i | 0 <= i < |entries|
        ensures all[i] == FormatArgument(entries[i].0, entries[i].1)
      {
        if i < |init| {
          assert prefix[i] == FormatArgument(init[i].0, init[i].1);
          assert init[i] == entries[i] && all[i] == prefix[i];
        } else {
          assert all[i] == arg;
        }
      }
    }
  }

  /** The argument list the constructor builds: a list is copied as it is, an object is formatted. */
  function CommandArguments(args: Options): (r: seq<string>)
    ensures args.FlagList? ==> r == args.flags
    ensures args.FlagObject? ==> forall i :: 0 <= i < |r| ==> StartsWith(r[i], "--")
  {
    match args
    case FlagList(fs) => fs
    case FlagObject(es) => ObjectArguments(es)
  }

  const CommandName: string := "closure_compiler"

  /** `getFullCommand`: the program name and the arguments, separated by single spaces. */
  function CommandText(args: seq<string>): (r: string)
    ensures StartsWith(r, CommandName + " ")
  {
    CommandName + " " + JoinWith(args, " ")
  }

  /** When no argument holds a space, the arguments can be read back from the command text. */
  lemma CommandTextSplits(args: seq<string>)
    requires |args| >= 1
    requires forall i :: 0 <= i < |args| ==> ' ' !in args[i]
    ensures Split(CommandText(args)[|CommandName| + 1..], ' ') == args
  {
    assert CommandText(args)[|CommandName| + 1..] == JoinWith(args, [' ']);
    SplitJoin(args, ' ');
  }

  /** `prependFullCommand(msg)` for a given command text. */
  function WithCommand(command: string, msg: string): (r: string)
    ensures StartsWith(r, command + "\n\n")
    ensures |r| == |command| + |msg| + 4 && r[|command| + 2..|r| - 2] == msg
    ensures r[|r| - 2..] == "\n\n"
  {
    command + "\n\n" + msg + "\n\n"
  }

  const SpawnErrorText: string := "Process spawn error. Is java in the path?\n"

  /** The arguments `run` passes to its callback. */
  datatype Callback = Callback(exitCode: int, stdOut: string, stdErr: string)

  /** The inner loop of the constructor: the arguments one option contributes, in order. */
  method FormatEntry(key: string, val: Value) returns (added: seq<string>)
    ensures added == EntryArguments(key, val)
  {
    added := [];
    if val.List? {
      var j := 0;
      while j < |val.items|
        invariant 0 <= j <= |val.items|
        invariant |added| == j && forall m :: 0 <= m < j ==> added[m] == FormatArgument(key, val.items[m])
      {
        added := added + [FormatArgument(key, val.items[j])];
        j := j + 1;
      }
      assert added == ElementArguments(key, val.items);
    } else {
      added := [FormatArgument(key, val)];
    }
  }

  class ClosureCompilerCmd {
    var commandArguments: seq<string>
    var extraCommandArgs: seq<string>

    constructor (args: Options, extraCommandArgs: seq<string>)
      ensures commandArguments == CommandArguments(args)
      ensures this.extraCommandArgs == extraCommandArgs
    {
      var acc: seq<string> := [];
      match args {
        case FlagList(fs) =>
          acc := acc + fs;
        case FlagObject(es) =>
          var k := 0;
          while k < |es|
            invariant 0 <= k <= |es|
            invariant acc == ObjectArguments(es[..k])
          {
            var added := FormatEntry(es[k].0, es[k].1);
            ObjectArgumentsStep(es, k);
            acc := acc + added;
            k := k + 1;
          }
          assert es[..k] == es;
      }
      commandArguments := acc;
      this.extraCommandArgs := extraCommandArgs;
    }

    /**
     * The first part of `run`: the extra arguments go in front of the stored
     * ones, in their own order, and the command is announced and spawned.
     * Returns the announcement, the program and the arguments it is given.
     */
    method Run() returns (notice: string, program: string, argv: seq<string>)
      modifies this
      ensures commandArguments == old(extraCommandArgs) + old(commandArguments)
      ensures extraCommandArgs == old(extraCommandArgs)
      ensures notice == FullCommand() + "\n"
      ensures program == "closure-compiler" && argv == commandArguments
    {
      commandArguments := extraCommandArgs + commandArguments;
      notice := FullCommand() + "\n";
      program := "closure-compiler";
      argv := commandArguments;
    }

    /** `getFullCommand`: the program name, then the stored arguments separated by single spaces. */
    function FullCommand(): (r: string)
      reads this
      ensures StartsWith(r, CommandName + " ") && r[|CommandName| + 1..] == JoinWith(commandArguments, " ")
    {
      CommandText(commandArguments)
    }

    /** `prependFullCommand(msg)`: the command, a blank line, the message and a blank line. */
    function PrependFullCommand(msg: string): (r: string)
      reads this
      ensures StartsWith(r, FullCommand() + "\n\n")
      ensures |r| == |FullCommand()| + |msg| + 4 && r[|FullCommand()| + 2..|r| - 2] == msg
      ensures r[|r| - 2..] == "\n\n"
    {
      WithCommand(FullCommand(), msg)
    }

    /** The `close` handler: the error text is prefixed by the command only when the exit code is not 0. */
    function OnClose(code: int, stdOut: string, stdErr: string): (r: Callback)
      reads this
      ensures r.exitCode == code && r.stdOut == stdOut
      ensures code == 0 ==> r.stdErr == stdErr
      ensures code != 0 ==> r.stdErr == WithCommand(CommandText(commandArguments), stdErr)
    {
      Callback(code, stdOut, if code != 0 then PrependFullCommand(stdErr) else stdErr)
    }

    /** The `error` handler: a process that cannot be spawned reports exit code 1 and a prefixed message. */
    function OnSpawnError(stdOut: string, message: string): (r: Callback)
      reads this
      ensures r.exitCode == 1 && r.stdOut == stdOut
      ensures r.stdErr == WithCommand(CommandText(commandArguments), SpawnErrorText + message)
    {
      Callback(1, stdOut, PrependFullCommand(SpawnErrorText + message))
    }
  }

  /** Running twice puts the extra arguments in front twice. */
  method RunTwice(c: ClosureCompilerCmd)
    modifies c
    ensures c.commandArguments == old(c.extraCommandArgs) + old(c.extraCommandArgs) + old(c.commandArguments)
  {
    var _, _, _ := c.Run();
    var _, _, _ := c.Run();
  }
}
