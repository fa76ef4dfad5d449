/**
 * The diagnostic logger shared by both in-process runners: every warning and
 * error record from the compiler becomes a header, its description and, when
 * the file it names can be found, the offending source line and a caret line
 * under it, followed by a blank line. In the source the same logger appears
 * twice, as `compilerLogOutput` and as `closureCompilerLogErrors`.
 */
module CompilerLogger {
  import opened Wrappers
  import opened Strings

  const Esc: char := '\U{1B}'
  const ColorEnd: string := [Esc] + "[0m"
  const ColorRed: string := [Esc] + "[91m"
  const ColorGreen: string := [Esc] + "[92m"
  const ColorYellow: string := [Esc] + "[93m"

  /** A warning or error record reported by the compiler; `kind` is its `type` field. */
  datatype Msg = Msg(charNo: int, description: string, file: string, lineNo: int, kind: string)

  /** An input file handed to the compiler. */
  datatype InputFile = InputFile(src: string, path: string)

  /** `s.replace(/[^\t]/g, ' ')`: every character but a tab becomes a space. */
  function BlankNonTabs(s: string): (r: string)
    ensures |r| == |s|
    ensures forall i :: 0 <= i < |s| ==> (r[i] == '\t' <==> s[i] == '\t') && (r[i] == '\t' || r[i] == ' ')
  {
    if s == [] then [] else [if s[0] == '\t' then '\t' else ' '] + BlankNonTabs(s[1..])
  }

  /**
   * The padding that puts a caret under column `charNo` of `line`: the first
   * `charNo` characters (`substr` clamps a negative length to 0 and a long one
   * to the line), blanked except for tabs so that the caret lines up.
   */
  function CaretPrefix(line: string, charNo: int): (r: string)
    ensures |r| == if charNo <= 0 then 0 else if charNo < |line| then charNo else |line|
    ensures forall i :: 0 <= i < |r| ==> (r[i] == '\t' <==> line[i] == '\t') && (r[i] == '\t' || r[i] == ' ')
  {
    var n := if charNo <= 0 then 0 else if charNo < |line| then charNo else |line|;
    BlankNonTabs(line[..n])
  }

  /** `inputFiles.find(f => f.path === path)`, as the index of the first match. */
  function FindInput(inputs: seq<InputFile>, path: string): (r: Option<nat>)
    ensures r.None? <==> forall i :: 0 <= i < |inputs| ==> inputs[i].path != path
    ensures r.Some? ==> r.value < |inputs| && inputs[r.value].path == path
                        && forall j :: 0 <= j < r.value ==> inputs[j].path != path
  {
    if inputs == [] then None
    else if inputs[0].path == path then Some(0)
    else match FindInput(inputs[1..], path)
      case None => None
      case Some(k) => Some(k + 1)
  }

  /**
   * `fileFor`: no file for an empty name; otherwise the first input file with
   * that path; otherwise the file read from disk. The file system is the oracle
   * `disk`: reading `file` succeeds exactly when `file in disk`.
   */
  function FileFor(file: string, inputs: seq<InputFile>, disk: map<string, string>): (r: Option<InputFile>)
    ensures file == "" ==> r == None
    ensures r.Some? ==> r.value.path == file
    ensures forall i :: (0 <= i < |inputs| && file != "" && inputs[i].path == file
                         && forall j :: 0 <= j < i ==> inputs[j].path != file) ==> r == Some(inputs[i])
    ensures file != "" && (forall i :: 0 <= i < |inputs| ==> inputs[i].path != file) ==>
              r == if file in disk then Some(InputFile(disk[file], file)) else None
  {
    if file == "" then None
    else match FindInput(inputs, file)
      case Some(i) => Some(inputs[i])
      case None => if file in disk then Some(InputFile(disk[file], file)) else None
  }

  /** The first line logged for a message. */
  function Header(msg: Msg): (r: string)
    ensures r == msg.kind <==> msg.file == "" && msg.lineNo < 0
    ensures r != msg.kind ==> r == msg.file + ":" + IntText(msg.lineNo) + " (" + msg.kind + ")"
  {
    if msg.file == "" && msg.lineNo < 0 then msg.kind
    else msg.file + ":" + IntText(msg.lineNo) + " (" + msg.kind + ")"
  }

  /** `lines[lineNo - 1] || ''` where `lines = src.split('\n')`. */
  function SourceLine(src: string, lineNo: int): (r: string)
    ensures '\n' !in r
    ensures !(1 <= lineNo <= |Split(src, '\n')|) ==> r == ""
  {
    var lines := Split(src, '\n');
    if 1 <= lineNo <= |lines| then lines[lineNo - 1] else ""
  }

  /** Line `k` (counting from 1) of a text made of newline-free lines is the `k`-th of them. */
  lemma SourceLineOfLines(lines: seq<string>, k: int)
    requires |lines| >= 1 && forall i :: 0 <= i < |lines| ==> '\n' !in lines[i]
    ensures SourceLine(JoinWith(lines, "\n"), k) == if 1 <= k <= |lines| then lines[k - 1] else ""
  {
    SplitJoin(lines, '\n');
  }

  /** `writemsg(color, msg)`: the lines it hands to the logger callback, in order. */
  function WriteMsg(color: string, msg: Msg, inputs: seq<InputFile>, disk: map<string, string>): (r: seq<string>)
    ensures |r| == if FileFor(msg.file, inputs, disk).Some? then 5 else 3
    ensures r[0] == Header(msg) && r[1] == msg.description && r[|r| - 1] == ""
    ensures FileFor(msg.file, inputs, disk).Some? ==>
              var line := SourceLine(FileFor(msg.file, inputs, disk).value.src, msg.lineNo);
              r[2] == color + line + ColorEnd && r[3] == ColorGreen + CaretPrefix(line, msg.charNo) + "^" + ColorEnd
  {
    var head := [Header(msg), msg.description];
    match FileFor(msg.file, inputs, disk)
    case None => head + [""]
    case Some(f) =>
      var line := SourceLine(f.src, msg.lineNo);
      head + [color + line + ColorEnd, ColorGreen + CaretPrefix(line, msg.charNo) + "^" + ColorEnd] + [""]
  }

  /** The lines logged for `msgs.forEach(writemsg.bind(null, color))`: three to five per message. */
  function MessagesLines(color: string, msgs: seq<Msg>, inputs: seq<InputFile>, disk: map<string, string>): (r: seq<string>)
    ensures 3 * |msgs| <= |r| <= 5 * |msgs|
  {
    if msgs == [] then []
    else MessagesLines(color, msgs[..|msgs| - 1], inputs, disk) + WriteMsg(color, msgs[|msgs| - 1], inputs, disk)
  }

  lemma MessagesLinesStep(color: string, msgs: seq<Msg>, i: nat, inputs: seq<InputFile>, disk: map<string, string>)
    requires i < |msgs|
    ensures MessagesLines(color, msgs[..i + 1], inputs, disk)
         == MessagesLines(color, msgs[..i], inputs, disk) + WriteMsg(color, msgs[i], inputs, disk)
  {
    assert msgs[..i + 1][..i] == msgs[..i];
  }

  /**
   * Everything the logger emits: all warnings in yellow, then all errors in
   * red. It emits nothing exactly when there is neither a warning nor an
   * error, and otherwise at least three lines per message.
   */
  function LogLines(warnings: seq<Msg>, errors: seq<Msg>, inputs: seq<InputFile>, disk: map<string, string>): (r: seq<string>)
    ensures r == [] <==> warnings == [] && errors == []
    ensures |r| >= 3 * (|warnings| + |errors|)
  {
    MessagesLines(ColorYellow, warnings, inputs, disk) + MessagesLines(ColorRed, errors, inputs, disk)
  }

  /** `msgs.forEach(writemsg.bind(null, color))`: the lines of each message in turn. */
  method WriteAll(color: string, msgs: seq<Msg>, inputs: seq<InputFile>, disk: map<string, string>)
    returns (lines: seq<string>)
    ensures lines == MessagesLines(color, msgs, inputs, disk)
  {
    lines := [];
    var i := 0;
    while i < |msgs|
      invariant 0 <= i <= |msgs|
      invariant lines == MessagesLines(color, msgs[..i], inputs, disk)
    {
      MessagesLinesStep(color, msgs, i, inputs, disk);
      lines := lines + WriteMsg(color, msgs[i], inputs, disk);
      i := i + 1;
    }
    assert msgs[..i] == msgs;
  }

  /**
   * `compilerLogOutput` / `closureCompilerLogErrors`: emits the lines of every
   * warning, then of every error, and answers whether the compilation should
   * fail, which is whether there is an error.
   */
  method CompilerLogOutput(warnings: seq<Msg>, errors: seq<Msg>, inputs: seq<InputFile>, disk: map<string, string>)
    returns (lines: seq<string>, failed: bool)
    ensures lines == LogLines(warnings, errors, inputs, disk)
    ensures failed <==> errors != []
  {
    var warned := WriteAll(ColorYellow, warnings, inputs, disk);
    var errored := WriteAll(ColorRed, errors, inputs, disk);
    lines := warned + errored;
    failed := |errors| > 0;
  }
}
