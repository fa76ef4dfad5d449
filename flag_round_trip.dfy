/**
 * How the two backends' key conventions fit together: an argument the
 * command-line backend writes is read back by the in-process backend's list
 * form as the key and value it was written from.
 */
module FlagRoundTrip {
  import opened Strings
  import opened Flags
  import CompilerJs
  import CompilerCmd

  /** Keys the command-line backend writes back unchanged: no `_`, no `=` and no leading `--`. */
  predicate PlainKey(key: string) {
    '_' !in key && '=' !in key && !HasDashes(key)
  }

  /** A letter after `_` is capitalised and the `_` dropped. */
  lemma CamelAfterUnderscore(c: char, rest: string)
    requires IsWordChar(c)
    ensures CompilerJs.ToCamel(['_', c] + rest) == [ToUpper(c)] + CompilerJs.ToCamel(rest)
  {
    assert (['_', c] + rest)[2..] == rest;
  }

  /** Any other character is kept. */
  lemma CamelKeeps(c: char, rest: string)
    requires c != '_'
    ensures CompilerJs.ToCamel([c] + rest) == [c] + CompilerJs.ToCamel(rest)
  {
    assert ([c] + rest)[1..] == rest;
  }

  /** camelCase undoes snake_case on a key without underscores. */
  lemma {:induction false} CamelOfSnake(key: string)
    requires '_' !in key
    ensures CompilerJs.ToCamel(CompilerCmd.ToSnake(key)) == key
  {
    if key != [] {
      var c, tail := key[0], key[1..];
      assert key == [c] + tail;
      assert '_' !in tail;
      CamelOfSnake(tail);
      var rest := CompilerCmd.ToSnake(tail);
      if IsUpper(c) {
        assert CompilerCmd.ToSnake(key) == ['_', ToLower(c)] + rest;
        CamelAfterUnderscore(ToLower(c), rest);
        UpperOfLower(c);
      } else {
        assert CompilerCmd.ToSnake(key) == [c] + rest;
        CamelKeeps(c, rest);
      }
    }
  }

  /** `--key=val` written by the command-line backend is read back as `key → val`. */
  lemma CmdArgumentReadBack(key: string, val: string)
    requires PlainKey(key) && '=' !in val
    ensures CompilerJs.ListFlag(CompilerCmd.FormatArgument(key, Str(val))) == CompilerJs.NormalizedFlag(key, Str(val))
  {
    var snake := CompilerCmd.ToSnake(key);
    CompilerCmd.SnakeDashes(key);
    CompilerCmd.SnakeKeeps(key, '=');
    CompilerCmd.SnakeKeeps(key, '-');
    var k := "--" + snake;
    assert CompilerCmd.FormatArgument(key, Str(val)) == k + "=" + val;
    assert '=' !in k;
    CompilerJs.ListFlagWithValue(k, val, "");
    CompilerJs.CamelDashes(k);
    assert HasDashes(k) && k[2..] == snake;
    CamelOfSnake(key);
  }

  /** Feeding that one argument to the in-process constructor sets exactly `key` to `val`. */
  lemma CmdArgumentConfiguresJs(key: string, val: string)
    requires PlainKey(key) && '=' !in val
    ensures CompilerJs.Assign(CompilerJs.Normalize(FlagList([CompilerCmd.FormatArgument(key, Str(val))])))
         == map[key := Str(val)]
  {
    CmdArgumentReadBack(key, val);
    var pairs := CompilerJs.Normalize(FlagList([CompilerCmd.FormatArgument(key, Str(val))]));
    assert pairs == [CompilerJs.NormalizedFlag(key, Str(val))];
    assert pairs[..0] == [];
  }

  /**
   * An options object of plain keys and `=`-free string values configures the
   * in-process backend the same whether it is given directly or first turned
   * into command-line arguments.
   */
  lemma {:induction false} ObjectThroughCommandLine(entries: seq<(string, Value)>)
    requires forall i :: 0 <= i < |entries| ==> PlainKey(entries[i].0) && entries[i].1.Str? && '=' !in entries[i].1.s
    ensures CompilerJs.Normalize(FlagList(CompilerCmd.ObjectArguments(entries)))
         == CompilerJs.Normalize(FlagObject(entries))
  {
    CompilerCmd.ObjectArgumentsOfScalars(entries);
    var args := CompilerCmd.ObjectArguments(entries);
    forall i | 0 <= i < |entries|
      ensures CompilerJs.ListFlag(args[i]) == CompilerJs.FormatArgument(entries[i].0, entries[i].1)
    {
      var key, val := entries[i].0, entries[i].1.s;
      CmdArgumentReadBack(key, val);
    }
  }
}
