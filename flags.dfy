/**
 * The option values both compiler backends accept: a JavaScript value is
 * undefined, null, a boolean, a string or an array; the options themselves
 * are either a list of `key=value` flags or an object, given here as its
 * key/value pairs in enumeration order.
 */
module Flags {
  import opened Wrappers
  import opened Strings

  datatype Value = Undefined | Null | Bool(b: bool) | Str(s: string) | List(items: seq<Value>)

  /** `val === undefined || val === null`. */
  predicate IsMissing(v: Value) { v == Undefined || v == Null }

  /** String conversion, as a template literal `${v}` performs it: a string verbatim, a boolean as `true` or `false`. */
  function ToText(v: Value): (r: string)
    ensures v.Str? ==> r == v.s
    ensures v.Bool? ==> r == if v.b then "true" else "false"
    decreases v, 1
  {
    match v
    case Undefined => "undefined"
    case Null => "null"
    case Bool(b) => if b then "true" else "false"
    case Str(s) => s
    case List(items) => ItemsText(items)
  }

  /** `Array.prototype.join(",")`: an undefined or null element contributes nothing. */
  function ItemsText(items: seq<Value>): (r: string)
    ensures |items| >= 2 ==> ',' in r
    decreases items, 0
  {
    if items == [] then ""
    else
      var first := if IsMissing(items[0]) then "" else ToText(items[0]);
      if |items| == 1 then first else first + "," + ItemsText(items[1..])
  }

  /** The strings of an array, none holding a comma, are read back by splitting its text at the commas. */
  lemma {:induction false} ItemsTextSplits(items: seq<Value>)
    requires |items| >= 1
    requires forall i :: 0 <= i < |items| ==> items[i].Str? && ',' !in items[i].s
    ensures Split(ItemsText(items), ',') == seq(|items|, i requires 0 <= i < |items| => items[i].s)
  {
    var strs := seq(|items|, i requires 0 <= i < |items| => items[i].s);
    if |items| == 1 {
      SplitWithoutSeparator(items[0].s, ',');
    } else {
      var rest := items[1..];
      ItemsTextSplits(rest);
      assert ItemsText(items) == items[0].s + [','] + ItemsText(rest);
      SplitAtFirst(items[0].s, ',', ItemsText(rest));
      assert strs == [items[0].s] + seq(|rest|, i requires 0 <= i < |rest| => rest[i].s);
    }
  }

  datatype Options =
    | FlagList(flags: seq<string>)
    | FlagObject(entries: seq<(string, Value)>)

  /** The value an object holds for `key`: a later pair overrides an earlier one. */
  function Lookup(entries: seq<(string, Value)>, key: string): (r: Option<Value>)
    ensures r == None <==> forall i :: 0 <= i < |entries| ==> entries[i].0 != key
    ensures r.Some? ==> exists i :: 0 <= i < |entries| && entries[i] == (key, r.value)
                                    && forall j :: i < j < |entries| ==> entries[j].0 != key
  {
    if entries == [] then None
    else if entries[|entries| - 1].0 == key then Some(entries[|entries| - 1].1)
    else Lookup(entries[..|entries| - 1], key)
  }

  predicate HasDashes(s: string) { |s| >= 2 && s[0] == '-' && s[1] == '-' }

  /** `s.replace(/^--/, '')`: one leading `--` is removed, if there is one. */
  function StripDashes(s: string): (r: string)
    ensures HasDashes(s) ==> s == "--" + r
    ensures !HasDashes(s) ==> r == s
  {
    if HasDashes(s) then s[2..] else s
  }
}
