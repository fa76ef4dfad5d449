/**
 * The terminal colour markers the logger writes, and their removal: the
 * in-process runner strips every match of `/\u001B\[\d+m/g` from each logged
 * line before it reports the line.
 */
module ConsoleColors {
  import opened Strings
  import opened CompilerLogger

  /** A whole marker: `ESC`, `[`, one or more digits and `m`. */
  predicate IsColorCode(code: string) {
    |code| >= 4 && code[0] == Esc && code[1] == '[' && code[|code| - 1] == 'm'
    && forall i :: 2 <= i < |code| - 1 ==> IsDigit(code[i])
  }

  /** The logger's constants are all markers. */
  lemma LoggerColors()
    ensures IsColorCode(ColorEnd) && IsColorCode(ColorRed) && IsColorCode(ColorGreen) && IsColorCode(ColorYellow)
  {
  }

  /** The number of decimal digits at the start of `s`: all of them digits, and the next character is not one. */
  function DigitRun(s: string): (n: nat)
    ensures n <= |s|
    ensures forall i :: 0 <= i < n ==> IsDigit(s[i])
    ensures n < |s| ==> !IsDigit(s[n])
  {
    if s != [] && IsDigit(s[0]) then 1 + DigitRun(s[1..]) else 0
  }

  /** A run of digits ended by a non-digit is measured exactly. */
  lemma {:induction false} DigitRunOf(digits: string, rest: string)
    requires forall i :: 0 <= i < |digits| ==> IsDigit(digits[i])
    requires rest != [] && !IsDigit(rest[0])
    ensures DigitRun(digits + rest) == |digits|
  {
    if digits != [] {
      assert (digits + rest)[1..] == digits[1..] + rest;
      DigitRunOf(digits[1..], rest);
    }
  }

  /**
   * The length of the match of `/\u001B\[\d+m/` at the start of `s`, or 0
   * when none starts there; what it measures is a whole marker.
   */
  function ColorCodeLength(s: string): (n: nat)
    ensures n <= |s|
    ensures n > 0 ==> IsColorCode(s[..n])
  {
    if |s| >= 2 && s[0] == Esc && s[1] == '[' then
      var k := DigitRun(s[2..]);
      if k >= 1 && 2 + k < |s| && s[2 + k] == 'm' then k + 3 else 0
    else 0
  }

  /** A marker at the start of a text is found, and found whole. */
  lemma ColorCodeLengthOf(code: string, s: string)
    requires IsColorCode(code)
    ensures ColorCodeLength(code + s) == |code|
  {
    var t := code + s;
    assert t[2..] == code[2..|code| - 1] + ("m" + s);
    DigitRunOf(code[2..|code| - 1], "m" + s);
  }

  /** `s.replace(CONSOLE_COLOR_CHARS, '')`: every terminal colour marker is removed, left to right. */
  function StripColors(s: string): (r: string)
    ensures |r| <= |s|
    ensures Esc !in s ==> r == s
    decreases |s|
  {
    if s == [] then []
    else
      var n := ColorCodeLength(s);
      if n > 0 then StripColors(s[n..]) else [s[0]] + StripColors(s[1..])
  }

  /** A leading marker is removed. */
  lemma StripLeadingCode(code: string, s: string)
    requires IsColorCode(code)
    ensures StripColors(code + s) == StripColors(s)
  {
    ColorCodeLengthOf(code, s);
    assert (code + s)[|code|..] == s;
  }

  /** Text without `ESC` followed by the end marker loses only the marker. */
  lemma {:induction false} StripBeforeEnd(x: string)
    requires Esc !in x
    ensures StripColors(x + ColorEnd) == x
    decreases |x|
  {
    if x == [] {
      StripLeadingCode(ColorEnd, "");
      assert ColorEnd + "" == ColorEnd;
    } else {
      assert (x + ColorEnd)[1..] == x[1..] + ColorEnd;
      StripBeforeEnd(x[1..]);
      assert [x[0]] + x[1..] == x;
    }
  }

  /** Text coloured with one of the logger's markers reads as the plain text once the markers are stripped. */
  lemma StripColored(code: string, x: string)
    requires IsColorCode(code)
    requires Esc !in x
    ensures StripColors(code + x + ColorEnd) == x
  {
    assert code + x + ColorEnd == code + (x + ColorEnd);
    StripLeadingCode(code, x + ColorEnd);
    StripBeforeEnd(x);
  }
}
