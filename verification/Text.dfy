/** Strings as the runtime stores them: sequences of UTF-16 code units. */
module Text {
  type Code = c: int | 0 <= c < 0x1_0000

  type Text = seq<Code>

  const TAB: Code := 9
  const LF: Code := 10
  const CR: Code := 13
  const SPACE: Code := 32
  const EQUALS: Code := 61

  predicate Ascii(s: string) {
    forall i :: 0 <= i < |s| ==> s[i] < 128 as char
  }

  function CodeOf(c: char): Code
    requires c < 128 as char
  {
    c as int
  }

  /** The code units of a literal. */
  function Codes(s: string): (t: Text)
    requires Ascii(s)
    ensures |t| == |s| && forall i :: 0 <= i < |s| ==> t[i] == s[i] as int
  {
    seq(|s|, i requires 0 <= i < |s| && Ascii(s) => CodeOf(s[i]))
  }

  predicate IsUpper(c: Code) { 65 <= c <= 90 }
  predicate IsLower(c: Code) { 97 <= c <= 122 }
  predicate IsDigit(c: Code) { 48 <= c <= 57 }

  function LowerCode(c: Code): Code {
    if IsUpper(c) then c + 32 else c
  }

  /** Case folding as a regular expression without the `u` flag sees it: ASCII letters only. */
  function Lower(t: Text): (l: Text)
    ensures |l| == |t| && forall i :: 0 <= i < |t| ==> l[i] == LowerCode(t[i])
  {
    seq(|t|, i requires 0 <= i < |t| => LowerCode(t[i]))
  }

  predicate OccursAt(word: Text, t: Text, i: nat) {
    i + |word| <= |t| && t[i..i + |word|] == word
  }

  /** What `trim` removes at the ends of a string. */
  predicate IsTrimmed(c: int) {
    || 9 <= c <= 13 || c == 32 || c == 0xA0 || c == 0x1680 || 0x2000 <= c <= 0x200A
    || c == 0x2028 || c == 0x2029 || c == 0x202F || c == 0x205F || c == 0x3000 || c == 0xFEFF
  }

  function TrimStart(t: Text): (r: Text)
    ensures |r| <= |t| && r == t[|t| - |r|..] && (forall i :: 0 <= i < |t| - |r| ==> IsTrimmed(t[i]))
    ensures r != [] ==> !IsTrimmed(r[0])
  {
    if t != [] && IsTrimmed(t[0]) then TrimStart(t[1..]) else t
  }
}
