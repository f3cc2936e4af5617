/** The forms of a secret against readers of their own: a JSON string and a submitted form. */
module OAuthForms {
  import opened Wrappers
  import opened Text
  import opened Base64
  import opened Unicode
  import opened OAuthRedaction

  // --- JSON, RFC 8259 section 7 ---------------------------------------------------------------

  function HexValue(c: Code): (d: Option<nat>)
    ensures d.Some? ==> d.value < 16
  {
    if IsDigit(c) then Some(c - 48)
    else if 65 <= c <= 70 then Some(c - 55)
    else if 97 <= c <= 102 then Some(c - 87)
    else None
  }

  /** What a one-letter escape stands for. */
  function Escaped(c: Code): Option<Code> {
    match c
    case 34 => Some(34)
    case 92 => Some(92)
    case 47 => Some(47)
    case 98 => Some(8)
    case 102 => Some(12)
    case 110 => Some(10)
    case 114 => Some(13)
    case 116 => Some(9)
    case _ => None
  }

  function FourHex(t: Text): Option<Code>
    requires |t| >= 4
  {
    var a, b, c, d := HexValue(t[0]), HexValue(t[1]), HexValue(t[2]), HexValue(t[3]);
    if a.None? || b.None? || c.None? || d.None? then None
    else Some(a.value * 4096 + b.value * 256 + c.value * 16 + d.value)
  }

  function Before(c: Code, rest: Option<Text>): Option<Text> {
    if rest.None? then None else Some([c] + rest.value)
  }

  /** A strict reader of what stands between the quotes of a JSON string. */
  function ReadJson(t: Text): Option<Text> {
    if t == [] then Some([])
    else if t[0] == 34 || t[0] < 32 then None
    else if t[0] != 92 then Before(t[0], ReadJson(t[1..]))
    else if |t| >= 2 && Escaped(t[1]).Some? then Before(Escaped(t[1]).value, ReadJson(t[2..]))
    else if |t| >= 6 && t[1] == 117 && FourHex(t[2..6]).Some? then Before(FourHex(t[2..6]).value, ReadJson(t[6..]))
    else None
  }

  lemma HexReads(d: nat)
    requires d < 16
    ensures HexValue(LowerHex(d)) == Some(d) && HexValue(UpperHex(d)) == Some(d)
  {}

  lemma DigitsOf(c: Code)
    ensures c == c / 4096 * 4096 + c / 256 % 16 * 256 + c / 16 % 16 * 16 + c % 16
  {
    var a, b := c / 16, c / 16 / 16;
    assert c == a * 16 + c % 16 && a == b * 16 + a % 16 && b == b / 16 * 16 + b % 16;
    assert b == c / 256 && b / 16 == c / 4096;
  }

  lemma FourHexReads(c: Code)
    ensures FourHex([LowerHex(c / 4096), LowerHex(c / 256 % 16), LowerHex(c / 16 % 16), LowerHex(c % 16)]) == Some(c)
  {
    HexReads(c / 4096);
    HexReads(c / 256 % 16);
    HexReads(c / 16 % 16);
    HexReads(c % 16);
    DigitsOf(c);
    hide HexValue, LowerHex;
  }

  /** A control character or lone surrogate as `\u` and four digits. */
  function Hexadecimal(c: Code): Text {
    [92, 117, LowerHex(c / 4096), LowerHex(c / 256 % 16), LowerHex(c / 16 % 16), LowerHex(c % 16)]
  }

  lemma HexadecimalReads(c: Code, rest: Text)
    ensures ReadJson(Hexadecimal(c) + rest) == Before(c, ReadJson(rest))
  {
    var all := Hexadecimal(c) + rest;
    FourHexReads(c);
    hide FourHex, LowerHex;
    assert all[0] == 92 && all[1] == 117 && |all| >= 6;
    assert all[2..6] == [LowerHex(c / 4096), LowerHex(c / 256 % 16), LowerHex(c / 16 % 16), LowerHex(c % 16)];
    assert all[6..] == rest;
  }

  lemma EscapeReads(e: Code, rest: Text)
    requires Escaped(e).Some?
    ensures ReadJson([92, e] + rest) == Before(Escaped(e).value, ReadJson(rest))
  {
    hide Escaped, FourHex;
    var all := [92, e] + rest;
    assert all[0] == 92 && all[1] == e && all[2..] == rest;
  }

  lemma PlainReads(c: Code, rest: Text)
    requires c >= 32 && c != 34 && c != 92
    ensures ReadJson([c] + rest) == Before(c, ReadJson(rest))
  {
    hide Escaped, FourHex;
    assert ([c] + rest)[1..] == rest;
  }

  /** A unit is the code itself, a backslash and the letter for it, or `\u` and its digits. */
  lemma UnitShapes(t: Text, i: nat)
    requires i < |t|
    ensures
      var unit, c := JsonUnit(t, i), t[i];
      || (unit == [c] && c >= 32 && c != 34 && c != 92)
      || (|unit| == 2 && unit[0] == 92 && Escaped(unit[1]) == Some(c))
      || unit == Hexadecimal(c)
  {
    hide LowerHex;
  }

  lemma UnitReads(t: Text, i: nat, rest: Text)
    requires i < |t|
    ensures ReadJson(JsonUnit(t, i) + rest) == Before(t[i], ReadJson(rest))
  {
    var unit, c := JsonUnit(t, i), t[i];
    UnitShapes(t, i);
    hide ReadJson, JsonUnit, Escaped;
    if unit == [c] && c >= 32 && c != 34 && c != 92 {
      PlainReads(c, rest);
    } else if unit == Hexadecimal(c) {
      HexadecimalReads(c, rest);
    } else {
      assert unit == [92, unit[1]];
      EscapeReads(unit[1], rest);
    }
  }

  lemma {:induction false} PrefixReads(t: Text, n: nat, rest: Text)
    requires n <= |t|
    ensures ReadJson(JsonPrefix(t, n) + rest) ==
              if ReadJson(rest).None? then None else Some(t[..n] + ReadJson(rest).value)
  {
    hide ReadJson, JsonUnit;
    if n == 0 {
      assert JsonPrefix(t, 0) + rest == rest;
      assert ReadJson(rest).Some? ==> t[..0] + ReadJson(rest).value == ReadJson(rest).value;
    } else {
      assert JsonPrefix(t, n) + rest == JsonPrefix(t, n - 1) + (JsonUnit(t, n - 1) + rest);
      PrefixReads(t, n - 1, JsonUnit(t, n - 1) + rest);
      UnitReads(t, n - 1, rest);
      if ReadJson(rest).Some? {
        assert t[..n] + ReadJson(rest).value == t[..n - 1] + ([t[n - 1]] + ReadJson(rest).value);
      }
    }
  }

  /** A reader of JSON gets the secret back: nothing in it ends the string early or breaks it. */
  lemma JsonReadsBack(secret: Text)
    ensures ReadJson(JsonEscaped(secret)) == Some(secret)
  {
    PrefixReads(secret, |secret|, []);
    assert JsonPrefix(secret, |secret|) + [] == JsonEscaped(secret) && secret[..|secret|] + [] == secret;
  }

  /** Half of a surrogate pair without the other half. */
  predicate IsLone(t: Text, i: nat)
    requires i < |t|
  {
    || (IsHigh(t[i]) && (i + 1 == |t| || !IsLow(t[i + 1])))
    || (IsLow(t[i]) && (i == 0 || !IsHigh(t[i - 1])))
  }

  /** Only quotes, backslashes, control characters and lone surrogates are written in another way. */
  predicate NeedsEscape(t: Text, i: nat)
    requires i < |t|
  {
    t[i] == 34 || t[i] == 92 || t[i] < 32 || IsLone(t, i)
  }

  /** The two-character escapes go to seven characters, `\u` to the other control characters and lone surrogates. */
  lemma UnitLength(t: Text, i: nat)
    requires i < |t|
    ensures !NeedsEscape(t, i) ==> JsonUnit(t, i) == [t[i]]
    ensures NeedsEscape(t, i) ==> |JsonUnit(t, i)| == if t[i] in [8, 9, 10, 12, 13, 34, 92] then 2 else 6
  {
    hide LowerHex;
  }

  lemma {:induction false} PlainPrefix(t: Text, n: nat)
    requires n <= |t| && forall i :: 0 <= i < n ==> !NeedsEscape(t, i)
    ensures JsonPrefix(t, n) == t[..n]
  {
    hide JsonUnit, NeedsEscape;
    if n == 0 {
    } else {
      PlainPrefix(t, n - 1);
      UnitLength(t, n - 1);
      assert t[..n] == t[..n - 1] + [t[n - 1]];
    }
  }

  lemma {:induction false} EscapesAreLonger(t: Text, n: nat)
    requires n <= |t|
    ensures |JsonPrefix(t, n)| >= n
    ensures (exists i :: 0 <= i < n && NeedsEscape(t, i)) ==> |JsonPrefix(t, n)| > n
  {
    hide JsonUnit, NeedsEscape;
    if n == 0 {
    } else {
      EscapesAreLonger(t, n - 1);
      UnitLength(t, n - 1);
    }
  }

  /** A secret looks the same in JSON exactly if nothing in it needs an escape. */
  lemma JsonIsSameIff(secret: Text)
    ensures JsonEscaped(secret) == secret <==> forall i :: 0 <= i < |secret| ==> !NeedsEscape(secret, i)
  {
    if forall i :: 0 <= i < |secret| ==> !NeedsEscape(secret, i) {
      PlainPrefix(secret, |secret|);
    } else {
      EscapesAreLonger(secret, |secret|);
    }
  }

  // --- Forms, `application/x-www-form-urlencoded` -----------------------------------------------

  function BeforeByte(b: Byte, rest: Option<seq<Byte>>): Option<seq<Byte>> {
    if rest.None? then None else Some([b] + rest.value)
  }

  /** A reader of a submitted form: a plus is a space, a percent sign begins a byte in hexadecimal. */
  function ReadForm(t: Text): Option<seq<Byte>> {
    if t == [] then Some([])
    else if t[0] == 43 then BeforeByte(32, ReadForm(t[1..]))
    else if t[0] == 37 then
      if |t| >= 3 && HexValue(t[1]).Some? && HexValue(t[2]).Some?
      then BeforeByte(HexValue(t[1]).value * 16 + HexValue(t[2]).value, ReadForm(t[3..]))
      else None
    else if t[0] < 128 then BeforeByte(t[0], ReadForm(t[1..]))
    else None
  }

  lemma FormByteReads(w: Text, b: Byte, rest: Text)
    requires IsFormByte(w, b)
    ensures ReadForm(w + rest) == BeforeByte(b, ReadForm(rest))
  {
    if |w| == 1 {
      assert (w + rest)[1..] == rest;
    } else {
      HexReads(b / 16);
      HexReads(b % 16);
      assert (w + rest)[3..] == rest;
      assert b == b / 16 * 16 + b % 16;
    }
  }

  /** Every spelling of the bytes in a form reads back as the bytes, so no spelling stands for two secrets. */
  lemma {:induction false} FormReadsBack(w: Text, bytes: seq<Byte>)
    requires IsFormOf(w, bytes)
    ensures ReadForm(w) == Some(bytes)
    decreases |bytes|
  {
    if bytes == [] {
      hide IsFormByte;
    } else {
      var n := FormSplits(w, bytes);
      var first, rest := w[..n], w[n..];
      FormReadsBack(rest, bytes[1..]);
      FormByteReads(first, bytes[0], rest);
      assert first + rest == w && [bytes[0]] + bytes[1..] == bytes;
      hide ReadForm, IsFormByte;
    }
  }

  lemma {:induction false} EncodedIsForm(bytes: seq<Byte>)
    ensures IsFormOf(FormBytes(bytes), bytes)
    decreases |bytes|
  {
    if bytes == [] {
    } else {
      var first, rest := FormByte(bytes[0]), FormBytes(bytes[1..]);
      EncodedIsForm(bytes[1..]);
      assert (first + rest)[..|first|] == first && (first + rest)[|first|..] == rest;
    }
  }

  /** The form that is redacted is one that a reader gets the secret's bytes back from. */
  lemma FormEncodedReadsBack(secret: Text)
    ensures IsFormOf(FormEncoded(secret), EncodeText(secret))
    ensures ReadForm(FormEncoded(secret)) == Some(EncodeText(secret))
  {
    EncodedIsForm(EncodeText(secret));
    FormReadsBack(FormEncoded(secret), EncodeText(secret));
  }

  // --- One global replacement, read from the left -------------------------------------------------

  /** What precedes the first match stays, the match becomes a marker, and the rest is replaced in turn. */
  lemma {:induction false} ReplacesFromTheLeft(p: Pattern, before: Text, rest: Text)
    requires p != [] && forall i :: 0 <= i < |before| ==> MatchLength(p, (before + rest)[i..]).None?
    ensures ReplaceAll(p, before + rest) ==
              before + (if MatchLength(p, rest).Some? then MARKER + ReplaceAll(p, rest[MatchLength(p, rest).value..])
                        else ReplaceAll(p, rest))
  {
    hide MatchLength, MARKER, ReplaceAll;
    if before == [] {
      assert before + rest == rest;
      ReplaceStep(p, rest);
    } else {
      var all, tail := before + rest, before[1..] + rest;
      assert all[0..] == all && all[1..] == tail;
      forall i | 0 <= i < |before[1..]|
        ensures MatchLength(p, tail[i..]).None?
      {
        assert tail[i..] == all[i + 1..];
      }
      ReplaceStep(p, all);
      ReplacesFromTheLeft(p, before[1..], rest);
      assert before == [before[0]] + before[1..];
    }
  }
}
