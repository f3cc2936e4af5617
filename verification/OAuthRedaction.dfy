/** Secrets taken out of text by repeated pattern replacement, and why none of them comes back. */
module OAuthRedaction {
  import opened Wrappers
  import opened Text
  import opened Base64
  import opened Unicode

  // --- Patterns ---------------------------------------------------------------------------

  /** One step of a pattern: a code unit, a hexadecimal letter in either case, or `(?:\+|%20)`. */
  datatype Element = Literal(c: Code) | EitherCase(upper: Code) | PlusOrSpace

  type Pattern = seq<Element>

  const MARKER: Text := Codes("[REDACTED]")
  const PERCENT: Code := 37
  const PLUS: Code := 43

  function ElementLength(e: Element, t: Text): Option<nat> {
    match e
    case Literal(c) => if t != [] && t[0] == c then Some(1) else None
    case EitherCase(upper) => if t != [] && (t[0] == upper || t[0] == upper + 32) then Some(1) else None
    case PlusOrSpace =>
      if t != [] && t[0] == PLUS then Some(1)
      else if |t| >= 3 && t[0] == PERCENT && t[1] == 50 && t[2] == 48 then Some(3)
      else None
  }

  /** How much of the beginning of a text the pattern matches. */
  function MatchLength(p: Pattern, t: Text): (n: Option<nat>)
    ensures n.Some? ==> |p| <= n.value <= |t|
  {
    if p == [] then Some(0)
    else
      match ElementLength(p[0], t)
      case None => None
      case Some(first) =>
        match MatchLength(p[1..], t[first..])
        case None => None
        case Some(rest) => Some(first + rest)
  }

  /** A global replacement: the leftmost match, then on behind it. */
  function ReplaceAll(p: Pattern, t: Text): Text
    requires p != []
    decreases |t|
  {
    if t == [] then []
    else
      match MatchLength(p, t)
      case Some(n) => MARKER + ReplaceAll(p, t[n..])
      case None => [t[0]] + ReplaceAll(p, t[1..])
  }

  /** The whole of `w` is one match. */
  predicate Covers(p: Pattern, w: Text) {
    MatchLength(p, w) == Some(|w|)
  }

  ghost predicate Occurs(w: Text, t: Text) {
    exists i :: 0 <= i <= |t| && OccursAt(w, t, i)
  }

  /** The first `n` characters of the text, and not all of it, are the last ones of the marker. */
  predicate LeavesAt(w: Text, n: nat) {
    0 < n < |w| && n <= |MARKER| && w[..n] == MARKER[|MARKER| - n..]
  }

  /** A proper beginning of the text is the end of the marker. */
  predicate LeavesMarker(w: Text) {
    exists n :: 0 < n < |w| && LeavesAt(w, n)
  }

  predicate MeetsMarker(w: Text) {
    w <= MARKER || MARKER <= w
  }

  /** A proper end of the text is the beginning of the marker, or begins with all of it. */
  predicate EntersMarker(w: Text) {
    exists n :: 0 < n < |w| && MeetsMarker(w[n..])
  }

  /** The text may run across an edge of a marker. */
  predicate Straddles(w: Text) {
    LeavesMarker(w) || EntersMarker(w)
  }

  /** No marker can contribute to an occurrence of the text. */
  ghost predicate Isolated(w: Text) {
    !Straddles(w) && !Occurs(w, MARKER)
  }

  lemma MarkerBrackets()
    ensures |MARKER| == 10 && MARKER[0] == 91 && MARKER[9] == 93
  {}

  /** Only a text with a bracket in it can straddle. */
  lemma StraddlingNeedsBracket(w: Text)
    requires Straddles(w)
    ensures 91 in w || 93 in w
  {
    MarkerBrackets();
    hide MARKER;
    if LeavesMarker(w) {
      var n :| 0 < n < |w| && LeavesAt(w, n);
      assert w[n - 1] == w[..n][n - 1] == MARKER[9];
    } else {
      var n :| 0 < n < |w| && MeetsMarker(w[n..]);
      assert w[n] == w[n..][0] == MARKER[0];
    }
  }

  /** A match, one step at a time. */
  lemma MatchStep(p: Pattern, t: Text)
    requires p != []
    ensures ElementLength(p[0], t).None? ==> MatchLength(p, t).None?
    ensures ElementLength(p[0], t).Some? ==>
              var first := ElementLength(p[0], t).value;
              && 0 < first <= |t|
              && MatchLength(p, t) == if MatchLength(p[1..], t[first..]).None? then None
                                      else Some(first + MatchLength(p[1..], t[first..]).value)
  {}

  lemma NothingMatches(t: Text)
    ensures MatchLength([], t) == Some(0)
  {}

  lemma ElementIsLocal(e: Element, w: Text, rest: Text)
    requires ElementLength(e, w).Some?
    ensures ElementLength(e, w + rest) == ElementLength(e, w)
  {}

  lemma {:induction false} MatchIsLocal(p: Pattern, w: Text, rest: Text)
    requires MatchLength(p, w).Some?
    ensures MatchLength(p, w + rest) == MatchLength(p, w)
  {
    hide MatchLength, ElementLength;
    if p == [] {
      NothingMatches(w);
      NothingMatches(w + rest);
    } else {
      MatchStep(p, w);
      MatchStep(p, w + rest);
      ElementIsLocal(p[0], w, rest);
      var first := ElementLength(p[0], w).value;
      assert (w + rest)[first..] == w[first..] + rest;
      MatchIsLocal(p[1..], w[first..], rest);
    }
  }

  /** No end of the text, the whole included, begins a marker or begins with one. */
  predicate AvoidsMarker(w: Text) {
    forall n :: 0 <= n < |w| ==> !MeetsMarker(w[n..])
  }

  lemma TailsAvoid(w: Text)
    requires w != [] && (AvoidsMarker(w) || !EntersMarker(w))
    ensures AvoidsMarker(w[1..])
  {
    assert forall n :: 0 <= n < |w| - 1 ==> w[1..][n..] == w[n + 1..];
  }

  lemma OneBegins(w: Text, head: Text, tail: Text)
    requires w <= head + tail
    ensures w <= head || head <= w
  {
    if |w| <= |head| {
      assert w == (head + tail)[..|w|] == head[..|w|];
    } else {
      assert head == (head + tail)[..|head|] == w[..|head|];
    }
  }

  lemma {:induction false} PrefixSurvives(p: Pattern, t: Text, w: Text)
    requires p != [] && AvoidsMarker(w) && w <= ReplaceAll(p, t)
    ensures w <= t
    decreases |t|
  {
    if w == [] {
      return;
    }
    hide ReplaceAll, MatchLength, MARKER;
    assert w[0..] == w && !MeetsMarker(w);
    ReplaceStep(p, t);
    if MatchLength(p, t).Some? {
      OneBegins(w, MARKER, ReplaceAll(p, t[MatchLength(p, t).value..]));
    } else {
      TailsAvoid(w);
      PrefixSurvives(p, t[1..], w[1..]);
      assert t == [t[0]] + t[1..] && w == [w[0]] + w[1..];
    }
  }

  lemma OccursInTail(w: Text, t: Text, n: nat, j: nat)
    requires n <= |t| && j <= |t[n..]| && OccursAt(w, t[n..], j)
    ensures OccursAt(w, t, n + j) && t[n..][j..] == t[n + j..]
  {
    assert t[n..][j..j + |w|] == t[n + j..n + j + |w|];
  }

  lemma OccursBehind(w: Text, head: Text, tail: Text, i: nat)
    requires |head| <= i && OccursAt(w, head + tail, i)
    ensures OccursAt(w, tail, i - |head|)
  {
    assert (head + tail)[i..i + |w|] == tail[i - |head|..i - |head| + |w|];
  }

  /** An occurrence that begins in a marker lies in it or runs across its end. */
  lemma OverlapsMarker(w: Text, tail: Text, i: nat)
    requires i < |MARKER| && OccursAt(w, MARKER + tail, i)
    ensures LeavesMarker(w) || Occurs(w, MARKER)
  {
    hide MARKER;
    var t, n := MARKER + tail, |MARKER| - i;
    if |w| <= n {
      assert t[i..i + |w|] == MARKER[i..i + |w|];
      assert OccursAt(w, MARKER, i);
    } else {
      assert w[..n] == t[i..i + |w|][..n] == MARKER[i..];
      assert LeavesAt(w, n);
    }
  }

  lemma OccursBehindMarker(w: Text, tail: Text, i: nat)
    requires Isolated(w) && OccursAt(w, MARKER + tail, i)
    ensures |MARKER| <= i && OccursAt(w, tail, i - |MARKER|)
  {
    hide MARKER, LeavesMarker, OccursAt, Occurs;
    if i < |MARKER| {
      OverlapsMarker(w, tail, i);
    }
    OccursBehind(w, MARKER, tail, i);
  }

  /**
    What a replacement leaves of a text that markers cannot help to form stood in the text before,
    where the pattern does not match.
    */
  lemma {:induction false} NothingIsRecreated(p: Pattern, t: Text, w: Text, i: nat) returns (j: nat)
    requires p != [] && w != [] && Isolated(w) && OccursAt(w, ReplaceAll(p, t), i)
    ensures j <= |t| && OccursAt(w, t, j) && MatchLength(p, t[j..]).None?
    decreases |t|
  {
    hide OccursAt, MARKER, ReplaceAll, MatchLength;
    ReplaceStep(p, t);
    if t == [] {
      NowhereInNothing(w, i);
    } else if MatchLength(p, t).Some? {
      var n := MatchLength(p, t).value;
      OccursBehindMarker(w, ReplaceAll(p, t[n..]), i);
      j := NothingIsRecreated(p, t[n..], w, i - |MARKER|);
      OccursInTail(w, t, n, j);
      j := n + j;
    } else if i > 0 {
      OccursBehind(w, [t[0]], ReplaceAll(p, t[1..]), i);
      j := NothingIsRecreated(p, t[1..], w, i - 1);
      OccursInTail(w, t, 1, j);
      j := 1 + j;
    } else {
      OccursFirst(w, ReplaceAll(p, t));
      TailsAvoid(w);
      PrefixSurvives(p, t[1..], w[1..]);
      assert t == [t[0]] + t[1..] && w == [w[0]] + w[1..];
      OccursFirst(w, t);
      assert t[0..] == t;
      j := 0;
    }
  }

  lemma ReplaceStep(p: Pattern, t: Text)
    requires p != []
    ensures ReplaceAll(p, t) ==
              if t == [] then []
              else if MatchLength(p, t).Some? then MARKER + ReplaceAll(p, t[MatchLength(p, t).value..])
              else [t[0]] + ReplaceAll(p, t[1..])
  {}

  lemma NowhereInNothing(w: Text, i: nat)
    ensures OccursAt(w, [], i) ==> w == []
  {}

  lemma OccursFirst(w: Text, t: Text)
    ensures OccursAt(w, t, 0) <==> w <= t
  {}

  /** After its own replacement a text is gone, and other replacements never bring it back. */
  lemma ReplacedIsGone(p: Pattern, t: Text, w: Text)
    requires p != [] && w != [] && Isolated(w)
    ensures Covers(p, w) || !Occurs(w, t) ==> !Occurs(w, ReplaceAll(p, t))
  {
    hide Isolated, ReplaceAll;
    if Occurs(w, ReplaceAll(p, t)) {
      var i :| 0 <= i <= |ReplaceAll(p, t)| && OccursAt(w, ReplaceAll(p, t), i);
      var j := NothingIsRecreated(p, t, w, i);
      if Covers(p, w) {
        assert t[j..] == w + t[j + |w|..];
        MatchIsLocal(p, w, t[j + |w|..]);
      }
    }
  }

  lemma SliceOfSlice(t: Text, a: nat, b: nat, c: nat, d: nat)
    requires a <= b <= |t| && c <= d <= b - a
    ensures t[a..b][c..d] == t[a + c..a + d]
  {
    forall k | 0 <= k < d - c
      ensures t[a..b][c..d][k] == t[a + c..a + d][k]
    {
      assert t[a..b][c + k] == t[a + c + k];
    }
  }

  lemma OccursInside(w: Text, middle: Text, t: Text)
    requires Occurs(w, middle) && Occurs(middle, t)
    ensures Occurs(w, t)
  {
    var i :| 0 <= i <= |middle| && OccursAt(w, middle, i);
    var j :| 0 <= j <= |t| && OccursAt(middle, t, j);
    var inner := t[j..j + |middle|];
    assert inner == middle && inner[i..i + |w|] == w;
    SliceOfSlice(t, j, j + |middle|, i, i + |w|);
    assert OccursAt(w, t, j + i);
  }

  lemma OccursFurther(w: Text, head: Text, tail: Text)
    requires Occurs(w, tail)
    ensures Occurs(w, head + tail)
  {
    var i :| 0 <= i <= |tail| && OccursAt(w, tail, i);
    assert (head + tail)[|head| + i..|head| + i + |w|] == tail[i..i + |w|];
    assert OccursAt(w, head + tail, |head| + i);
  }

  /** A replacement changes nothing, or leaves a whole marker. */
  lemma {:induction false} MarkedOrSame(p: Pattern, t: Text)
    requires p != []
    ensures ReplaceAll(p, t) == t || Occurs(MARKER, ReplaceAll(p, t))
    decreases |t|
  {
    hide ReplaceAll, MatchLength, MARKER, Occurs;
    ReplaceStep(p, t);
    if t == [] {
      return;
    }
    if MatchLength(p, t).Some? {
      FirstOccurs(MARKER, ReplaceAll(p, t[MatchLength(p, t).value..]));
    } else {
      MarkedOrSame(p, t[1..]);
      if Occurs(MARKER, ReplaceAll(p, t[1..])) {
        OccursFurther(MARKER, [t[0]], ReplaceAll(p, t[1..]));
      }
      assert t == [t[0]] + t[1..];
    }
  }

  lemma FirstOccurs(w: Text, rest: Text)
    ensures Occurs(w, w + rest)
  {
    assert OccursAt(w, w + rest, 0);
  }

  /** A piece of the marker that occurs in a text still does after any replacement. */
  lemma MarkerPieceStays(p: Pattern, t: Text, w: Text)
    requires p != [] && Occurs(w, MARKER) && Occurs(w, t)
    ensures Occurs(w, ReplaceAll(p, t))
  {
    hide Occurs, MARKER;
    MarkedOrSame(p, t);
    if ReplaceAll(p, t) != t {
      OccursInside(w, MARKER, ReplaceAll(p, t));
    }
  }

  // --- The forms of a secret ----------------------------------------------------------------

  function LowerHex(d: nat): Code
    requires d < 16
  {
    if d < 10 then 48 + d else 97 + (d - 10)
  }

  function UpperHex(d: nat): Code
    requires d < 16
  {
    if d < 10 then 48 + d else 65 + (d - 10)
  }

  predicate StaysPlain(b: Byte) {
    IsUpper(b) || IsLower(b) || IsDigit(b) || b == 42 || b == 45 || b == 46 || b == 95
  }

  /** `application/x-www-form-urlencoded`, byte by byte. */
  function FormByte(b: Byte): Text {
    if StaysPlain(b) then [b] else if b == 32 then [PLUS] else [PERCENT, UpperHex(b / 16), UpperHex(b % 16)]
  }

  function FormBytes(bytes: seq<Byte>): Text {
    if bytes == [] then [] else FormByte(bytes[0]) + FormBytes(bytes[1..])
  }

  function FormEncoded(secret: Text): Text {
    FormBytes(EncodeText(secret))
  }

  function JsonUnit(t: Text, i: nat): Text
    requires i < |t|
  {
    var c := t[i];
    var lone := (IsHigh(c) && !(i + 1 < |t| && IsLow(t[i + 1]))) || (IsLow(c) && !(i > 0 && IsHigh(t[i - 1])));
    if c == 34 || c == 92 then [92, c]
    else if c == 8 then [92, 98]
    else if c == 12 then [92, 102]
    else if c == 10 then [92, 110]
    else if c == 13 then [92, 114]
    else if c == 9 then [92, 116]
    else if c < 32 || lone
    then [92, 117, LowerHex(c / 4096), LowerHex(c / 256 % 16), LowerHex(c / 16 % 16), LowerHex(c % 16)]
    else [c]
  }

  /** The inside of the JSON string literal for the first `n` units of a text. */
  function JsonPrefix(t: Text, n: nat): Text
    requires n <= |t|
  {
    if n == 0 then [] else JsonPrefix(t, n - 1) + JsonUnit(t, n - 1)
  }

  function JsonEscaped(t: Text): Text {
    JsonPrefix(t, |t|)
  }

  /** Every way to write a byte in a form: a space as `+` or `%20`, an escape in either case. */
  predicate IsFormByte(w: Text, b: Byte) {
    if StaysPlain(b) then w == [b]
    else
      || (b == 32 && w == [PLUS])
      || (&& |w| == 3 && w[0] == PERCENT
          && (w[1] == UpperHex(b / 16) || w[1] == LowerHex(b / 16))
          && (w[2] == UpperHex(b % 16) || w[2] == LowerHex(b % 16)))
  }

  ghost predicate IsFormOf(w: Text, bytes: seq<Byte>)
    decreases |bytes|
  {
    if bytes == [] then w == []
    else exists n :: 0 <= n <= |w| && IsFormByte(w[..n], bytes[0]) && IsFormOf(w[n..], bytes[1..])
  }

  /** The texts that give a secret away. */
  ghost predicate Gives(w: Text, secret: Text) {
    w == secret || w == JsonEscaped(secret) || IsFormOf(w, EncodeText(secret))
  }

  // --- The patterns of a secret -------------------------------------------------------------

  function Literals(t: Text): (p: Pattern)
    ensures |p| == |t| && forall i :: 0 <= i < |t| ==> p[i] == Literal(t[i])
  {
    seq(|t|, i requires 0 <= i < |t| => Literal(t[i]))
  }

  predicate IsUpperHex(c: Code) {
    IsDigit(c) || 65 <= c <= 70
  }

  function HexElement(c: Code): Element {
    if 65 <= c <= 70 then EitherCase(c) else Literal(c)
  }

  function FormPattern(t: Text): Pattern {
    if t == [] then []
    else if t[0] == PERCENT && |t| >= 3 && IsUpperHex(t[1]) && IsUpperHex(t[2])
    then [Literal(PERCENT), HexElement(t[1]), HexElement(t[2])] + FormPattern(t[3..])
    else if t[0] == PLUS then [PlusOrSpace] + FormPattern(t[1..])
    else [Literal(t[0])] + FormPattern(t[1..])
  }

  lemma FormPatternAt(t: Text, i: nat)
    requires i < |t|
    ensures FormPattern(t[i..]) ==
              if t[i] == PERCENT && i + 2 < |t| && IsUpperHex(t[i + 1]) && IsUpperHex(t[i + 2])
              then [Literal(PERCENT), HexElement(t[i + 1]), HexElement(t[i + 2])] + FormPattern(t[i + 3..])
              else if t[i] == PLUS then [PlusOrSpace] + FormPattern(t[i + 1..])
              else [Literal(t[i])] + FormPattern(t[i + 1..])
  {
    assert t[i..][1..] == t[i + 1..];
    assert i + 2 < |t| ==> t[i..][3..] == t[i + 3..];
  }

  method FormEncodedRedactionPattern(formEncoded: Text) returns (pattern: Pattern)
    ensures pattern == FormPattern(formEncoded)
  {
    hide FormPattern, IsUpperHex, HexElement, MatchLength, LowerHex, UpperHex, ReplaceAll, MARKER;
    pattern := [];
    var index := 0;
    assert formEncoded[0..] == formEncoded;
    while index < |formEncoded|
      invariant 0 <= index <= |formEncoded|
      invariant pattern + FormPattern(formEncoded[index..]) == FormPattern(formEncoded)
    {
      FormPatternAt(formEncoded, index);
      var character := formEncoded[index];
      var added: Pattern;
      if character == PERCENT && index + 2 < |formEncoded|
         && IsUpperHex(formEncoded[index + 1]) && IsUpperHex(formEncoded[index + 2]) {
        added := [Literal(PERCENT), HexElement(formEncoded[index + 1]), HexElement(formEncoded[index + 2])];
        index := index + 2;
      } else if character == PLUS {
        added := [PlusOrSpace];
      } else {
        added := [Literal(character)];
      }
      index := index + 1;
      PatternsAssociate(pattern, added, FormPattern(formEncoded[index..]));
      pattern := pattern + added;
    }
    NoPattern();
    assert formEncoded[index..] == [];
    assert pattern + [] == pattern;
  }

  lemma PatternsAssociate(p: Pattern, q: Pattern, r: Pattern)
    ensures p + (q + r) == (p + q) + r
  {}

  lemma NoPattern()
    ensures FormPattern([]) == []
  {}

  lemma {:induction false} LiteralsCover(w: Text)
    ensures Covers(Literals(w), w)
  {
    if w == [] {
    } else {
      LiteralsCover(w[1..]);
      assert Literals(w)[1..] == Literals(w[1..]);
    }
  }

  function FormBytePattern(b: Byte): Pattern {
    if StaysPlain(b) then [Literal(b)]
    else if b == 32 then [PlusOrSpace]
    else [Literal(PERCENT), HexElement(UpperHex(b / 16)), HexElement(UpperHex(b % 16))]
  }

  lemma FormPatternStep(b: Byte, rest: Text)
    ensures FormPattern(FormByte(b) + rest) == FormBytePattern(b) + FormPattern(rest)
  {
    var t := FormByte(b) + rest;
    assert t[|FormByte(b)|..] == rest;
    if !StaysPlain(b) && b != 32 {
      assert t[1] == UpperHex(b / 16) && t[2] == UpperHex(b % 16);
    }
  }

  lemma FormByteCovered(w: Text, b: Byte)
    requires IsFormByte(w, b)
    ensures Covers(FormBytePattern(b), w)
  {
    var p := FormBytePattern(b);
    if |p| == 1 {
      assert p[1..] == [];
    } else {
      ElementCovers(p[0], w[0]);
      ElementCovers(p[1], w[1]);
      ElementCovers(p[2], w[2]);
      MatchSplits([p[0]], [p[1]], [w[0]], [w[1]]);
      MatchSplits([p[0]] + [p[1]], [p[2]], [w[0]] + [w[1]], [w[2]]);
      assert p == [p[0]] + [p[1]] + [p[2]] && w == [w[0]] + [w[1]] + [w[2]];
    }
  }

  lemma ElementCovers(e: Element, c: Code)
    requires ElementLength(e, [c]) == Some(1)
    ensures Covers([e], [c])
  {
    assert [e][1..] == [] && [c][1..] == [];
  }

  lemma {:induction false} MatchSplits(p: Pattern, q: Pattern, w: Text, v: Text)
    requires Covers(p, w) && Covers(q, v)
    ensures Covers(p + q, w + v)
  {
    hide MatchLength, ElementLength;
    if p == [] {
      NothingMatches(w);
      assert p + q == q && w + v == v;
    } else {
      MatchStep(p, w);
      MatchStep(p + q, w + v);
      ElementIsLocal(p[0], w, v);
      var n := ElementLength(p[0], w).value;
      assert (p + q)[1..] == p[1..] + q && (w + v)[n..] == w[n..] + v;
      MatchSplits(p[1..], q, w[n..], v);
    }
  }

  lemma FormSplits(w: Text, bytes: seq<Byte>) returns (n: nat)
    requires bytes != [] && IsFormOf(w, bytes)
    ensures n <= |w| && IsFormByte(w[..n], bytes[0]) && IsFormOf(w[n..], bytes[1..])
    ensures FormBytes(bytes) == FormByte(bytes[0]) + FormBytes(bytes[1..])
  {
    n :| 0 <= n <= |w| && IsFormByte(w[..n], bytes[0]) && IsFormOf(w[n..], bytes[1..]);
  }

  lemma NothingCovered(w: Text)
    requires IsFormOf(w, [])
    ensures Covers(FormPattern(FormBytes([])), w)
  {}

  /** The form pattern matches every way of writing the secret in a form. */
  lemma {:induction false} FormCovered(w: Text, bytes: seq<Byte>)
    requires IsFormOf(w, bytes)
    ensures Covers(FormPattern(FormBytes(bytes)), w)
    decreases |bytes|
  {
    hide FormPattern, FormBytePattern, FormBytes, FormByte, IsFormByte, IsFormOf, Covers;
    if bytes == [] {
      NothingCovered(w);
    } else {
      var n := FormSplits(w, bytes);
      FormCovered(w[n..], bytes[1..]);
      FormByteCovered(w[..n], bytes[0]);
      FormPatternStep(bytes[0], FormBytes(bytes[1..]));
      MatchSplits(FormBytePattern(bytes[0]), FormPattern(FormBytes(bytes[1..])), w[..n], w[n..]);
      assert w[..n] + w[n..] == w;
    }
  }
}
