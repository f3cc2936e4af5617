/** Exactly which lone secrets redaction leaves behind because a marker supplies a part of them. */
module OAuthStraddling {
  import opened Wrappers
  import opened Text
  import opened Unicode
  import opened Sorting
  import opened OAuthRedaction
  import opened OAuthSecrets
  import B = Base64

  // --- The form pattern of a secret with a bracket needs a percent sign -----------------------

  lemma {:induction false} PercentIsNeeded(p: Pattern, t: Text)
    requires Literal(PERCENT) in p && MatchLength(p, t).Some?
    ensures PERCENT in t
  {
    MatchStep(p, t);
    hide MatchLength;
    if p[0] == Literal(PERCENT) {
      assert t[0] == PERCENT;
    } else {
      var first := ElementLength(p[0], t).value;
      PercentIsNeeded(p[1..], t[first..]);
    }
  }

  lemma WithoutPercentNothingChanges(p: Pattern, t: Text)
    requires Literal(PERCENT) in p && PERCENT !in t
    ensures ReplaceAll(p, t) == t
  {
    forall j | 0 <= j < |t|
      ensures MatchLength(p, t[j..]).None?
    {
      if MatchLength(p, t[j..]).Some? {
        PercentIsNeeded(p, t[j..]);
      }
    }
    NoMatchNoChange(p, t);
  }

  /** A plain character of a text is a byte of its encoding. */
  lemma {:induction false} PlainUnitIsByte(t: Text, c: Code)
    requires c in t && c < 128
    ensures c in EncodeText(t)
    decreases |t|
  {
    ScalarsStep(t);
    var rest := t[FirstWidth(t)..];
    var scalars := Scalars(t);
    assert scalars[0] == FirstOf(t) && scalars[1..] == Scalars(rest);
    if c == t[0] {
      assert Utf8Of(FirstOf(t)) == [c];
    } else {
      assert c in rest;
      PlainUnitIsByte(rest, c);
    }
  }

  predicate IsBracket(c: Code) {
    c == 91 || c == 93
  }

  lemma {:induction false} BracketIsEscaped(bytes: seq<B.Byte>, c: Code)
    requires c in bytes && IsBracket(c)
    ensures Literal(PERCENT) in FormPattern(FormBytes(bytes)) && |FormBytes(bytes)| > |bytes|
  {
    hide FormPattern, FormByte;
    var rest := FormBytes(bytes[1..]);
    FormPatternStep(bytes[0], rest);
    FormIsLonger(bytes[1..]);
    assert FormBytes(bytes) == FormByte(bytes[0]) + rest;
    OneByteForm(bytes[0]);
    if IsBracket(bytes[0]) {
      assert FormBytePattern(bytes[0])[0] == Literal(PERCENT);
    } else {
      BracketIsEscaped(bytes[1..], c);
    }
  }

  lemma OneByteForm(b: B.Byte)
    ensures |FormByte(b)| >= 1 && (IsBracket(b) ==> |FormByte(b)| == 3)
  {}

  lemma {:induction false} FormIsLonger(bytes: seq<B.Byte>)
    ensures |FormBytes(bytes)| >= |bytes|
  {
    if bytes == [] {
    } else {
      OneByteForm(bytes[0]);
      FormIsLonger(bytes[1..]);
    }
  }

  lemma {:induction false} EncodingIsLonger(t: Text)
    ensures |EncodeText(t)| >= |t|
    decreases |t|
  {
    if t == [] {
    } else {
      ScalarsStep(t);
      var rest, scalars := t[FirstWidth(t)..], Scalars(t);
      assert scalars[0] == FirstOf(t) && scalars[1..] == Scalars(rest);
      EncodingIsLonger(rest);
      assert |Utf8Of(FirstOf(t))| >= FirstWidth(t);
    }
  }

  // --- The secrets ----------------------------------------------------------------------------

  function FormOf(w: Text): Pattern {
    FormPattern(FormEncoded(w))
  }

  /** The form pattern of a secret that straddles an edge needs a percent sign, and is tried first. */
  lemma FormNeedsPercent(w: Text)
    requires Straddles(w)
    ensures Literal(PERCENT) in FormOf(w) && FormLength(FormEncoded(w)) > |w|
  {
    StraddlingNeedsBracket(w);
    hide MARKER, EncodeText, FormPattern, FormBytes, Straddles;
    var c: Code := if 91 in w then 91 else 93;
    PlainUnitIsByte(w, c);
    EncodingIsLonger(w);
    BracketIsEscaped(EncodeText(w), c);
  }

  /** A secret that neither JSON nor a percent sign would spell in another way. */
  predicate IsUnescaped(w: Text) {
    JsonEscaped(w) == w && PERCENT !in w
  }

  // --- Its matchers ---------------------------------------------------------------------------

  lemma TwoAdded(p: Pattern, q: Pattern, m: nat, n: nat)
    requires p != q
    ensures Added(Added(Added([], p, m), p, m), q, n) == [Matcher(p, m), Matcher(q, n)]
  {
    var one := [Matcher(p, m)];
    assert one[1..] == [];
    assert Added([], p, m) == one && Added(one, p, m) == one;
    assert Added(one, q, n) == one + Added([], q, n);
  }

  lemma TwoInTurn(a: Matcher, b: Matcher)
    requires a.representedLength < b.representedLength
    ensures InTurn([a, b]) == [b, a]
  {
    assert [a, b][..1] == [a] && [a][..0] == [];
    assert Sorted(LongerFirst, [a]) == Inserted(LongerFirst, Sorted(LongerFirst, []), a) == [a];
    assert Inserted(LongerFirst, [], b) == [b];
  }

  lemma LoneSecretAdded(secret: Text)
    ensures Matchers([secret]) == SecretAdded([], secret)
  {
    assert [secret][..0] == [];
  }

  lemma TwoMatchers(w: Text)
    requires Straddles(w) && IsUnescaped(w)
    ensures InTurn(Matchers([w])) == [Matcher(FormOf(w), FormLength(FormEncoded(w))), Matcher(Literals(w), |w|)]
  {
    LoneSecretAdded(w);
    FormNeedsPercent(w);
    assert Literal(PERCENT) !in Literals(w);
    hide Straddles, FormEncoded, JsonEscaped, FormPattern, FormLength, InTurn, Added, Matchers;
    TwoAdded(Literals(w), FormOf(w), |w|, FormLength(FormEncoded(w)));
    TwoInTurn(Matcher(Literals(w), |w|), Matcher(FormOf(w), FormLength(FormEncoded(w))));
  }

  lemma TwoReplaced(a: Matcher, b: Matcher, text: Text)
    requires a.pattern != [] && b.pattern != []
    ensures RedactAll([a, b], text) == ReplaceAll(b.pattern, ReplaceAll(a.pattern, text))
  {
    assert [a, b][..1] == [a] && [a][..0] == [];
    assert RedactAll([a], text) == ReplaceAll(a.pattern, RedactAll([], text));
  }

  /** The form pattern is replaced first and the secret itself last. */
  lemma RedactedTwice(w: Text, text: Text)
    requires Straddles(w) && IsUnescaped(w)
    ensures FormOf(w) != [] && w != []
    ensures Redacted(text, [w]) == ReplaceAll(Literals(w), ReplaceAll(FormOf(w), text))
  {
    FormNeedsPercent(w);
    assert w != [];
    TwoMatchers(w);
    hide FormEncoded, FormPattern, Matchers, InTurn, RedactAll, ReplaceAll, FormOf, Straddles;
    TwoReplaced(Matcher(FormOf(w), FormLength(FormEncoded(w))), Matcher(Literals(w), |w|), text);
  }

  // --- One replacement of the secret ------------------------------------------------------------

  lemma {:induction false} LiteralsMatchPrefix(w: Text, t: Text)
    ensures MatchLength(Literals(w), t).Some? <==> w <= t
    ensures w <= t ==> MatchLength(Literals(w), t) == Some(|w|)
  {
    if w == [] {
    } else {
      assert Literals(w)[1..] == Literals(w[1..]);
      MatchStep(Literals(w), t);
      if t != [] && t[0] == w[0] {
        LiteralsMatchPrefix(w[1..], t[1..]);
        assert w <= t <==> w[1..] <= t[1..] by {
          assert w == [w[0]] + w[1..] && t == [t[0]] + t[1..];
        }
      }
    }
  }

  lemma PrefixIsOccurrence(w: Text, t: Text, i: nat)
    requires i <= |t|
    ensures OccursAt(w, t, i) <==> w <= t[i..]
  {}

  lemma OccursOneOn(w: Text, t: Text, i: nat)
    requires i < |t|
    ensures OccursAt(w, t[1..], i) <==> OccursAt(w, t, i + 1)
  {
    assert t[1..][i..] == t[i + 1..];
    PrefixIsOccurrence(w, t[1..], i);
    PrefixIsOccurrence(w, t, i + 1);
  }

  lemma OccursWithin(w: Text, t: Text, rest: Text, i: nat)
    requires i + |w| <= |t|
    ensures OccursAt(w, t + rest, i) <==> OccursAt(w, t, i)
  {
    assert (t + rest)[i..i + |w|] == t[i..i + |w|];
  }

  /** What precedes the first occurrence is left alone. */
  lemma {:induction false} SkipsTo(w: Text, head: Text, t: Text)
    requires w != [] && forall i :: 0 <= i < |head| ==> !OccursAt(w, head + t, i)
    ensures ReplaceAll(Literals(w), head + t) == head + ReplaceAll(Literals(w), t)
  {
    hide ReplaceAll, MatchLength, OccursAt;
    if head == [] {
      assert head + t == t;
    } else {
      var all, rest := head + t, head[1..] + t;
      assert all[0..] == all && all[1..] == rest;
      PrefixIsOccurrence(w, all, 0);
      LiteralsMatchPrefix(w, all);
      forall i | 0 <= i < |head[1..]|
        ensures !OccursAt(w, rest, i)
      {
        OccursOneOn(w, all, i);
      }
      ReplaceStep(Literals(w), all);
      SkipsTo(w, head[1..], t);
      assert head == [head[0]] + head[1..];
    }
  }

  lemma TooShort(w: Text, t: Text)
    requires |t| < |w|
    ensures ReplaceAll(Literals(w), t) == t
  {
    forall i | 0 <= i < |t|
      ensures !OccursAt(w, t + [], i)
    {}
    hide ReplaceAll;
    SkipsTo(w, t, []);
    ReplaceStep(Literals(w), []);
    assert t + [] == t;
  }

  /** The secret, something shorter behind it, and nothing of it that begins earlier. */
  lemma FirstIsReplaced(w: Text, head: Text, rest: Text)
    requires |rest| < |w| && forall i :: 0 <= i < |head| ==> !OccursAt(w, head + w, i)
    ensures ReplaceAll(Literals(w), head + (w + rest)) == head + (MARKER + rest)
  {
    hide MARKER, MatchLength, ReplaceAll, OccursAt;
    assert head + (w + rest) == (head + w) + rest;
    forall i | 0 <= i < |head|
      ensures !OccursAt(w, head + (w + rest), i)
    {
      OccursWithin(w, head + w, rest, i);
    }
    SkipsTo(w, head, w + rest);
    LiteralsMatchPrefix(w, w + rest);
    assert (w + rest)[|w|..] == rest;
    ReplaceStep(Literals(w), w + rest);
    TooShort(w, rest);
  }

  // --- What a replacement can spell again ---------------------------------------------------------

  /**
    The rest of the text meets a marker after its first `n` characters, and the text does not
    begin any earlier where those characters stand in front of it.
    */
  predicate EntersAt(w: Text, n: nat) {
    && 0 < n < |w| && MeetsMarker(w[n..])
    && forall i :: 0 <= i < n ==> !OccursAt(w, w[..n] + w, i)
  }

  /** A marker supplies the beginning of the text or its end, or all of it. */
  ghost predicate ComesBack(w: Text) {
    Occurs(w, MARKER) || LeavesMarker(w) || exists n :: 0 < n < |w| && EntersAt(w, n)
  }

  /** The position of the first occurrence, or the length of the text. */
  lemma {:induction false} FirstOccurrence(w: Text, t: Text) returns (n: nat)
    requires w != []
    ensures n <= |t| && (n < |t| ==> OccursAt(w, t, n)) && forall i :: 0 <= i < n ==> !OccursAt(w, t, i)
  {
    if t == [] {
      n := 0;
    } else if OccursAt(w, t, 0) {
      n := 0;
    } else {
      hide OccursAt;
      var m := FirstOccurrence(w, t[1..]);
      n := m + 1;
      if n < |t| {
        OccursOneOn(w, t, m);
      }
      forall i | 0 <= i < n
        ensures !OccursAt(w, t, i)
      {
        if i > 0 {
          OccursOneOn(w, t, i - 1);
        }
      }
    }
  }

  /** If the text begins what a replacement leaves of `t` but not `t` itself, a marker supplies its end. */
  lemma BeginsWithMarkers(w: Text, t: Text)
    requires w != [] && w <= ReplaceAll(Literals(w), t) && !(w <= t)
    ensures (exists n :: 0 < n < |w| && EntersAt(w, n)) || MeetsMarker(w)
  {
    var n := FirstOccurrence(w, t);
    var head := t[..n];
    assert head + t[n..] == t;
    hide ReplaceAll, MARKER;
    if n == |t| {
      assert t[n..] == [] && head == t;
      ReplaceStep(Literals(w), []);
      SkipsTo(w, head, []);
    } else {
      SkipsTo(w, head, t[n..]);
      PrefixIsOccurrence(w, t, n);
      LiteralsMatchPrefix(w, t[n..]);
      ReplaceStep(Literals(w), t[n..]);
      var tail := ReplaceAll(Literals(w), t[n..][|w|..]);
      assert w <= head + (MARKER + tail);
      EndsInMarker(w, t, n, tail);
    }
  }

  lemma EndsInMarker(w: Text, t: Text, n: nat, tail: Text)
    requires n < |t| && OccursAt(w, t, n) && !(w <= t) && w <= t[..n] + (MARKER + tail)
    requires forall i :: 0 <= i < n ==> !OccursAt(w, t, i)
    ensures 0 < n < |w| && EntersAt(w, n)
  {
    hide MARKER;
    OneBegins(w, t[..n], MARKER + tail);
    assert n < |w|;
    assert w[..n] == t[..n] && w == w[..n] + w[n..];
    assert w[n..] <= MARKER + tail by {
      assert (t[..n] + (MARKER + tail))[..|w|] == w;
      assert (MARKER + tail)[..|w| - n] == (t[..n] + (MARKER + tail))[n..|w|] == w[n..];
    }
    OneBegins(w[n..], MARKER, tail);
    var both := t[..n + |w|];
    assert w[..n] + w == both && t == both + t[n + |w|..];
    hide OccursAt;
    forall i | 0 <= i < n
      ensures !OccursAt(w, w[..n] + w, i)
    {
      OccursWithin(w, both, t[n + |w|..], i);
    }
  }

  lemma MeetsIsStraddles(w: Text)
    requires w != [] && MeetsMarker(w)
    ensures Occurs(w, MARKER) || LeavesMarker(w)
  {
    if w <= MARKER {
      assert OccursAt(w, MARKER, 0);
    } else {
      assert LeavesAt(w, |MARKER|);
    }
  }

  /** An occurrence that a replacement of the text itself leaves is one that a marker helps to form. */
  lemma {:induction false} LeftMeansComesBack(w: Text, t: Text, i: nat)
    requires w != [] && OccursAt(w, ReplaceAll(Literals(w), t), i)
    ensures ComesBack(w)
    decreases |t|
  {
    hide OccursAt, MARKER, ReplaceAll, ComesBack, LeavesMarker, Occurs, EntersAt;
    ReplaceStep(Literals(w), t);
    LiteralsMatchPrefix(w, t);
    if t == [] {
      NowhereInNothing(w, i);
    } else if w <= t {
      if i < |MARKER| {
        OverlapsMarker(w, ReplaceAll(Literals(w), t[|w|..]), i);
        SuppliedComesBack(w);
      } else {
        OccursBehind(w, MARKER, ReplaceAll(Literals(w), t[|w|..]), i);
        LeftMeansComesBack(w, t[|w|..], i - |MARKER|);
      }
    } else if i > 0 {
      OccursBehind(w, [t[0]], ReplaceAll(Literals(w), t[1..]), i);
      LeftMeansComesBack(w, t[1..], i - 1);
    } else {
      OccursFirst(w, ReplaceAll(Literals(w), t));
      BeginsWithMarkers(w, t);
      if MeetsMarker(w) {
        MeetsIsStraddles(w);
      }
      SuppliedComesBack(w);
    }
  }

  lemma SuppliedComesBack(w: Text)
    ensures Occurs(w, MARKER) || LeavesMarker(w) || (exists n :: 0 < n < |w| && EntersAt(w, n)) ==> ComesBack(w)
  {}

  // --- The texts in which it comes back -----------------------------------------------------------

  /** One text in which redaction leaves the secret: it, with `head` before it and `rest` behind it. */
  lemma SurvivesIn(w: Text, head: Text, rest: Text)
    requires Straddles(w) && IsUnescaped(w) && |rest| < |w| && PERCENT !in head && PERCENT !in rest
    requires forall i :: 0 <= i < |head| ==> !OccursAt(w, head + w, i)
    requires Occurs(w, head + (MARKER + rest))
    ensures Occurs(w, Redacted(head + (w + rest), [w]))
  {
    FormNeedsPercent(w);
    hide MARKER, Occurs, OccursAt, FormOf, Straddles, JsonEscaped, ReplaceAll;
    RedactedTwice(w, head + (w + rest));
    WithoutPercentNothingChanges(FormOf(w), head + (w + rest));
    FirstIsReplaced(w, head, rest);
  }

  lemma MarkerLeavesIt(w: Text, n: nat)
    requires LeavesAt(w, n)
    ensures Occurs(w, MARKER + w[n..])
  {
    hide MARKER;
    var before, after := MARKER[..|MARKER| - n], w[n..];
    assert MARKER == before + w[..n] && w == w[..n] + after;
    assert MARKER + after == before + w && w == w + [];
    FirstOccurs(w, []);
    OccursFurther(w, before, w);
  }

  lemma SurvivesLeaving(w: Text, n: nat)
    requires LeavesAt(w, n) && IsUnescaped(w)
    ensures Occurs(w, Redacted([] + (w + w[n..]), [w]))
  {
    MarkerLeavesIt(w, n);
    hide JsonEscaped, MARKER, Occurs, OccursAt;
    assert [] + (MARKER + w[n..]) == MARKER + w[n..];
    SurvivesIn(w, [], w[n..]);
  }

  /** What stands in the secret behind a whole marker. */
  function Behind(w: Text, n: nat): Text
    requires n <= |w|
  {
    if |w| - n <= |MARKER| then [] else w[n + |MARKER|..]
  }

  lemma SurvivesEntering(w: Text, n: nat)
    requires EntersAt(w, n) && IsUnescaped(w)
    ensures Occurs(w, Redacted(w[..n] + (w + Behind(w, n)), [w]))
  {
    hide JsonEscaped, MARKER;
    var t := w[..n] + (MARKER + Behind(w, n));
    assert w == w[..n] + w[n..];
    assert w[n..] <= MARKER + Behind(w, n) by {
      if |w| - n > |MARKER| {
        assert w[n..] == MARKER + w[n..][|MARKER|..];
      }
    }
    assert w <= t;
    assert t[0..] == t;
    OccursFirst(w, t);
    SurvivesIn(w, w[..n], Behind(w, n));
  }

  /**
    A lone secret without escapes is left in some text by its own redaction exactly if a marker can
    supply the whole of it, its beginning, or its end: `ACT` and `]x` and `x[`, but not `[[`.
    */
  lemma LoneSecretIsGoneIff(w: Text)
    requires w != [] && IsUnescaped(w)
    ensures (forall text :: !Occurs(w, Redacted(text, [w]))) <==> !ComesBack(w)
  {
    assert Gives(w, [w][0]);
    hide JsonEscaped, MARKER, Redacted, OccursAt;
    if !Straddles(w) {
      assert !exists n :: 0 < n < |w| && EntersAt(w, n);
      SecretsAreGoneIff([w], 0, w);
    } else if !ComesBack(w) {
      forall text
        ensures !Occurs(w, Redacted(text, [w]))
      {
        RedactedTwice(w, text);
        if Occurs(w, Redacted(text, [w])) {
          var i :| 0 <= i <= |Redacted(text, [w])| && OccursAt(w, Redacted(text, [w]), i);
          LeftMeansComesBack(w, ReplaceAll(FormOf(w), text), i);
        }
      }
    } else {
      var text := SomethingSurvives(w);
    }
  }

  /** A piece of the marker survives in any text, so in itself. */
  lemma PieceSurvives(w: Text)
    requires Occurs(w, MARKER)
    ensures Occurs(w, Redacted(w, [w]))
  {
    hide MARKER, Matchers, InTurn, Occurs;
    MatchersAreProper([w]);
    assert w == w + [];
    FirstOccurs(w, []);
    MarkerPiecesStay(InTurn(Matchers([w])), w, w);
  }

  lemma SomethingSurvives(w: Text) returns (text: Text)
    requires w != [] && IsUnescaped(w) && ComesBack(w)
    ensures Occurs(w, Redacted(text, [w]))
  {
    hide JsonEscaped, MARKER, Occurs, LeavesAt, EntersAt, Redacted;
    if n :| 0 < n < |w| && LeavesAt(w, n) {
      text := [] + (w + w[n..]);
      SurvivesLeaving(w, n);
    } else if n :| 0 < n < |w| && EntersAt(w, n) {
      text := w[..n] + (w + Behind(w, n));
      SurvivesEntering(w, n);
    } else {
      text := w;
      PieceSurvives(w);
    }
  }

  // --- Three secrets ------------------------------------------------------------------------------

  lemma TwoUnescaped(a: Code, b: Code)
    requires 32 < a < 128 && 32 < b < 128 && a != 34 && b != 34 && a != 92 && b != 92 && a != PERCENT && b != PERCENT
    ensures IsUnescaped([a, b])
  {
    assert JsonPrefix([a, b], 0) == [] && JsonPrefix([a, b], 1) == [a];
  }

  lemma NotInMarker(a: Code, b: Code)
    requires a !in MARKER || b !in MARKER
    ensures !Occurs([a, b], MARKER)
  {
    forall i | 0 <= i <= |MARKER|
      ensures !OccursAt([a, b], MARKER, i)
    {
      assert i + 2 <= |MARKER| ==> MARKER[i..i + 2][0] in MARKER && MARKER[i..i + 2][1] in MARKER;
    }
  }

  /** `]x` can come back behind a marker and `x[` before one; neither is a piece of it. */
  lemma BracketsComeBack()
    ensures ComesBack([93, 120]) && !Occurs([93, 120], MARKER)
    ensures ComesBack([120, 91]) && !Occurs([120, 91], MARKER)
  {
    assert 120 !in MARKER;
    NotInMarker(93, 120);
    NotInMarker(120, 91);
    assert LeavesAt([93, 120], 1) by {
      assert [93, 120][..1] == MARKER[9..];
    }
    assert EntersAt([120, 91], 1) by {
      var w: Text := [120, 91];
      assert w[1..] == MARKER[..1] && w[..1] + w == [120, 120, 91];
      assert (w[..1] + w)[0..2] == [120, 120];
    }
  }

  /** `[[` never does: where its end would meet a marker, it was already replaced one place earlier. */
  lemma DoubledBracketIsGone()
    ensures EntersMarker([91, 91]) && !ComesBack([91, 91])
    ensures forall text :: !Occurs([91, 91], Redacted(text, [[91, 91]]))
  {
    var w: Text := [91, 91];
    assert w[1..] == MARKER[..1];
    forall n | 0 < n < |w|
      ensures !LeavesAt(w, n) && !EntersAt(w, n)
    {
      assert w[..n] + w == [91, 91, 91];
      assert w[..1][0] != MARKER[9..][0];
      assert OccursAt(w, w[..n] + w, 0);
    }
    forall i | 0 <= i <= |MARKER|
      ensures !OccursAt(w, MARKER, i)
    {
      assert i + 2 <= |MARKER| ==> MARKER[i..i + 2][1] == MARKER[i + 1] != 91;
    }
    TwoUnescaped(91, 91);
    LoneSecretIsGoneIff(w);
  }
}
