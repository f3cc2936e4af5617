/** What the scanner's grammar covers: every folded base64 text, and not ordinary words. */
module RedactionTheorems {
  import opened Text
  import opened Redaction
  import B = Base64

  /** Between the two positions there is nothing but blanks and line breaks. */
  predicate SameGap(t: Text, i: nat, k: nat)
    requires i < |t| && k < |t|
  {
    forall m :: 0 <= m < |t| && (i <= m <= k || k <= m <= i) ==> IsGap(t[m])
  }

  /** Line breaks anywhere, and blanks only in gaps that hold a line break. */
  predicate Folds(t: Text) {
    forall i :: 0 <= i < |t| && IsHorizontal(t[i]) ==> exists k :: 0 <= k < |t| && IsBreak(t[k]) && SameGap(t, i, k)
  }

  /** The gap before a position holds everything back to the last payload character. */
  lemma {:induction false} GapReaches(t: Text, k: nat, i: nat)
    requires k < i <= |t| && forall m :: k <= m < i ==> IsGap(t[m])
    ensures t[k] in LastGap(t[..i])
  {
    assert t[..i][..i - 1] == t[..i - 1];
    if k == i - 1 {
    } else {
      GapReaches(t, k, i - 1);
    }
  }

  lemma FoldedGapHasBreak(t: Text, i: nat)
    requires Folds(t) && i < |t| && !IsGap(t[i])
    ensures !Separates(LastGap(t[..i]))
  {
    if i == 0 || !IsGap(t[i - 1]) {
      return;
    }
    var k := i - 1;
    if IsHorizontal(t[i - 1]) {
      k :| 0 <= k < |t| && IsBreak(t[k]) && SameGap(t, i - 1, k);
    }
    GapReaches(t, k, i);
  }

  lemma {:induction false} FoldsDoNotSeparate(t: Text, i: nat)
    requires Folds(t) && i <= |t|
    ensures Separators(t[..i]) == []
  {
    if i == 0 {
      assert t[..0] == [];
      return;
    }
    hide Folds, Separates, LastGap, Separators, Payload;
    FoldsDoNotSeparate(t, i - 1);
    NextFindings(t, i - 1);
    if !IsGap(t[i - 1]) {
      FoldedGapHasBreak(t, i - 1);
    }
  }

  lemma EncodingIsPaddedSymbols(alphabet: B.Alphabet, padded: bool, bytes: seq<B.Byte>)
    ensures PaddedSymbols(B.Encoding(alphabet, padded, bytes), |B.Sextets(bytes)|)
  {}

  lemma CoreBetweenEdges(left: Text, t: Text, right: Text)
    requires Blanks(left, 0, |left|) && Blanks(right, 0, |right|)
    requires t != [] && !IsHorizontal(t[0]) && !IsHorizontal(t[|t| - 1])
    ensures Core(left + t + right) == t
  {
    var value := left + t + right;
    assert value[|left|] == t[0] && value[|left| + |t| - 1] == t[|t| - 1];
    LeadingRun(value, |left|);
    assert Blanks(value, |value| - |right|, |value|) by {
      assert forall k :: |value| - |right| <= k < |value| ==> value[k] == right[k - |left| - |t|];
    }
    TrailingRun(value, |right|);
  }

  lemma {:induction false} PayloadIsShorter(t: Text)
    ensures |Payload(t)| <= |t|
  {
    if t == [] {
    } else {
      PayloadIsShorter(t[..|t| - 1]);
    }
  }

  lemma EnoughSymbols(alphabet: B.Alphabet, padded: bool, bytes: seq<B.Byte>)
    requires |bytes| >= 12
    ensures |B.Sextets(bytes)| >= MIN_OPAQUE_PREVIEW_VALUE_LENGTH
    ensures PaddedSymbols(B.Encoding(alphabet, padded, bytes), |B.Sextets(bytes)|)
  {
    EncodingIsPaddedSymbols(alphabet, padded, bytes);
    B.SextetCount(bytes);
    assert |bytes| / 3 >= 4;
  }

  lemma FoldedEncodingIsEncoded(alphabet: B.Alphabet, padded: bool, bytes: seq<B.Byte>, t: Text)
    requires |bytes| >= 12 && Payload(t) == B.Encoding(alphabet, padded, bytes) && Folds(t)
    ensures IsEncoded(t) && |t| >= MIN_OPAQUE_PREVIEW_VALUE_LENGTH
  {
    hide B.Sextets, B.Encoding, Separators, Payload, PaddedSymbols, Folds;
    EnoughSymbols(alphabet, padded, bytes);
    assert |Payload(t)| >= MIN_OPAQUE_PREVIEW_VALUE_LENGTH by {
      PaddedLength(Payload(t), |B.Sextets(bytes)|);
    }
    PayloadIsShorter(t);
    FoldsDoNotSeparate(t, |t|);
    assert t[..|t|] == t;
  }

  lemma PaddedLength(x: Text, symbols: nat)
    requires PaddedSymbols(x, symbols)
    ensures symbols <= |x|
  {}

  /**
    Every base64 text of twelve bytes or more is private: in either alphabet, padded or not,
    folded at any positions, between any blanks.
    */
  lemma EncodingsArePrivate(alphabet: B.Alphabet, padded: bool, bytes: seq<B.Byte>, left: Text, t: Text, right: Text)
    requires |bytes| >= 12
    requires Payload(t) == B.Encoding(alphabet, padded, bytes) && Folds(t)
    requires Blanks(left, 0, |left|) && Blanks(right, 0, |right|)
    requires t != [] ==> !IsHorizontal(t[0]) && !IsHorizontal(t[|t| - 1])
    ensures IsPrivate(left + t + right)
  {
    FoldedEncodingIsEncoded(alphabet, padded, bytes, t);
    hide B.Encoding, Payload, IsEncoded, IsDataUrl, Core, HasLongEdge;
    CoreBetweenEdges(left, t, right);
  }

  /** Two words with a single blank space between them are enough to keep a text visible. */
  lemma SingleSpaceStaysVisible(t: Text, i: nat)
    requires 0 < i < |t| - 1 && t[i] == SPACE && !IsGap(t[i - 1]) && !IsGap(t[i + 1])
    ensures !IsEncoded(t)
  {
    hide Separators, Payload, LastGap, PaddedSymbols;
    NextFindings(t, i - 1);
    NextFindings(t, i);
    NextFindings(t, i + 1);
    PrefixFindings(t, i + 2);
    var all := Separators(t[..i + 1]);
    assert LastGap(t[..i + 1]) == [SPACE];
    assert Separators(t)[|all|].gap == [SPACE];
    assert !SeparatorOk(Separators(t), |all|);
  }
}
