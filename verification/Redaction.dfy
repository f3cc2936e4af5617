/** The scanner that keeps encoded payloads out of previews, against the grammar it stands for. */
module Redaction {
  import opened Text

  const MIN_OPAQUE_PREVIEW_VALUE_LENGTH: nat := 16
  const MAX_DATA_URL_HEADER_LENGTH: nat := 256
  const MAX_EDGE_WHITESPACE_LENGTH: nat := 64

  predicate IsBreak(c: Code) { c == LF || c == CR }
  predicate IsHorizontal(c: Code) { c == SPACE || c == TAB }
  predicate IsGap(c: Code) { IsBreak(c) || IsHorizontal(c) }

  /** The alphabets of RFC 4648, sections 4 and 5, together. */
  predicate IsSymbol(c: Code) {
    IsUpper(c) || IsLower(c) || IsDigit(c) || c == 43 || c == 47 || c == 45 || c == 95
  }

  // --- The grammar --------------------------------------------------------------------

  predicate IsDataUrl(value: Text) {
    var head := TrimStart(value[..if |value| < MAX_DATA_URL_HEADER_LENGTH then |value|
                                else MAX_DATA_URL_HEADER_LENGTH]);
    |head| >= 5 && Lower(head[..5]) == Codes("data:")
  }

  function LeadingBlanks(t: Text): (n: nat)
    ensures n <= |t|
  {
    if t != [] && IsHorizontal(t[0]) then 1 + LeadingBlanks(t[1..]) else 0
  }

  function TrailingBlanks(t: Text): (n: nat)
    ensures n <= |t|
  {
    if t != [] && IsHorizontal(t[|t| - 1]) then 1 + TrailingBlanks(t[..|t| - 1]) else 0
  }

  predicate HasLongEdge(t: Text) {
    LeadingBlanks(t) > MAX_EDGE_WHITESPACE_LENGTH || TrailingBlanks(t) > MAX_EDGE_WHITESPACE_LENGTH
  }

  /** The value between its blank edges. */
  function Core(t: Text): Text {
    if LeadingBlanks(t) + TrailingBlanks(t) <= |t| then t[LeadingBlanks(t)..|t| - TrailingBlanks(t)] else []
  }

  /** What is left once every line break and blank is taken out. */
  function Payload(t: Text): Text {
    if t == [] then []
    else Payload(t[..|t| - 1]) + (if IsGap(t[|t| - 1]) then [] else [t[|t| - 1]])
  }

  /** The run of blanks and line breaks a text ends with. */
  function LastGap(t: Text): Text {
    if t != [] && IsGap(t[|t| - 1]) then LastGap(t[..|t| - 1]) + [t[|t| - 1]] else []
  }

  /** A gap without a line break separates two chunks; a gap with one only folds the text. */
  predicate Separates(gap: Text) {
    gap != [] && forall c <- gap :: !IsBreak(c)
  }

  predicate Wide(gap: Text) {
    |gap| >= 2 || TAB in gap
  }

  /** A separator, and how much payload comes before it. */
  datatype Separator = Separator(at: nat, gap: Text)

  function Separators(t: Text): seq<Separator> {
    if t == [] then []
    else
      var init := t[..|t| - 1];
      if !IsGap(t[|t| - 1]) && Separates(LastGap(init))
      then Separators(init) + [Separator(|Payload(init)|, LastGap(init))]
      else Separators(init)
  }

  /** Where the chunk that ends at separator `i` begins; with `i` the number of separators, the last chunk. */
  function ChunkStart(all: seq<Separator>, i: nat): nat
    requires i <= |all|
  {
    if i == 0 then 0 else all[i - 1].at
  }

  /** Symbols, then at most two padding characters. */
  predicate PaddedSymbols(x: Text, symbols: nat) {
    && symbols <= |x| <= symbols + 2
    && (forall i :: 0 <= i < symbols ==> IsSymbol(x[i]))
    && (forall i :: symbols <= i < |x| ==> x[i] == EQUALS)
  }

  /** A separator is wide, and the chunk before it is long and a whole number of quanta. */
  predicate EndsChunk(gap: Text, length: int) {
    Wide(gap) && length >= MIN_OPAQUE_PREVIEW_VALUE_LENGTH && length % 4 == 0
  }

  predicate SeparatorOk(all: seq<Separator>, i: nat)
    requires i < |all|
  {
    EndsChunk(all[i].gap, all[i].at - ChunkStart(all, i))
  }

  predicate WellSeparated(all: seq<Separator>) {
    forall i :: 0 <= i < |all| ==> SeparatorOk(all, i)
  }

  /**
    Long base64 text, folded at will: symbols with optional padding, split by wide gaps into
    long chunks of whole quanta, the last of which may be short but not shorter than a quantum.
    */
  ghost predicate IsEncoded(core: Text) {
    var x, all := Payload(core), Separators(core);
    && (exists symbols :: MIN_OPAQUE_PREVIEW_VALUE_LENGTH <= symbols && PaddedSymbols(x, symbols))
    && WellSeparated(all)
    && (all != [] ==> |x| - all[|all| - 1].at >= 4)
  }

  ghost predicate IsPrivate(value: Text) {
    || IsDataUrl(value)
    || (|value| >= MIN_OPAQUE_PREVIEW_VALUE_LENGTH
        && (HasLongEdge(value) || (|Core(value)| >= MIN_OPAQUE_PREVIEW_VALUE_LENGTH && IsEncoded(Core(value)))))
  }

  // --- One pass over the text -----------------------------------------------------------

  /** Scanning further only appends to what has been found. */
  lemma {:induction false} PrefixFindings(t: Text, i: nat)
    requires i <= |t|
    ensures Payload(t[..i]) <= Payload(t) && Separators(t[..i]) <= Separators(t)
    decreases |t|
  {
    if i < |t| {
      PrefixFindings(t[..|t| - 1], i);
      assert t[..|t| - 1][..i] == t[..i];
    } else {
      assert t[..i] == t;
    }
  }

  /** What one more code unit adds. */
  lemma NextFindings(t: Text, i: nat)
    requires i < |t|
    ensures Payload(t[..i + 1]) == if IsGap(t[i]) then Payload(t[..i]) else Payload(t[..i]) + [t[i]]
    ensures LastGap(t[..i + 1]) == if IsGap(t[i]) then LastGap(t[..i]) + [t[i]] else []
    ensures Separators(t[..i + 1]) ==
              if !IsGap(t[i]) && Separates(LastGap(t[..i]))
                then Separators(t[..i]) + [Separator(|Payload(t[..i])|, LastGap(t[..i]))]
              else Separators(t[..i])
  {
    assert t[..i + 1][..i] == t[..i];
  }

  // What the counters of the scan say about the findings so far.

  predicate GapSeen(gap: Text, horizontalLength: nat, horizontalHasTab: bool, atLineStart: bool) {
    && horizontalLength == (if Separates(gap) then |gap| else 0)
    && (horizontalHasTab <==> Separates(gap) && TAB in gap)
    && (atLineStart <==> gap != [] && !Separates(gap))
  }

  predicate ChunksSeen(length: nat, all: seq<Separator>, groupLength: nat, spacedGroups: bool) {
    WellSeparated(all) && groupLength == length - ChunkStart(all, |all|) && (spacedGroups <==> all != [])
  }

  predicate SymbolsSeen(x: Text, encodedLength: nat, paddingLength: nat) {
    |x| == encodedLength + paddingLength && PaddedSymbols(x, encodedLength)
  }

  lemma GapGrows(gap: Text, c: Code, horizontalLength: nat, horizontalHasTab: bool, atLineStart: bool)
    requires GapSeen(gap, horizontalLength, horizontalHasTab, atLineStart) && IsGap(c)
    ensures IsBreak(c) || atLineStart ==> GapSeen(gap + [c], 0, false, true)
    ensures atLineStart ==> horizontalLength == 0 && !horizontalHasTab
    ensures IsHorizontal(c) && !atLineStart ==>
              GapSeen(gap + [c], horizontalLength + 1, horizontalHasTab || c == TAB, false)
  {
    assert (gap + [c])[|gap|] == c;
    forall d | d in gap
      ensures d in gap + [c]
    {}
  }

  lemma GapRead(gap: Text, horizontalLength: nat, horizontalHasTab: bool, atLineStart: bool)
    requires GapSeen(gap, horizontalLength, horizontalHasTab, atLineStart)
    ensures horizontalLength > 0 <==> Separates(gap)
    ensures horizontalHasTab ==> Separates(gap)
    ensures Separates(gap) ==> (Wide(gap) <==> horizontalLength >= 2 || horizontalHasTab)
    ensures GapSeen([], 0, false, false)
  {}

  /** A payload character behind a separator begins a chunk. */
  lemma ChunkBegins(length: nat, all: seq<Separator>, gap: Text, groupLength: nat, spacedGroups: bool)
    requires ChunksSeen(length, all, groupLength, spacedGroups) && EndsChunk(gap, groupLength)
    ensures ChunksSeen(length + 1, all + [Separator(length, gap)], 1, true)
  {
    var more := all + [Separator(length, gap)];
    forall k | 0 <= k < |more|
      ensures SeparatorOk(more, k)
    {
      assert k < |all| ==> SeparatorOk(all, k);
    }
  }

  lemma ChunkContinues(length: nat, all: seq<Separator>, groupLength: nat, spacedGroups: bool)
    requires ChunksSeen(length, all, groupLength, spacedGroups)
    ensures ChunksSeen(length + 1, all, groupLength + 1, spacedGroups)
  {}

  /** A chunk that ends too early or behind too narrow a gap spoils the whole text. */
  lemma ChunkSpoils(length: nat, all: seq<Separator>, gap: Text, groupLength: nat, spacedGroups: bool,
                    whole: seq<Separator>)
    requires ChunksSeen(length, all, groupLength, spacedGroups) && !EndsChunk(gap, groupLength)
    requires all + [Separator(length, gap)] <= whole
    ensures !WellSeparated(whole)
  {
    assert whole[|all|] == Separator(length, gap);
    assert !SeparatorOk(whole, |all|);
  }

  predicate MayComeNext(c: Code, paddingLength: nat) {
    if c == EQUALS then paddingLength < 2 else paddingLength == 0 && IsSymbol(c)
  }

  lemma SymbolNext(x: Text, c: Code, encodedLength: nat, paddingLength: nat)
    requires SymbolsSeen(x, encodedLength, paddingLength) && MayComeNext(c, paddingLength)
    ensures if c == EQUALS then SymbolsSeen(x + [c], encodedLength, paddingLength + 1)
            else SymbolsSeen(x + [c], encodedLength + 1, 0)
  {}

  lemma SymbolSpoils(x: Text, c: Code, encodedLength: nat, paddingLength: nat, whole: Text)
    requires SymbolsSeen(x, encodedLength, paddingLength) && !MayComeNext(c, paddingLength) && paddingLength <= 2
    requires x + [c] <= whole
    ensures forall n :: !PaddedSymbols(whole, n)
  {
    forall n: nat
      ensures !PaddedSymbols(whole, n)
    {
      assert forall i :: 0 <= i < |x| ==> whole[i] == x[i];
      assert whole[|x|] == c;
      assert n < encodedLength ==> IsSymbol(whole[n]);
      assert encodedLength < |x| ==> whole[encodedLength] == EQUALS;
    }
  }

  lemma SymbolsEndOnce(x: Text, m: nat, n: nat)
    requires PaddedSymbols(x, m) && PaddedSymbols(x, n)
    ensures m == n
  {
    assert m < |x| ==> (IsSymbol(x[m]) <==> m < n);
    assert n < |x| ==> (IsSymbol(x[n]) <==> n < m);
  }

  lemma EndSeen(core: Text, encodedLength: nat, paddingLength: nat, groupLength: nat, spacedGroups: bool)
    requires paddingLength <= 2 && SymbolsSeen(Payload(core), encodedLength, paddingLength)
    requires ChunksSeen(|Payload(core)|, Separators(core), groupLength, spacedGroups)
    ensures IsEncoded(core) <==> encodedLength >= MIN_OPAQUE_PREVIEW_VALUE_LENGTH && !(spacedGroups && groupLength < 4)
  {
    hide Payload, Separators, WellSeparated, PaddedSymbols;
    forall n: nat | PaddedSymbols(Payload(core), n)
      ensures n == encodedLength
    {
      SymbolsEndOnce(Payload(core), encodedLength, n);
    }
  }

  /** Both refusals of the scan at position `i`, with the findings before it. */
  lemma Spoils(core: Text, i: nat, groupLength: nat, spacedGroups: bool, encodedLength: nat, paddingLength: nat)
    requires i < |core| && !IsGap(core[i]) && paddingLength <= 2
    requires ChunksSeen(|Payload(core[..i])|, Separators(core[..i]), groupLength, spacedGroups)
    requires SymbolsSeen(Payload(core[..i]), encodedLength, paddingLength)
    ensures Separates(LastGap(core[..i])) && !EndsChunk(LastGap(core[..i]), groupLength) ==> !IsEncoded(core)
    ensures !MayComeNext(core[i], paddingLength) ==> !IsEncoded(core)
  {
    hide Payload, LastGap, Separators, Separates, WellSeparated, PaddedSymbols, ChunksSeen, SymbolsSeen, EndsChunk,
         MayComeNext;
    NextFindings(core, i);
    PrefixFindings(core, i + 1);
    var x, all, gap := Payload(core[..i]), Separators(core[..i]), LastGap(core[..i]);
    if Separates(gap) && !EndsChunk(gap, groupLength) {
      ChunkSpoils(|x|, all, gap, groupLength, spacedGroups, Separators(core));
    }
    if !MayComeNext(core[i], paddingLength) {
      SymbolSpoils(x, core[i], encodedLength, paddingLength, Payload(core));
    }
  }

  /** The scan between the edges. */
  method ScanCore(core: Text) returns (r: bool)
    requires core != [] && !IsHorizontal(core[|core| - 1])
    ensures r <==> IsEncoded(core)
  {
    hide Payload, LastGap, Separators, Separates, Wide, WellSeparated, PaddedSymbols, GapSeen, ChunksSeen, SymbolsSeen,
         IsEncoded;
    var encodedLength, paddingLength, groupLength, horizontalLength := 0, 0, 0, 0;
    var horizontalHasTab, spacedGroups, atLineStart := false, false, false;
    var i := 0;
    ghost var x, all, gap := NothingFound(core);
    while i < |core|
      invariant 0 <= i <= |core| && paddingLength <= 2
      invariant x == Payload(core[..i]) && SymbolsSeen(x, encodedLength, paddingLength)
      invariant all == Separators(core[..i]) && ChunksSeen(|x|, all, groupLength, spacedGroups)
      invariant gap == LastGap(core[..i]) && GapSeen(gap, horizontalLength, horizontalHasTab, atLineStart)
    {
      NextFindings(core, i);
      var c := core[i];
      if !IsGap(c) {
        Spoils(core, i, groupLength, spacedGroups, encodedLength, paddingLength);
        GapRead(gap, horizontalLength, horizontalHasTab, atLineStart);
      } else {
        GapGrows(gap, c, horizontalLength, horizontalHasTab, atLineStart);
      }
      i := i + 1;
      if c == LF || c == CR {
        gap := gap + [c];
        horizontalLength, horizontalHasTab, atLineStart := 0, false, true;
        continue;
      }
      if c == SPACE || c == TAB {
        gap := gap + [c];
        if atLineStart {
          continue;
        }
        horizontalLength := horizontalLength + 1;
        if c == TAB { horizontalHasTab := true; }
        continue;
      }
      if horizontalLength > 0 {
        if groupLength < MIN_OPAQUE_PREVIEW_VALUE_LENGTH || groupLength % 4 != 0
           || (horizontalLength < 2 && !horizontalHasTab) {
          return false;
        }
        ChunkBegins(|x|, all, gap, groupLength, spacedGroups);
        all := all + [Separator(|x|, gap)];
        spacedGroups, groupLength, horizontalLength, horizontalHasTab := true, 0, 0, false;
      } else {
        ChunkContinues(|x|, all, groupLength, spacedGroups);
      }
      atLineStart, gap := false, [];
      if MayComeNext(c, paddingLength) {
        SymbolNext(x, c, encodedLength, paddingLength);
      }
      x := x + [c];
      if c == EQUALS {
        paddingLength := paddingLength + 1;
        if paddingLength > 2 { return false; }
        groupLength := groupLength + 1;
        continue;
      }
      if paddingLength > 0 { return false; }
      if IsSymbol(c) {
        encodedLength := encodedLength + 1;
        groupLength := groupLength + 1;
        continue;
      }
      return false;
    }
    assert core[..i] == core;
    EndSeen(core, encodedLength, paddingLength, groupLength, spacedGroups);
    GapRead(gap, horizontalLength, horizontalHasTab, atLineStart);
    NoLastSeparator(core);
    if horizontalLength > 0 || (spacedGroups && groupLength < 4) { return false; }
    r := encodedLength >= MIN_OPAQUE_PREVIEW_VALUE_LENGTH;
  }

  lemma NothingFound(core: Text) returns (x: Text, all: seq<Separator>, gap: Text)
    ensures x == Payload(core[..0]) && all == Separators(core[..0]) && gap == LastGap(core[..0])
    ensures SymbolsSeen(x, 0, 0) && ChunksSeen(|x|, all, 0, false) && GapSeen(gap, 0, false, false)
  {
    x, all, gap := [], [], [];
  }

  lemma NoLastSeparator(core: Text)
    requires core != [] && !IsHorizontal(core[|core| - 1])
    ensures !Separates(LastGap(core))
  {}

  predicate Blanks(t: Text, from: nat, to: nat)
    requires to <= |t|
  {
    forall k :: from <= k < to ==> IsHorizontal(t[k])
  }

  lemma LeadingRun(t: Text, n: nat)
    requires n <= |t| && Blanks(t, 0, n)
    ensures n <= LeadingBlanks(t) && (n < |t| && !IsHorizontal(t[n]) ==> n == LeadingBlanks(t))
  {
    if n == 0 {
    } else {
      LeadingRun(t[1..], n - 1);
    }
  }

  lemma TrailingRun(t: Text, n: nat)
    requires n <= |t| && Blanks(t, |t| - n, |t|)
    ensures n <= TrailingBlanks(t) && (n < |t| && !IsHorizontal(t[|t| - n - 1]) ==> n == TrailingBlanks(t))
  {
    if n == 0 {
    } else {
      TrailingRun(t[..|t| - 1], n - 1);
    }
  }

  /** The scanner decides exactly the grammar. */
  method IsEncodedPrivatePayload(value: Text) returns (r: bool)
    ensures r <==> IsPrivate(value)
  {
    hide IsEncoded, IsDataUrl, LeadingBlanks, TrailingBlanks, IsHorizontal;
    if IsDataUrl(value) { return true; }
    if |value| < MIN_OPAQUE_PREVIEW_VALUE_LENGTH { return false; }
    var start, end := 0, |value|;
    while start < end && IsHorizontal(value[start])
      invariant 0 <= start <= end == |value| && start <= MAX_EDGE_WHITESPACE_LENGTH && Blanks(value, 0, start)
    {
      start := start + 1;
      LeadingRun(value, start);
      if start > MAX_EDGE_WHITESPACE_LENGTH { return true; }
    }
    LeadingRun(value, start);
    while end > start && IsHorizontal(value[end - 1])
      invariant start <= end <= |value| && |value| - end <= MAX_EDGE_WHITESPACE_LENGTH && Blanks(value, end, |value|)
    {
      end := end - 1;
      TrailingRun(value, |value| - end);
      if |value| - end > MAX_EDGE_WHITESPACE_LENGTH { return true; }
    }
    TrailingRun(value, |value| - end);
    if end - start < MIN_OPAQUE_PREVIEW_VALUE_LENGTH { return false; }
    r := ScanCore(Core(value));
  }
}
