/** Tool names: three identifiers packed into one name a model can call, and unpacked again. */
module ToolNames {
  import opened Wrappers
  import opened Text
  import opened Base64
  import opened Unicode

  const DASH: Code := 45
  const DOT: Code := 46
  const PLUS: Code := 43
  const SLASH: Code := 47
  const UNDERSCORE: Code := 95

  // --- The platform's base64 --------------------------------------------------------------

  /** `btoa`, on strings whose code units all fit a byte. */
  function Btoa(binary: Text): Text
    requires forall i :: 0 <= i < |binary| ==> binary[i] < 256
  {
    Encoding(Standard, true, Latin1(binary))
  }

  function Latin1(binary: Text): (bytes: seq<Byte>)
    requires forall i :: 0 <= i < |binary| ==> binary[i] < 256
    ensures |bytes| == |binary| && forall i :: 0 <= i < |binary| ==> bytes[i] == binary[i]
  {
    if binary == [] then [] else Latin1(binary[..|binary| - 1]) + [binary[|binary| - 1]]
  }

  predicate IsAsciiWhitespace(c: Code) {
    c == 9 || c == 10 || c == 12 || c == 13 || c == 32
  }

  function WithoutWhitespace(t: Text): Text {
    if t == [] then []
    else if IsAsciiWhitespace(t[0]) then WithoutWhitespace(t[1..]) else [t[0]] + WithoutWhitespace(t[1..])
  }

  /** At most two padding characters, and only from text that fills whole quanta. */
  function Unpadded(t: Text): Text {
    if |t| % 4 != 0 || t == [] || t[|t| - 1] != EQUALS then t
    else if t[|t| - 2] != EQUALS then t[..|t| - 1]
    else t[..|t| - 2]
  }

  /** `atob`: the forgiving decoder of the Infra standard; `None` where it throws. */
  function Atob(t: Text): Option<seq<Byte>> {
    match SextetsOf(Standard, Unpadded(WithoutWhitespace(t)))
    case None => None
    case Some(xs) => BytesOf(xs)
  }

  // --- Encoding a part --------------------------------------------------------------------

  method EncodeUtf8Base64Url(value: Text) returns (r: Text)
    ensures r == Encoding(UrlSafe, false, EncodeText(value))
  {
    var bytes := EncodeText(value);
    var binary: Text := [];
    for i := 0 to |bytes|
      invariant binary == bytes[..i]
    {
      binary := binary + [bytes[i]];
    }
    assert Latin1(binary) == bytes;
    UrlSafeFromStandard(bytes);
    r := MadeUrlSafe(Btoa(binary));
  }

  function EncodePart(value: Text): Text {
    Replaced(Encoding(UrlSafe, false, EncodeText(value)), UNDERSCORE, DOT)
  }

  function DecodeUtf8Base64Url(value: Text): Option<Text> {
    var normalized := Replaced(Replaced(value, DASH, PLUS), UNDERSCORE, SLASH);
    var padded := normalized + Padding((4 - |normalized| % 4) % 4);
    match Atob(padded)
    case None => None
    case Some(bytes) => Some(DecodeText(bytes))
  }

  function DecodePart(value: Text): Option<Text> {
    DecodeUtf8Base64Url(Replaced(value, DOT, UNDERSCORE))
  }

  // --- Names ------------------------------------------------------------------------------

  const INT: Text := Codes("int")

  function ToolName(provider: Text, connector: Text, action: Text): Text {
    INT + [UNDERSCORE] + EncodePart(provider) + [UNDERSCORE] + EncodePart(connector) + [UNDERSCORE] + EncodePart(action)
  }

  function Split(t: Text, separator: Code): (parts: seq<Text>)
    ensures parts != []
  {
    if t == [] then [[]]
    else
      var rest := Split(t[1..], separator);
      if t[0] == separator then [[]] + rest else [[t[0]] + rest[0]] + rest[1..]
  }

  datatype Parsed = Parts(provider: Text, connector: Text, action: Text) | InvalidName | InvalidEncoding

  function ParseToolName(name: Text): Parsed {
    var parts := Split(name, UNDERSCORE);
    if |parts| != 4 || parts[0] != INT then InvalidName
    else
      match (DecodePart(parts[1]), DecodePart(parts[2]), DecodePart(parts[3]))
      case (Some(p), Some(c), Some(a)) => Parts(p, c, a)
      case _ => InvalidEncoding
  }

  // --- Round trips ------------------------------------------------------------------------

  lemma {:induction false} NoWhitespace(t: Text)
    requires forall i :: 0 <= i < |t| ==> !IsAsciiWhitespace(t[i])
    ensures WithoutWhitespace(t) == t
  {
    if t == [] {
    } else {
      NoWhitespace(t[1..]);
    }
  }

  lemma UnpaddedAgain(t: Text, pad: nat)
    requires pad <= 2 && (|t| + pad) % 4 == 0 && (t != [] ==> t[|t| - 1] != EQUALS) && (pad > 0 ==> |t| >= 2)
    ensures Unpadded(t + Padding(pad)) == t
  {
    var padded := t + Padding(pad);
    assert padded[..|t|] == t;
    assert pad == 0 ==> padded == t;
  }

  function Pads(bytes: seq<Byte>): nat {
    (3 - |bytes| % 3) % 3
  }

  lemma PaddingFills(bytes: seq<Byte>)
    ensures Pads(bytes) <= 2 && (|Sextets(bytes)| + Pads(bytes)) % 4 == 0 && (Pads(bytes) > 0 ==> |Sextets(bytes)| >= 2)
  {
    SextetCount(bytes);
    hide Sextets;
    assert |Sextets(bytes)| + Pads(bytes) == 4 * (|bytes| / 3 + if |bytes| % 3 == 0 then 0 else 1);
  }

  lemma StandardIsPlain(xs: seq<Sextet>, pad: nat)
    ensures WithoutWhitespace(Symbols(Standard, xs) + Padding(pad)) == Symbols(Standard, xs) + Padding(pad)
    ensures xs != [] ==> Symbols(Standard, xs)[|xs| - 1] != EQUALS
  {
    NoWhitespace(Symbols(Standard, xs) + Padding(pad));
  }

  /** The forgiving decoder reads back what the standard encoder wrote. */
  lemma AtobReads(bytes: seq<Byte>)
    ensures Atob(Encoding(Standard, true, bytes)) == Some(bytes)
  {
    hide Sextets, SextetsOf, BytesOf, WithoutWhitespace, Unpadded, Symbols, Symbol, Padding;
    var xs := Sextets(bytes);
    PaddingFills(bytes);
    StandardIsPlain(xs, Pads(bytes));
    SextetsOfSymbols(Standard, xs);
    BytesOfSextets(bytes);
    UnpaddedAgain(Symbols(Standard, xs), Pads(bytes));
  }

  /** Putting the dots, dashes and padding back restores the standard encoding. */
  lemma PartDecodes(value: Text)
    ensures DecodePart(EncodePart(value)) == Some(DecodeText(EncodeText(value)))
  {
    var bytes := EncodeText(value);
    hide EncodeText, DecodeText, Sextets, Atob;
    var t := Encoding(UrlSafe, false, bytes);
    assert Replaced(EncodePart(value), DOT, UNDERSCORE) == t;
    PaddingFills(bytes);
    assert Replaced(Replaced(t, DASH, PLUS), UNDERSCORE, SLASH) == Symbols(Standard, Sextets(bytes));
    AtobReads(bytes);
  }

  lemma {:induction false} SplitAtFirst(head: Text, separator: Code, tail: Text)
    requires separator !in head
    ensures Split(head, separator) == [head]
    ensures Split(head + [separator] + tail, separator) == [head] + Split(tail, separator)
  {
    var t := head + [separator] + tail;
    if head == [] {
      assert t[1..] == tail;
    } else {
      assert t[1..] == head[1..] + [separator] + tail;
      assert head == [head[0]] + head[1..];
      SplitAtFirst(head[1..], separator, tail);
    }
  }

  lemma PartHasNoUnderscore(value: Text)
    ensures UNDERSCORE !in EncodePart(value)
  {}

  lemma NameSplits(provider: Text, connector: Text, action: Text)
    ensures Split(ToolName(provider, connector, action), UNDERSCORE)
              == [INT, EncodePart(provider), EncodePart(connector), EncodePart(action)]
  {
    var p, c, a := EncodePart(provider), EncodePart(connector), EncodePart(action);
    PartHasNoUnderscore(provider);
    PartHasNoUnderscore(connector);
    PartHasNoUnderscore(action);
    hide EncodePart, Split;
    assert ToolName(provider, connector, action)
        == INT + [UNDERSCORE] + (p + [UNDERSCORE] + (c + [UNDERSCORE] + a));
    SplitAtFirst(INT, UNDERSCORE, p + [UNDERSCORE] + (c + [UNDERSCORE] + a));
    SplitAtFirst(p, UNDERSCORE, c + [UNDERSCORE] + a);
    SplitAtFirst(c, UNDERSCORE, a);
    SplitAtFirst(a, UNDERSCORE, []);
  }

  lemma NameParses(provider: Text, connector: Text, action: Text)
    ensures ParseToolName(ToolName(provider, connector, action))
              == Parts(DecodeText(EncodeText(provider)), DecodeText(EncodeText(connector)),
                       DecodeText(EncodeText(action)))
  {
    NameSplits(provider, connector, action);
    PartDecodes(provider);
    PartDecodes(connector);
    PartDecodes(action);
  }

  /**
    A tool name parses back to its own parts exactly when no part has a lone surrogate or begins
    with a byte order mark, which the decoder drops.
    */
  lemma NameRoundTripsIff(provider: Text, connector: Text, action: Text)
    ensures ParseToolName(ToolName(provider, connector, action)) == Parts(provider, connector, action)
       <==> Survives(provider) && Survives(connector) && Survives(action)
  {
    NameParses(provider, connector, action);
    TextSurvivesIff(provider);
    TextSurvivesIff(connector);
    TextSurvivesIff(action);
  }

  lemma {:induction false} PartsAreInjective(value: Text, other: Text)
    ensures EncodePart(value) == EncodePart(other) <==> Scalars(value) == Scalars(other)
  {
    var t, u := Encoding(UrlSafe, false, EncodeText(value)), Encoding(UrlSafe, false, EncodeText(other));
    assert Replaced(EncodePart(value), DOT, UNDERSCORE) == t && Replaced(EncodePart(other), DOT, UNDERSCORE) == u;
    DecodedIffEncoded(t, EncodeText(value));
    DecodedIffEncoded(u, EncodeText(other));
    SameBytesIffSameScalars(value, other);
  }

  /** Names of well-formed parts are equal only for equal parts, byte order marks included. */
  lemma NamesAreInjective(p: Text, c: Text, a: Text, p': Text, c': Text, a': Text)
    requires WellFormed(p) && WellFormed(c) && WellFormed(a) && WellFormed(p') && WellFormed(c') && WellFormed(a')
    requires ToolName(p, c, a) == ToolName(p', c', a')
    ensures p == p' && c == c' && a == a'
  {
    NameSplits(p, c, a);
    NameSplits(p', c', a');
    SamePart(p, p');
    SamePart(c, c');
    SamePart(a, a');
  }

  lemma SamePart(value: Text, other: Text)
    requires WellFormed(value) && WellFormed(other)
    ensures EncodePart(value) == EncodePart(other) ==> value == other
  {
    PartsAreInjective(value, other);
    UnitsOfScalars(value);
    UnitsOfScalars(other);
  }
}
