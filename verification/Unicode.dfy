/** UTF-16 and UTF-8, as the platform's text encoder and decoder convert between them. */
module Unicode {
  import opened Text
  import opened Base64

  type Scalar = s: int | 0 <= s < 0xD800 || 0xE000 <= s < 0x11_0000

  const REPLACEMENT: Scalar := 0xFFFD
  const BYTE_ORDER_MARK: Scalar := 0xFEFF

  // --- UTF-16 ---------------------------------------------------------------------------

  predicate IsHigh(c: Code) { 0xD800 <= c < 0xDC00 }
  predicate IsLow(c: Code) { 0xDC00 <= c < 0xE000 }

  /** A string read as scalar values; a lone surrogate becomes the replacement character. */
  function Scalars(t: Text): seq<Scalar> {
    if t == [] then []
    else if IsHigh(t[0]) && |t| > 1 && IsLow(t[1])
    then [0x1_0000 + (t[0] - 0xD800) * 0x400 + (t[1] - 0xDC00)] + Scalars(t[2..])
    else if IsHigh(t[0]) || IsLow(t[0]) then [REPLACEMENT] + Scalars(t[1..])
    else [t[0]] + Scalars(t[1..])
  }

  function UnitsOf(s: Scalar): Text {
    if s < 0x1_0000 then [s] else [0xD800 + (s - 0x1_0000) / 0x400, 0xDC00 + (s - 0x1_0000) % 0x400]
  }

  function Units(scalars: seq<Scalar>): Text {
    if scalars == [] then [] else UnitsOf(scalars[0]) + Units(scalars[1..])
  }

  /** Every surrogate is half of a pair. */
  predicate WellFormed(t: Text) {
    && (forall i :: 0 <= i < |t| && IsHigh(t[i]) ==> i + 1 < |t| && IsLow(t[i + 1]))
    && (forall i :: 0 <= i < |t| && IsLow(t[i]) ==> i > 0 && IsHigh(t[i - 1]))
  }

  lemma {:induction false} ScalarsOfUnits(scalars: seq<Scalar>)
    ensures Scalars(Units(scalars)) == scalars
  {
    if scalars == [] {
    } else {
      ScalarsOfUnits(scalars[1..]);
      var t, n := Units(scalars), |UnitsOf(scalars[0])|;
      assert t[n..] == Units(scalars[1..]);
      assert t[0] == UnitsOf(scalars[0])[0];
    }
  }

  lemma {:induction false} SameLength(t: Text)
    ensures |Units(Scalars(t))| == |t|
  {
    if t == [] {
    } else {
      SameLength(t[1..]);
      if |t| > 1 {
        SameLength(t[2..]);
      }
    }
  }

  /** How many units the first scalar of a text takes. */
  function FirstWidth(t: Text): nat
    requires t != []
  {
    if IsHigh(t[0]) && |t| > 1 && IsLow(t[1]) then 2 else 1
  }

  function FirstOf(t: Text): Scalar
    requires t != []
  {
    if FirstWidth(t) == 2 then 0x1_0000 + (t[0] - 0xD800) * 0x400 + (t[1] - 0xDC00)
    else if IsHigh(t[0]) || IsLow(t[0]) then REPLACEMENT
    else t[0]
  }

  lemma ScalarsStep(t: Text)
    requires t != []
    ensures Scalars(t) == [FirstOf(t)] + Scalars(t[FirstWidth(t)..])
  {}

  lemma UnitsStep(s: Scalar, rest: seq<Scalar>)
    ensures Units([s] + rest) == UnitsOf(s) + Units(rest)
  {
    assert ([s] + rest)[1..] == rest;
  }

  lemma FirstUnits(t: Text)
    requires t != []
    ensures UnitsOf(FirstOf(t)) == if FirstWidth(t) == 1 && (IsHigh(t[0]) || IsLow(t[0])) then [REPLACEMENT]
            else t[..FirstWidth(t)]
  {}

  lemma FirstScalar(t: Text)
    requires t != []
    ensures Units(Scalars(t)) ==
              (if FirstWidth(t) == 1 && (IsHigh(t[0]) || IsLow(t[0])) then [REPLACEMENT] else t[..FirstWidth(t)])
                                 + Units(Scalars(t[FirstWidth(t)..]))
  {
    hide Scalars, Units, UnitsOf, FirstOf;
    ScalarsStep(t);
    UnitsStep(FirstOf(t), Scalars(t[FirstWidth(t)..]));
    FirstUnits(t);
  }

  lemma RestWellFormed(t: Text)
    requires t != []
    ensures WellFormed(t) <==>
              (FirstWidth(t) == 2 || !(IsHigh(t[0]) || IsLow(t[0]))) && WellFormed(t[FirstWidth(t)..])
  {}

  /** Reading and writing UTF-16 changes exactly the ill-formed texts. */
  lemma {:induction false} UnitsOfScalars(t: Text)
    ensures Units(Scalars(t)) == t <==> WellFormed(t)
    decreases |t|
  {
    if t == [] {
    } else {
      var n := FirstWidth(t);
      UnitsOfScalars(t[n..]);
      FirstScalar(t);
      RestWellFormed(t);
      assert t == t[..n] + t[n..];
      if Units(Scalars(t)) == t {
        assert Units(Scalars(t))[n..] == t[n..];
        assert Units(Scalars(t))[0] == t[0];
      }
    }
  }

  // --- UTF-8 ----------------------------------------------------------------------------

  function Utf8Of(s: Scalar): seq<Byte> {
    if s < 0x80 then [s]
    else if s < 0x800 then [0xC0 + s / 0x40, 0x80 + s % 0x40]
    else if s < 0x1_0000 then [0xE0 + s / 0x1000, 0x80 + s / 0x40 % 0x40, 0x80 + s % 0x40]
    else [0xF0 + s / 0x4_0000, 0x80 + s / 0x1000 % 0x40, 0x80 + s / 0x40 % 0x40, 0x80 + s % 0x40]
  }

  function Utf8(scalars: seq<Scalar>): seq<Byte> {
    if scalars == [] then [] else Utf8Of(scalars[0]) + Utf8(scalars[1..])
  }

  /** The decoder's state: between characters, or with `more` bytes still to come. */
  datatype Need = Idle | Expect(more: nat, point: nat, low: Byte, high: Byte)

  /** Whatever bytes come next, the character being read will be a scalar value. */
  predicate NeedOk(need: Need) {
    match need
    case Idle => true
    case Expect(more, point, low, high) =>
      && 0x80 <= low && high <= 0xBF
      && (more == 1 || more == 2 || more == 3)
      && (more == 3 ==> point <= 4 && (point == 0 ==> low >= 0x90) && (point == 4 ==> high == 0x8F))
      && (more == 2 ==> point < 0x110 && (point == 13 ==> high == 0x9F))
      && (more == 1 ==> point < 0x4400 && !(0x360 <= point < 0x380))
  }

  function Lead(b: Byte): Need
    ensures NeedOk(Lead(b))
  {
    if 0xC2 <= b <= 0xDF then Expect(1, b - 0xC0, 0x80, 0xBF)
    else if 0xE0 <= b <= 0xEF
      then Expect(2, b - 0xE0, if b == 0xE0 then 0xA0 else 0x80, if b == 0xED then 0x9F else 0xBF)
    else if 0xF0 <= b <= 0xF4
      then Expect(3, b - 0xF0, if b == 0xF0 then 0x90 else 0x80, if b == 0xF4 then 0x8F else 0xBF)
    else Idle
  }

  /** One replacement character for each maximal piece that cannot be read. */
  function DecodeUtf8(bytes: seq<Byte>, need: Need): seq<Scalar>
    requires NeedOk(need)
    decreases |bytes|, if need.Idle? then 0 else 1
  {
    if bytes == [] then if need.Idle? then [] else [REPLACEMENT]
    else
      match need
      case Idle =>
        if bytes[0] < 0x80 then [bytes[0]] + DecodeUtf8(bytes[1..], Idle)
        else if Lead(bytes[0]).Expect? then DecodeUtf8(bytes[1..], Lead(bytes[0]))
        else [REPLACEMENT] + DecodeUtf8(bytes[1..], Idle)
      case Expect(more, point, low, high) =>
        if !(low <= bytes[0] <= high) then [REPLACEMENT] + DecodeUtf8(bytes, Idle)
        else
          var next := point * 0x40 + (bytes[0] - 0x80);
          if more == 1 then [next] + DecodeUtf8(bytes[1..], Idle)
            else DecodeUtf8(bytes[1..], Expect(more - 1, next, 0x80, 0xBF))
  }

  /** One step of the decoder inside a character. */
  lemma Continues(b: Byte, rest: seq<Byte>, need: Need)
    requires NeedOk(need) && need.Expect? && need.low <= b <= need.high
    ensures var next := need.point * 0x40 + (b - 0x80);
            if need.more == 1 then DecodeUtf8([b] + rest, need) == [next] + DecodeUtf8(rest, Idle)
            else NeedOk(Expect(need.more - 1, next, 0x80, 0xBF))
                 && DecodeUtf8([b] + rest, need) == DecodeUtf8(rest, Expect(need.more - 1, next, 0x80, 0xBF))
  {
    assert ([b] + rest)[1..] == rest;
  }

  lemma Leads(b: Byte, rest: seq<Byte>)
    requires Lead(b).Expect?
    ensures DecodeUtf8([b] + rest, Idle) == DecodeUtf8(rest, Lead(b))
  {
    assert ([b] + rest)[1..] == rest;
  }

  lemma OneByte(s: Scalar, rest: seq<Byte>)
    requires s < 0x80
    ensures DecodeUtf8(Utf8Of(s) + rest, Idle) == [s] + DecodeUtf8(rest, Idle)
  {
    assert ([s] + rest)[1..] == rest;
  }

  lemma TwoBytes(s: Scalar, rest: seq<Byte>)
    requires 0x80 <= s < 0x800
    ensures DecodeUtf8(Utf8Of(s) + rest, Idle) == [s] + DecodeUtf8(rest, Idle)
  {}

  lemma DecodesThree(a: Byte, b: Byte, c: Byte, x: nat, s: Scalar, rest: seq<Byte>)
    requires Lead(a).Expect? && Lead(a).more == 2 && Lead(a).low <= b <= Lead(a).high && 0x80 <= c <= 0xBF
    requires x == Lead(a).point * 0x40 + (b - 0x80) && s == x * 0x40 + (c - 0x80)
    ensures DecodeUtf8([a, b, c] + rest, Idle) == [s] + DecodeUtf8(rest, Idle)
  {
    hide DecodeUtf8, Lead;
    assert [a, b, c] + rest == [a] + ([b] + ([c] + rest));
    Leads(a, [b] + ([c] + rest));
    Continues(b, [c] + rest, Lead(a));
    Continues(c, rest, Expect(1, x, 0x80, 0xBF));
  }

  lemma ThreeBytes(s: Scalar, rest: seq<Byte>)
    requires 0x800 <= s < 0x1_0000
    ensures DecodeUtf8(Utf8Of(s) + rest, Idle) == [s] + DecodeUtf8(rest, Idle)
  {
    hide DecodeUtf8;
    DecodesThree(0xE0 + s / 0x1000, 0x80 + s / 0x40 % 0x40, 0x80 + s % 0x40, s / 0x40, s, rest);
  }

  lemma DecodesFour(a: Byte, b: Byte, c: Byte, d: Byte, x: nat, y: nat, s: Scalar, rest: seq<Byte>)
    requires Lead(a).Expect? && Lead(a).more == 3 && Lead(a).low <= b <= Lead(a).high && 0x80 <= c <= 0xBF
    requires 0x80 <= d <= 0xBF
    requires x == Lead(a).point * 0x40 + (b - 0x80) && y == x * 0x40 + (c - 0x80) && s == y * 0x40 + (d - 0x80)
    ensures DecodeUtf8([a, b, c, d] + rest, Idle) == [s] + DecodeUtf8(rest, Idle)
  {
    hide DecodeUtf8, Lead;
    assert [a, b, c, d] + rest == [a] + ([b] + ([c] + ([d] + rest)));
    Leads(a, [b] + ([c] + ([d] + rest)));
    Continues(b, [c] + ([d] + rest), Lead(a));
    Continues(c, [d] + rest, Expect(2, x, 0x80, 0xBF));
    Continues(d, rest, Expect(1, y, 0x80, 0xBF));
  }

  lemma SextetsSplit(n: nat)
    ensures n == n / 0x40 * 0x40 + n % 0x40 && n / 0x40 / 0x40 == n / 0x1000
  {}

  lemma FourByteDigits(s: Scalar)
    ensures s / 0x1000 == s / 0x4_0000 * 0x40 + s / 0x1000 % 0x40
    ensures s / 0x40 == s / 0x1000 * 0x40 + s / 0x40 % 0x40 && s == s / 0x40 * 0x40 + s % 0x40
  {
    SextetsSplit(s);
    SextetsSplit(s / 0x40);
    SextetsSplit(s / 0x1000);
  }

  lemma FourByteLead(s: Scalar)
    requires 0x1_0000 <= s
    ensures var lead := Lead(0xF0 + s / 0x4_0000);
            && lead.Expect? && lead.more == 3 && lead.point == s / 0x4_0000
            && lead.low <= 0x80 + s / 0x1000 % 0x40 <= lead.high
  {
    FourByteDigits(s);
  }

  lemma FourBytes(s: Scalar, rest: seq<Byte>)
    requires 0x1_0000 <= s
    ensures DecodeUtf8(Utf8Of(s) + rest, Idle) == [s] + DecodeUtf8(rest, Idle)
  {
    hide DecodeUtf8, Lead;
    FourByteDigits(s);
    FourByteLead(s);
    DecodesFour(0xF0 + s / 0x4_0000, 0x80 + s / 0x1000 % 0x40, 0x80 + s / 0x40 % 0x40, 0x80 + s % 0x40,
                s / 0x1000, s / 0x40, s, rest);
  }

  /** The decoder undoes the encoder, scalar by scalar. */
  lemma {:induction false} DecodesUtf8(scalars: seq<Scalar>)
    ensures DecodeUtf8(Utf8(scalars), Idle) == scalars
  {
    if scalars != [] {
      hide DecodeUtf8, Utf8Of;
      var s, rest := scalars[0], Utf8(scalars[1..]);
      DecodesUtf8(scalars[1..]);
      if s < 0x80 { OneByte(s, rest); }
      else if s < 0x800 { TwoBytes(s, rest); }
      else if s < 0x1_0000 { ThreeBytes(s, rest); }
      else { FourBytes(s, rest); }
    } else {
      assert DecodeUtf8([], Idle) == [];
    }
  }

  // --- Text encoder and decoder ------------------------------------------------------------

  const MARK_BYTES: seq<Byte> := [0xEF, 0xBB, 0xBF]

  function EncodeText(t: Text): seq<Byte> {
    Utf8(Scalars(t))
  }

  /** The decoder drops one leading byte order mark. */
  function DecodeText(bytes: seq<Byte>): Text {
    Units(DecodeUtf8(if MARK_BYTES <= bytes then bytes[3..] else bytes, Idle))
  }

  /** The texts the platform's encoder and decoder hand through unchanged. */
  predicate Survives(t: Text) {
    WellFormed(t) && (t == [] || t[0] != BYTE_ORDER_MARK)
  }

  lemma MarkStartsWithMark(scalars: seq<Scalar>)
    ensures MARK_BYTES <= Utf8(scalars) <==> scalars != [] && scalars[0] == BYTE_ORDER_MARK
    ensures scalars != [] && scalars[0] == BYTE_ORDER_MARK ==> Utf8(scalars)[3..] == Utf8(scalars[1..])
  {
    if scalars != [] {
      LeadingBytes(scalars[0], Utf8(scalars[1..]));
    }
  }

  lemma LeadingBytes(s: Scalar, rest: seq<Byte>)
    ensures MARK_BYTES <= Utf8Of(s) + rest <==> s == BYTE_ORDER_MARK
    ensures s == BYTE_ORDER_MARK ==> (Utf8Of(s) + rest)[3..] == rest
  {
    var bytes := Utf8Of(s) + rest;
    assert bytes[0] == Utf8Of(s)[0];
    if s >= 0x800 {
      assert bytes[1] == Utf8Of(s)[1] && bytes[2] == Utf8Of(s)[2];
    }
  }

  function WithoutMark(scalars: seq<Scalar>): seq<Scalar> {
    if scalars != [] && scalars[0] == BYTE_ORDER_MARK then scalars[1..] else scalars
  }

  lemma DecodesText(t: Text)
    ensures DecodeText(EncodeText(t)) == Units(WithoutMark(Scalars(t)))
  {
    MarkStartsWithMark(Scalars(t));
    DecodesUtf8(WithoutMark(Scalars(t)));
  }

  /** Encoding and decoding a text gives it back exactly when it is well formed and has no leading mark. */
  lemma TextSurvivesIff(t: Text)
    ensures DecodeText(EncodeText(t)) == t <==> Survives(t)
  {
    DecodesText(t);
    UnitsOfScalars(t);
    SameLength(t);
    if t != [] && Scalars(t)[0] == BYTE_ORDER_MARK {
      assert t[0] == BYTE_ORDER_MARK;
      assert UnitsOf(BYTE_ORDER_MARK) == [BYTE_ORDER_MARK];
      assert |Units(WithoutMark(Scalars(t)))| < |t|;
    }
  }

  /** Two texts have the same bytes exactly when they are read as the same scalars. */
  lemma SameBytesIffSameScalars(t: Text, u: Text)
    ensures EncodeText(t) == EncodeText(u) <==> Scalars(t) == Scalars(u)
  {
    DecodesUtf8(Scalars(t));
    DecodesUtf8(Scalars(u));
  }
}
