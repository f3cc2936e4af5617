/** Base64 as RFC 4648 defines it, and the two encoders and one decoder the library uses. */
module Base64 {
  import opened Wrappers
  import opened Text

  type Byte = b: int | 0 <= b < 256
  type Sextet = x: int | 0 <= x < 64

  datatype Alphabet = Standard | UrlSafe

  // --- RFC 4648 -------------------------------------------------------------------------

  function Symbol(alphabet: Alphabet, x: Sextet): Code {
    if x < 26 then 65 + x
    else if x < 52 then 97 + (x - 26)
    else if x < 62 then 48 + (x - 52)
    else if x == 62 then (if alphabet.Standard? then 43 else 45)
    else (if alphabet.Standard? then 47 else 95)
  }

  function SextetOf(alphabet: Alphabet, c: Code): Option<Sextet> {
    if IsUpper(c) then Some(c - 65)
    else if IsLower(c) then Some(c - 97 + 26)
    else if IsDigit(c) then Some(c - 48 + 52)
    else if c == Symbol(alphabet, 62) then Some(62)
    else if c == Symbol(alphabet, 63) then Some(63)
    else None
  }

  // Three bytes are four sextets, read as one 24-bit number.

  function Sextet0(a: Byte): Sextet { a / 4 }
  function Sextet1(a: Byte, b: Byte): Sextet { a % 4 * 16 + b / 16 }
  function Sextet2(b: Byte, c: Byte): Sextet { b % 16 * 4 + c / 64 }
  function Sextet3(c: Byte): Sextet { c % 64 }

  function Byte0(w: Sextet, x: Sextet): Byte { w * 4 + x / 16 }
  function Byte1(x: Sextet, y: Sextet): Byte { x % 16 * 16 + y / 4 }
  function Byte2(y: Sextet, z: Sextet): Byte { y % 4 * 64 + z }

  lemma BytesBack(a: Byte, b: Byte, c: Byte)
    ensures Byte0(Sextet0(a), Sextet1(a, b)) == a
    ensures Byte1(Sextet1(a, b), Sextet2(b, c)) == b
    ensures Byte2(Sextet2(b, c), Sextet3(c)) == c
    ensures Sextet1(a, 0) % 16 == 0 && Sextet2(b, 0) % 4 == 0
  {}

  lemma SextetsBack(w: Sextet, x: Sextet, y: Sextet, z: Sextet)
    ensures Sextet0(Byte0(w, x)) == w
    ensures Sextet1(Byte0(w, x), Byte1(x, y)) == x && (x % 16 == 0 ==> Sextet1(Byte0(w, x), 0) == x)
    ensures Sextet2(Byte1(x, y), Byte2(y, z)) == y && (y % 4 == 0 ==> Sextet2(Byte1(x, y), 0) == y)
    ensures Sextet3(Byte2(y, z)) == z
  {}

  /** Groups of three bytes become groups of four sextets; a short last group is filled with zero bits. */
  function Sextets(bytes: seq<Byte>): seq<Sextet> {
    if bytes == [] then []
    else if |bytes| == 1 then [Sextet0(bytes[0]), Sextet1(bytes[0], 0)]
    else if |bytes| == 2 then [Sextet0(bytes[0]), Sextet1(bytes[0], bytes[1]), Sextet2(bytes[1], 0)]
    else Group(bytes[0], bytes[1], bytes[2]) + Sextets(bytes[3..])
  }

  function Group(a: Byte, b: Byte, c: Byte): seq<Sextet> {
    [Sextet0(a), Sextet1(a, b), Sextet2(b, c), Sextet3(c)]
  }

  lemma {:induction false} SextetCount(bytes: seq<Byte>)
    ensures |Sextets(bytes)| == 4 * (|bytes| / 3) + if |bytes| % 3 == 0 then 0 else |bytes| % 3 + 1
  {
    hide Sextet0, Sextet1, Sextet2, Sextet3;
    if |bytes| < 3 {
    } else {
      SextetCount(bytes[3..]);
      assert |bytes| / 3 == |bytes[3..]| / 3 + 1 && |bytes| % 3 == |bytes[3..]| % 3;
    }
  }

  function Symbols(alphabet: Alphabet, xs: seq<Sextet>): (t: Text)
    ensures |t| == |xs| && forall i :: 0 <= i < |xs| ==> t[i] == Symbol(alphabet, xs[i])
  {
    seq(|xs|, i requires 0 <= i < |xs| => Symbol(alphabet, xs[i]))
  }

  function Padding(count: nat): (t: Text)
    ensures |t| == count && forall i :: 0 <= i < count ==> t[i] == EQUALS
  {
    seq(count, _ => EQUALS)
  }

  function Encoding(alphabet: Alphabet, padded: bool, bytes: seq<Byte>): Text {
    Symbols(alphabet, Sextets(bytes)) + (if padded then Padding((3 - |bytes| % 3) % 3) else [])
  }

  /** Four sextets give three bytes back; two or three at the end give one or two, and one is too few. */
  function BytesOf(xs: seq<Sextet>): Option<seq<Byte>> {
    if xs == [] then Some([])
    else if |xs| == 1 then None
    else if |xs| == 2 then Some([Byte0(xs[0], xs[1])])
    else if |xs| == 3 then Some([Byte0(xs[0], xs[1]), Byte1(xs[1], xs[2])])
    else
      match BytesOf(xs[4..])
      case None => None
      case Some(rest) => Some([Byte0(xs[0], xs[1]), Byte1(xs[1], xs[2]), Byte2(xs[2], xs[3])] + rest)
  }

  function SextetsOf(alphabet: Alphabet, t: Text): Option<seq<Sextet>> {
    if t == [] then Some([])
    else
      match (SextetOf(alphabet, t[0]), SextetsOf(alphabet, t[1..]))
      case (Some(x), Some(rest)) => Some([x] + rest)
      case _ => None
  }

  /** The bits a decoder throws away at the end. */
  predicate NoStrayBits(xs: seq<Sextet>) {
    && (|xs| % 4 == 2 ==> xs[|xs| - 1] % 16 == 0)
    && (|xs| % 4 == 3 ==> xs[|xs| - 1] % 4 == 0)
  }

  /** The strict decoder of section 5: no padding, no foreign characters, no stray bits. */
  function Decoded(t: Text): Option<seq<Byte>> {
    match SextetsOf(UrlSafe, t)
    case None => None
    case Some(xs) => if NoStrayBits(xs) then BytesOf(xs) else None
  }

  lemma BytesOfStep(xs: seq<Sextet>)
    requires |xs| >= 4 && BytesOf(xs[4..]).Some?
    ensures BytesOf(xs) ==
              Some([Byte0(xs[0], xs[1]), Byte1(xs[1], xs[2]), Byte2(xs[2], xs[3])] + BytesOf(xs[4..]).value)
  {
    hide Byte0, Byte1, Byte2;
  }

  lemma NoNewStrayBits(xs: seq<Sextet>)
    requires |xs| >= 4 && NoStrayBits(xs[4..])
    ensures NoStrayBits(xs)
  {}

  lemma BytesOfGroup(a: Byte, b: Byte, c: Byte, rest: seq<Sextet>)
    requires BytesOf(rest).Some?
    ensures BytesOf(Group(a, b, c) + rest) == Some([a, b, c] + BytesOf(rest).value)
    ensures NoStrayBits(rest) ==> NoStrayBits(Group(a, b, c) + rest)
  {
    hide Sextet0, Sextet1, Sextet2, Sextet3, Byte0, Byte1, Byte2, BytesOf, NoStrayBits;
    BytesBack(a, b, c);
    var xs := Group(a, b, c) + rest;
    assert xs[4..] == rest;
    BytesOfStep(xs);
    if NoStrayBits(rest) {
      NoNewStrayBits(xs);
    }
  }

  lemma BytesOfShortGroup(a: Byte, b: Byte)
    ensures BytesOf(Sextets([a])) == Some([a]) && NoStrayBits(Sextets([a]))
    ensures BytesOf(Sextets([a, b])) == Some([a, b]) && NoStrayBits(Sextets([a, b]))
  {
    hide Sextet0, Sextet1, Sextet2, Sextet3, Byte0, Byte1, Byte2;
    BytesBack(a, 0, 0);
    BytesBack(a, b, 0);
    assert Sextets([a]) == [Sextet0(a), Sextet1(a, 0)];
    assert Sextets([a, b]) == [Sextet0(a), Sextet1(a, b), Sextet2(b, 0)];
  }

  lemma {:induction false} BytesOfSextets(bytes: seq<Byte>)
    ensures BytesOf(Sextets(bytes)) == Some(bytes) && NoStrayBits(Sextets(bytes))
  {
    hide BytesOf, NoStrayBits, Group;
    if |bytes| >= 3 {
      BytesOfSextets(bytes[3..]);
      BytesOfGroup(bytes[0], bytes[1], bytes[2], Sextets(bytes[3..]));
      assert bytes == [bytes[0], bytes[1], bytes[2]] + bytes[3..];
    } else if |bytes| == 2 {
      BytesOfShortGroup(bytes[0], bytes[1]);
      assert bytes == [bytes[0], bytes[1]];
    } else if |bytes| == 1 {
      BytesOfShortGroup(bytes[0], 0);
      assert bytes == [bytes[0]];
    } else {
      NoBytes();
    }
  }

  lemma NoBytes()
    ensures BytesOf(Sextets([])) == Some([]) && NoStrayBits(Sextets([]))
  {}

  lemma {:induction false} SextetsOfBytes(xs: seq<Sextet>, bytes: seq<Byte>)
    requires BytesOf(xs) == Some(bytes) && NoStrayBits(xs)
    ensures Sextets(bytes) == xs
  {
    hide Sextet0, Sextet1, Sextet2, Sextet3, Byte0, Byte1, Byte2;
    if |xs| == 2 {
      SextetsBack(xs[0], xs[1], 0, 0);
    } else if |xs| == 3 {
      SextetsBack(xs[0], xs[1], xs[2], 0);
    } else if |xs| >= 4 {
      SextetsBack(xs[0], xs[1], xs[2], xs[3]);
      SextetsOfBytes(xs[4..], BytesOf(xs[4..]).value);
      assert bytes[3..] == BytesOf(xs[4..]).value;
      assert xs == xs[..4] + xs[4..];
    }
  }

  lemma {:induction false} SextetsOfSymbols(alphabet: Alphabet, xs: seq<Sextet>)
    ensures SextetsOf(alphabet, Symbols(alphabet, xs)) == Some(xs)
  {
    if xs == [] {
    } else {
      SextetsOfSymbols(alphabet, xs[1..]);
      assert Symbols(alphabet, xs)[1..] == Symbols(alphabet, xs[1..]);
      assert SextetOf(alphabet, Symbols(alphabet, xs)[0]) == Some(xs[0]);
      assert xs == [xs[0]] + xs[1..];
    }
  }

  lemma {:induction false} SymbolsOfSextets(alphabet: Alphabet, t: Text, xs: seq<Sextet>)
    requires SextetsOf(alphabet, t) == Some(xs)
    ensures Symbols(alphabet, xs) == t
  {
    if t == [] {
    } else {
      SymbolsOfSextets(alphabet, t[1..], xs[1..]);
      assert t == [t[0]] + t[1..];
    }
  }

  /** Exactly one text decodes to given bytes: their own encoding. */
  lemma DecodedIffEncoded(t: Text, bytes: seq<Byte>)
    ensures Decoded(t) == Some(bytes) <==> t == Encoding(UrlSafe, false, bytes)
  {
    BytesOfSextets(bytes);
    SextetsOfSymbols(UrlSafe, Sextets(bytes));
    assert Encoding(UrlSafe, false, bytes) == Symbols(UrlSafe, Sextets(bytes));
    if Decoded(t) == Some(bytes) {
      SextetsOfBytes(SextetsOf(UrlSafe, t).value, bytes);
      SymbolsOfSextets(UrlSafe, t, Sextets(bytes));
    }
  }

  // --- The encoders ---------------------------------------------------------------------

  function Replaced(t: Text, from: Code, to: Code): (r: Text)
    ensures |r| == |t| && forall i :: 0 <= i < |t| ==> r[i] == if t[i] == from then to else t[i]
  {
    seq(|t|, i requires 0 <= i < |t| => if t[i] == from then to else t[i])
  }

  function WithoutPadding(t: Text): Text {
    if t != [] && t[|t| - 1] == EQUALS then WithoutPadding(t[..|t| - 1]) else t
  }

  /** What both encoders do to standard base64. */
  function MadeUrlSafe(t: Text): Text {
    WithoutPadding(Replaced(Replaced(t, 43, 45), 47, 95))
  }

  lemma {:induction false} PaddingGoes(t: Text, count: nat)
    requires t == [] || t[|t| - 1] != EQUALS
    ensures WithoutPadding(t + Padding(count)) == t
  {
    if count > 0 {
      assert (t + Padding(count))[..|t| + count - 1] == t + Padding(count - 1);
      PaddingGoes(t, count - 1);
    } else {
      assert t + Padding(0) == t;
    }
  }

  lemma UrlSafeFromStandard(bytes: seq<Byte>)
    ensures MadeUrlSafe(Encoding(Standard, true, bytes)) == Encoding(UrlSafe, false, bytes)
  {
    var pad := (3 - |bytes| % 3) % 3;
    var xs := Sextets(bytes);
    assert Replaced(Replaced(Encoding(Standard, true, bytes), 43, 45), 47, 95) == Symbols(UrlSafe, xs) + Padding(pad);
    PaddingGoes(Symbols(UrlSafe, xs), pad);
  }

  /** One lookup in the encoder's alphabet string. */
  function Lookup(x: Sextet): Code {
    Symbol(Standard, x)
  }

  function Tail(bytes: seq<Byte>, index: nat): seq<Byte> {
    if index <= |bytes| then bytes[index..] else []
  }

  /** The four characters the loop appends for the bytes it looks at. */
  function Quantum(first: Byte, second: Option<Byte>, third: Option<Byte>): Text {
    [Lookup(first / 4),
     Lookup(first % 4 * 16 + (if second.None? then 0 else second.value / 16)),
     if second.None? then EQUALS
     else Lookup(second.value % 16 * 4 + (if third.None? then 0 else third.value / 64)),
     if third.None? then EQUALS else Lookup(third.value % 64)]
  }

  function At(bytes: seq<Byte>, i: nat): Option<Byte> {
    if i < |bytes| then Some(bytes[i]) else None
  }

  lemma SymbolsSplit(alphabet: Alphabet, xs: seq<Sextet>, ys: seq<Sextet>)
    ensures Symbols(alphabet, xs + ys) == Symbols(alphabet, xs) + Symbols(alphabet, ys)
  {}

  lemma QuantumEncodes(rest: seq<Byte>)
    requires rest != []
    ensures Encoding(Standard, true, rest) == Quantum(rest[0], At(rest, 1), At(rest, 2))
            + Encoding(Standard, true, Tail(rest, 3))
  {
    if |rest| >= 3 {
      FullQuantum(rest[0], rest[1], rest[2], rest[3..]);
      assert rest == [rest[0], rest[1], rest[2]] + rest[3..];
    } else {
      ShortQuantum(rest[0], if |rest| == 2 then rest[1] else 0);
      assert |rest| == 1 ==> rest == [rest[0]];
      assert |rest| == 2 ==> rest == [rest[0], rest[1]];
    }
  }

  lemma ShortQuantum(a: Byte, b: Byte)
    ensures Encoding(Standard, true, [a]) == Quantum(a, None, None)
    ensures Encoding(Standard, true, [a, b]) == Quantum(a, Some(b), None)
    ensures Encoding(Standard, true, []) == []
  {
    assert Sextets([a]) == [Sextet0(a), Sextet1(a, 0)];
    assert Sextets([a, b]) == [Sextet0(a), Sextet1(a, b), Sextet2(b, 0)];
  }

  lemma GroupQuantum(a: Byte, b: Byte, c: Byte)
    ensures Symbols(Standard, Group(a, b, c)) == Quantum(a, Some(b), Some(c))
  {}

  lemma GroupFirst(a: Byte, b: Byte, c: Byte, rest: seq<Byte>)
    ensures Sextets([a, b, c] + rest) == Group(a, b, c) + Sextets(rest)
  {
    hide Group;
    assert ([a, b, c] + rest)[3..] == rest;
  }

  lemma FullQuantum(a: Byte, b: Byte, c: Byte, rest: seq<Byte>)
    ensures Encoding(Standard, true, [a, b, c] + rest) == Quantum(a, Some(b), Some(c)) + Encoding(Standard, true, rest)
  {
    hide Group, Quantum, Sextets, Symbols;
    GroupFirst(a, b, c, rest);
    SymbolsSplit(Standard, Group(a, b, c), Sextets(rest));
    GroupQuantum(a, b, c);
  }

  lemma FourAppended(t: Text, a: Code, b: Code, c: Code, d: Code, rest: Text)
    ensures t + [a] + [b] + [c] + [d] + rest == t + ([a, b, c, d] + rest)
  {}

  /** The loop of the web-crypto encoder: three bytes at a time, then the three replacements. */
  method BytesToBase64Url(bytes: seq<Byte>) returns (r: Text)
    ensures r == Encoding(UrlSafe, false, bytes)
  {
    hide Encoding, Symbol, MadeUrlSafe;
    var encoded: Text := [];
    var index := 0;
    while index < |bytes|
      invariant index >= 0
      invariant encoded + Encoding(Standard, true, Tail(bytes, index)) == Encoding(Standard, true, bytes)
    {
      var first, second, third := bytes[index], At(bytes, index + 1), At(bytes, index + 2);
      QuantumEncodes(Tail(bytes, index));
      assert Tail(Tail(bytes, index), 3) == Tail(bytes, index + 3);
      var c0 := Lookup(first / 4);
      var c1 := Lookup(first % 4 * 16 + (if second.None? then 0 else second.value / 16));
      var c2 := if second.None? then EQUALS
                else Lookup(second.value % 16 * 4 + (if third.None? then 0 else third.value / 64));
      var c3 := if third.None? then EQUALS else Lookup(third.value % 64);
      FourAppended(encoded, c0, c1, c2, c3, Encoding(Standard, true, Tail(bytes, index + 3)));
      encoded := encoded + [c0] + [c1] + [c2] + [c3];
      index := index + 3;
    }
    ShortQuantum(0, 0);
    assert Tail(bytes, index) == [] && encoded + [] == encoded;
    UrlSafeFromStandard(bytes);
    r := MadeUrlSafe(encoded);
  }
}
