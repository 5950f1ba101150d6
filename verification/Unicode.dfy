/** Text as the program holds it and as it stores it: UTF-16 code units (section 2 of RFC 2781) and
    UTF-8 bytes (section 3 of RFC 3629), the encoder that replaces lone surrogates, and the decoder
    that refuses anything ill-formed. */
module Unicode {
  import opened Options

  type Unit = n: int | 0 <= n < 0x10000
  type Byte = n: int | 0 <= n < 0x100
  type Scalar = n: int | 0 <= n < 0xD800 || 0xE000 <= n < 0x110000

  type Text = seq<Unit>
  type Bytes = seq<Byte>

  const REPLACEMENT: Scalar := 0xFFFD

  predicate High(u: Unit) { 0xD800 <= u < 0xDC00 }

  predicate Low(u: Unit) { 0xDC00 <= u < 0xE000 }

  predicate Continuation(b: Byte) { 0x80 <= b < 0xC0 }

  function Units(c: Scalar): (t: Text)
    ensures 1 <= |t| <= 2
  {
    if c < 0x10000 then [c] else [0xD800 + (c - 0x10000) / 0x400, 0xDC00 + (c - 0x10000) % 0x400]
  }

  function Octets(c: Scalar): (b: Bytes)
    ensures 1 <= |b| <= 4
  {
    if c < 0x80 then [c]
    else if c < 0x800 then [0xC0 + c / 0x40, 0x80 + c % 0x40]
    else if c < 0x10000 then [0xE0 + c / 0x1000, 0x80 + c / 0x40 % 0x40, 0x80 + c % 0x40]
    else [0xF0 + c / 0x40000, 0x80 + c / 0x1000 % 0x40, 0x80 + c / 0x40 % 0x40, 0x80 + c % 0x40]
  }

  function Utf16(cs: seq<Scalar>): Text {
    if cs == [] then [] else Units(cs[0]) + Utf16(cs[1..])
  }

  function Utf8(cs: seq<Scalar>): Bytes {
    if cs == [] then [] else Octets(cs[0]) + Utf8(cs[1..])
  }

  function Pair(high: Unit, low: Unit): Scalar
    requires High(high) && Low(low)
  {
    0x10000 + (high - 0xD800) * 0x400 + (low - 0xDC00)
  }

  predicate StartsPair(t: Text) {
    |t| >= 2 && High(t[0]) && Low(t[1])
  }

  /** The scalar at the front of a text; a surrogate without its pair reads as U+FFFD. */
  function Front(t: Text): Scalar
    requires t != []
  {
    if StartsPair(t) then Pair(t[0], t[1]) else if High(t[0]) || Low(t[0]) then REPLACEMENT else t[0]
  }

  function Width(t: Text): (n: nat)
    requires t != []
    ensures 1 <= n <= |t|
  {
    if StartsPair(t) then 2 else 1
  }

  function Scalars(t: Text): seq<Scalar>
    decreases |t|
  {
    if t == [] then [] else [Front(t)] + Scalars(t[Width(t)..])
  }

  /** `TextEncoder.encode`. */
  function Encode(t: Text): Bytes {
    Utf8(Scalars(t))
  }

  function Two(a: int, b: int): int { (a - 0xC0) * 0x40 + (b - 0x80) }

  function Three(a: int, b: int, c: int): int { (a - 0xE0) * 0x1000 + (b - 0x80) * 0x40 + (c - 0x80) }

  function Four(a: int, b: int, c: int, d: int): int {
    (a - 0xF0) * 0x40000 + (b - 0x80) * 0x1000 + (c - 0x80) * 0x40 + (d - 0x80)
  }

  /** The first code point of a byte string, unless it is truncated, overlong, a surrogate or too big. */
  function First(b: Bytes): (r: Option<(Scalar, nat)>)
    requires b != []
    ensures r.Some? ==> 1 <= r.value.1 <= |b|
  {
    if b[0] < 0x80 then Some((b[0], 1))
    else if 0xC0 <= b[0] < 0xE0 && |b| >= 2 && Continuation(b[1]) then
      var v := Two(b[0], b[1]);
      if v >= 0x80 then Some((v, 2)) else None
    else if 0xE0 <= b[0] < 0xF0 && |b| >= 3 && Continuation(b[1]) && Continuation(b[2]) then
      var v := Three(b[0], b[1], b[2]);
      if v >= 0x800 && !(0xD800 <= v < 0xE000) then Some((v, 3)) else None
    else if 0xF0 <= b[0] < 0xF8 && |b| >= 4 && Continuation(b[1]) && Continuation(b[2]) && Continuation(b[3]) then
      var v := Four(b[0], b[1], b[2], b[3]);
      if 0x10000 <= v < 0x110000 then Some((v, 4)) else None
    else None
  }

  lemma TwoIs(a: int, b: int)
    requires 0xC0 <= a < 0xE0 && 0x80 <= b < 0xC0
    ensures a == 0xC0 + Two(a, b) / 0x40 && b == 0x80 + Two(a, b) % 0x40 && 0 <= Two(a, b) < 0x800
  {
  }

  lemma ThreeIs(a: int, b: int, c: int)
    requires 0xE0 <= a < 0xF0 && 0x80 <= b < 0xC0 && 0x80 <= c < 0xC0
    ensures var v := Three(a, b, c);
            && a == 0xE0 + v / 0x1000 && b == 0x80 + v / 0x40 % 0x40 && c == 0x80 + v % 0x40
            && 0 <= v < 0x10000
  {
    var v, x, y, z := Three(a, b, c), a - 0xE0, b - 0x80, c - 0x80;
    assert v == (x * 0x40 + y) * 0x40 + z;
    assert v / 0x40 == x * 0x40 + y && v % 0x40 == z;
  }

  lemma FourIs(a: int, b: int, c: int, d: int)
    requires 0xF0 <= a < 0xF8 && 0x80 <= b < 0xC0 && 0x80 <= c < 0xC0 && 0x80 <= d < 0xC0
    ensures var v := Four(a, b, c, d);
            a == 0xF0 + v / 0x40000 && b == 0x80 + v / 0x1000 % 0x40 && c == 0x80 + v / 0x40 % 0x40
                && d == 0x80 + v % 0x40
  {
    var v, w, x, y, z := Four(a, b, c, d), a - 0xF0, b - 0x80, c - 0x80, d - 0x80;
    assert v == ((w * 0x40 + x) * 0x40 + y) * 0x40 + z;
    assert v / 0x40 == (w * 0x40 + x) * 0x40 + y && v % 0x40 == z;
    assert v / 0x1000 == w * 0x40 + x;
  }

  lemma FirstIs(b: Bytes)
    requires b != [] && First(b).Some?
    ensures b[..First(b).value.1] == Octets(First(b).value.0)
  {
    var r := First(b).value;
    if r.1 == 1 {
      assert b[..1] == [b[0]];
    } else if r.1 == 2 {
      TwoIs(b[0], b[1]);
      hide Two;
      assert b[..2] == [b[0], b[1]];
    } else if r.1 == 3 {
      ThreeIs(b[0], b[1], b[2]);
      hide Three;
      assert b[..3] == [b[0], b[1], b[2]];
    } else {
      FourIs(b[0], b[1], b[2], b[3]);
      hide Four;
      assert b[..4] == [b[0], b[1], b[2], b[3]];
    }
  }

  lemma TwoOf(c: int)
    requires 0x80 <= c < 0x800
    ensures Two(0xC0 + c / 0x40, 0x80 + c % 0x40) == c && 0xC0 <= 0xC0 + c / 0x40 < 0xE0
  {
  }

  lemma ThreeOf(c: int)
    requires 0x800 <= c < 0x10000
    ensures Three(0xE0 + c / 0x1000, 0x80 + c / 0x40 % 0x40, 0x80 + c % 0x40) == c && 0xE0 <= 0xE0 + c / 0x1000 < 0xF0
  {
    assert c / 0x40 == c / 0x1000 * 0x40 + c / 0x40 % 0x40;
  }

  lemma FourOf(c: int)
    requires 0x10000 <= c < 0x110000
    ensures Four(0xF0 + c / 0x40000, 0x80 + c / 0x1000 % 0x40, 0x80 + c / 0x40 % 0x40, 0x80 + c % 0x40) == c
    ensures 0xF0 <= 0xF0 + c / 0x40000 < 0xF8
  {
    assert c / 0x40 == c / 0x1000 * 0x40 + c / 0x40 % 0x40;
    assert c / 0x1000 == c / 0x40000 * 0x40 + c / 0x1000 % 0x40;
  }

  lemma FirstOf(c: Scalar, rest: Bytes)
    ensures Octets(c) + rest != [] && First(Octets(c) + rest) == Some((c, |Octets(c)|))
  {
    var o, b := Octets(c), Octets(c) + rest;
    assert forall i :: 0 <= i < |o| ==> b[i] == o[i];
    if 0x80 <= c < 0x800 { TwoOf(c); } else if 0x800 <= c < 0x10000 { ThreeOf(c); } else if c >= 0x10000 { FourOf(c); }
    hide Two, Three, Four;
  }

  function Decode(b: Bytes): Option<seq<Scalar>>
    decreases |b|
  {
    if b == [] then Some([]) else
    match First(b)
    case None => None
    case Some(r) =>
      match Decode(b[r.1..])
      case None => None
      case Some(cs) => Some([r.0] + cs)
  }

  /** `TextDecoder.decode` with `fatal` and `ignoreBOM`. */
  function DecodeText(b: Bytes): Option<Text> {
    match Decode(b) case None => None case Some(cs) => Some(Utf16(cs))
  }

  /** Every surrogate has its pair. */
  ghost predicate WellFormed(t: Text) {
    && (forall i :: 0 <= i < |t| && High(t[i]) ==> i + 1 < |t| && Low(t[i + 1]))
    && (forall i :: 0 <= i < |t| && Low(t[i]) ==> i > 0 && High(t[i - 1]))
  }

  // ── Round trips ────────────────────────────────────────────────────────────

  lemma {:induction false} DecodeUtf8(cs: seq<Scalar>)
    ensures Decode(Utf8(cs)) == Some(cs)
  {
    if cs != [] {
      var b := Utf8(cs);
      FirstOf(cs[0], Utf8(cs[1..]));
      hide First, Octets;
      assert b[|Octets(cs[0])|..] == Utf8(cs[1..]);
      DecodeUtf8(cs[1..]);
      assert [cs[0]] + cs[1..] == cs;
    }
  }

  lemma {:induction false} Utf8Decode(b: Bytes)
    requires Decode(b).Some?
    ensures Utf8(Decode(b).value) == b
    decreases |b|
  {
    if b != [] {
      FirstDecodes(b);
      FirstIs(b);
      DecodeStep(b);
      var c, n := First(b).value.0, First(b).value.1;
      hide First, Octets, Decode, Utf8;
      Utf8Decode(b[n..]);
      Utf8Parts(b, n, c, Decode(b[n..]).value);
    }
  }

  lemma Utf8Parts(b: Bytes, n: nat, c: Scalar, cs: seq<Scalar>)
    requires n <= |b| && Octets(c) == b[..n] && Utf8(cs) == b[n..]
    ensures Utf8([c] + cs) == b
  {
    hide Octets;
    assert ([c] + cs)[1..] == cs;
    Halves(b, n);
  }

  lemma Halves<T>(s: seq<T>, n: nat)
    requires n <= |s|
    ensures s == s[..n] + s[n..]
  {
  }

  lemma FirstDecodes(b: Bytes)
    requires b != [] && Decode(b).Some?
    ensures First(b).Some?
  {
    hide First;
  }

  lemma UnitsFront(c: Scalar, rest: Text)
    ensures Units(c) + rest != [] && Front(Units(c) + rest) == c && Width(Units(c) + rest) == |Units(c)|
  {
    var u, t := Units(c), Units(c) + rest;
    assert forall i :: 0 <= i < |u| ==> t[i] == u[i];
    if c >= 0x10000 { assert High(u[0]) && Low(u[1]) && Pair(u[0], u[1]) == c; }
  }

  lemma {:induction false} ScalarsUtf16(cs: seq<Scalar>)
    ensures Scalars(Utf16(cs)) == cs
  {
    if cs != [] {
      UnitsFront(cs[0], Utf16(cs[1..]));
      hide Front, Width, Units;
      assert (Units(cs[0]) + Utf16(cs[1..]))[|Units(cs[0])|..] == Utf16(cs[1..]);
      ScalarsUtf16(cs[1..]);
    }
  }

  lemma {:induction false} Utf16WellFormed(cs: seq<Scalar>)
    ensures WellFormed(Utf16(cs))
  {
    if cs != [] {
      Utf16WellFormed(cs[1..]);
      WellFormedConcat(Units(cs[0]), Utf16(cs[1..]));
    }
  }

  lemma WellFormedConcat(a: Text, b: Text)
    requires WellFormed(a) && WellFormed(b)
    ensures WellFormed(a + b)
  {
    var t := a + b;
    forall i | 0 <= i < |t| && High(t[i]) ensures i + 1 < |t| && Low(t[i + 1]) {
      if i < |a| {
        assert High(a[i]);
        assert t[i + 1] == a[i + 1];
      } else {
        assert High(b[i - |a|]);
        assert t[i + 1] == b[i - |a| + 1];
      }
    }
    forall i | 0 <= i < |t| && Low(t[i]) ensures i > 0 && High(t[i - 1]) {
      if i < |a| { assert Low(a[i]); } else { assert Low(b[i - |a|]); assert t[i - 1] == b[i - |a| - 1]; }
    }
  }

  lemma PairUnits(high: Unit, low: Unit)
    requires High(high) && Low(low)
    ensures Units(Pair(high, low)) == [high, low]
  {
    var v: int := Pair(high, low);
    var x: int, y: int := high as int - 0xD800, low as int - 0xDC00;
    assert v - 0x10000 == x * 0x400 + y;
  }

  lemma FrontUnits(t: Text)
    requires t != [] && WellFormed(t)
    ensures Units(Front(t)) == t[..Width(t)] && WellFormed(t[Width(t)..])
  {
    if High(t[0]) {
      assert Low(t[1]);
      assert t[..2] == [t[0], t[1]];
      PairUnits(t[0], t[1]);
    } else {
      assert !Low(t[0]);
      assert t[..1] == [t[0]];
    }
    CutWellFormed(t, Width(t));
  }

  lemma {:induction false} Utf16Scalars(t: Text)
    requires WellFormed(t)
    ensures Utf16(Scalars(t)) == t
    decreases |t|
  {
    if t != [] {
      FrontUnits(t);
      var n := Width(t);
      assert Scalars(t) == [Front(t)] + Scalars(t[n..]);
      hide Front, Width, Units, Scalars, Utf16, WellFormed;
      Utf16Scalars(t[n..]);
      Utf16Parts(t, n, Front(t), Scalars(t[n..]));
    }
  }

  lemma Utf16Parts(t: Text, n: nat, c: Scalar, cs: seq<Scalar>)
    requires n <= |t| && Units(c) == t[..n] && Utf16(cs) == t[n..]
    ensures Utf16([c] + cs) == t
  {
    hide Units;
    assert ([c] + cs)[1..] == cs;
    Halves(t, n);
  }

  /** Decoding a file and encoding the text again gives back its bytes, for every file that decodes. */
  lemma EncodeDecode(b: Bytes, t: Text)
    requires DecodeText(b) == Some(t)
    ensures Encode(t) == b && WellFormed(t)
  {
    var cs := Decode(b).value;
    ScalarsUtf16(cs);
    Utf8Decode(b);
    Utf16WellFormed(cs);
  }

  /** Encoding a text without lone surrogates and decoding it gives back the text. */
  lemma DecodeEncode(t: Text)
    requires WellFormed(t)
    ensures DecodeText(Encode(t)) == Some(t)
  {
    DecodeUtf8(Scalars(t));
    Utf16Scalars(t);
  }

  // ── Cutting ────────────────────────────────────────────────────────────────

  /** A cut that does not part a surrogate pair. */
  predicate Between(t: Text, i: nat)
    requires i <= |t|
  {
    i == 0 || i == |t| || !(High(t[i - 1]) && Low(t[i]))
  }

  lemma CutWellFormed(t: Text, i: nat)
    requires WellFormed(t) && i <= |t| && Between(t, i)
    ensures WellFormed(t[..i]) && WellFormed(t[i..])
  {
    forall j | 0 <= j < i && High(t[j]) ensures j + 1 < i && Low(t[..i][j + 1]) { assert Low(t[j + 1]); }
    forall j | i <= j < |t| && Low(t[j]) ensures j > i && High(t[i..][j - i - 1]) { assert High(t[j - 1]); }
    forall j | 0 <= j < |t| - i && High(t[i..][j]) ensures j + 1 < |t| - i && Low(t[i..][j + 1]) {
      assert High(t[i + j]);
    }
    forall j | 0 <= j < |t| - i && Low(t[i..][j]) ensures j > 0 && High(t[i..][j - 1]) { assert Low(t[i + j]); }
  }

  lemma FrontOfConcat(a: Text, b: Text)
    requires a != [] && Between(a + b, |a|)
    ensures Front(a + b) == Front(a) && Width(a + b) == Width(a)
    ensures (a + b)[Width(a)..] == a[Width(a)..] + b && Between(a[Width(a)..] + b, |a| - Width(a))
  {
    var t := a + b;
    assert t[0] == a[0];
    if |a| >= 2 { assert t[1] == a[1]; }
    else if b != [] { assert t[0] == t[|a| - 1] && t[1] == t[|a|]; }
    var rest := a[Width(a)..] + b;
    if |a| > Width(a) && b != [] { assert rest[|a| - Width(a) - 1] == t[|a| - 1] && rest[|a| - Width(a)] == t[|a|]; }
  }

  lemma {:induction false} ScalarsConcat(a: Text, b: Text)
    requires Between(a + b, |a|)
    ensures Scalars(a + b) == Scalars(a) + Scalars(b)
    decreases |a|
  {
    if a == [] {
      assert a + b == b;
    } else {
      FrontOfConcat(a, b);
      hide Front, Width, Between;
      ScalarsConcat(a[Width(a)..], b);
    }
  }

  lemma {:induction false} Utf8Concat(a: seq<Scalar>, b: seq<Scalar>)
    ensures Utf8(a + b) == Utf8(a) + Utf8(b)
  {
    if a == [] {
      assert a + b == b;
    } else {
      hide Octets;
      assert (a + b)[0] == a[0] && (a + b)[1..] == a[1..] + b;
      Utf8Concat(a[1..], b);
    }
  }

  /** Encoding works piece by piece, as long as no pair is cut. */
  lemma EncodeConcat(a: Text, b: Text)
    requires Between(a + b, |a|)
    ensures Encode(a + b) == Encode(a) + Encode(b)
  {
    ScalarsConcat(a, b);
    Utf8Concat(Scalars(a), Scalars(b));
  }

  /** A cut of a byte string before anything but a continuation byte. */
  predicate AtStart(b: Bytes, i: nat)
    requires i <= |b|
  {
    i == 0 || i == |b| || !Continuation(b[i])
  }

  lemma OctetsShape(c: Scalar)
    ensures !Continuation(Octets(c)[0]) && forall i :: 1 <= i < |Octets(c)| ==> Continuation(Octets(c)[i])
  {
  }

  /** Cut where a code point starts, a valid byte string falls into two valid ones. */
  lemma {:induction false} DecodeCut(b: Bytes, i: nat)
    requires Decode(b).Some? && i <= |b| && AtStart(b, i)
    ensures Decode(b[..i]).Some? && Decode(b[i..]).Some?
            && Decode(b).value == Decode(b[..i]).value + Decode(b[i..]).value
    decreases |b|
  {
    if i == 0 {
      assert b[..0] == [] && b[0..] == b;
    } else {
      FirstDecodes(b);
      FirstWithin(b, i);
      DecodeStep(b);
      DecodeStep(b[..i]);
      var c, n := First(b).value.0, First(b).value.1;
      CutRest(b, i, n);
      hide First, Decode, AtStart, Octets, Continuation;
      DecodeCut(b[n..], i - n);
      Prefixed(c, Decode(b[..i][n..]).value, Decode(b[i..]).value);
    }
  }

  lemma Prefixed(c: Scalar, x: seq<Scalar>, y: seq<Scalar>)
    ensures [c] + (x + y) == ([c] + x) + y
  {
  }

  lemma CutRest(b: Bytes, i: nat, n: nat)
    requires n <= i <= |b| && AtStart(b, i)
    ensures AtStart(b[n..], i - n) && b[n..][i - n..] == b[i..] && b[n..][..i - n] == b[..i][n..]
  {
  }

  /** Decoding takes the first code point off. */
  lemma DecodeStep(b: Bytes)
    requires b != [] && First(b).Some?
    ensures var r, rest := First(b).value, Decode(b[First(b).value.1..]);
            (Decode(b).Some? <==> rest.Some?) && (rest.Some? ==> Decode(b).value == [r.0] + rest.value)
  {
    hide First;
  }

  /** The first code point ends before any later start. */
  lemma FirstWithin(b: Bytes, i: nat)
    requires b != [] && First(b).Some? && 0 < i <= |b| && AtStart(b, i)
    ensures First(b).value.1 <= i && First(b[..i]) == First(b)
  {
    var c, n := First(b).value.0, First(b).value.1;
    FirstIs(b);
    OctetsShape(c);
    assert b[..i] == b[..n] + b[n..i];
    FirstOf(c, b[n..i]);
    FirstOf(c, b[n..]);
    assert b == b[..n] + b[n..];
    hide First, Octets;
  }
}
