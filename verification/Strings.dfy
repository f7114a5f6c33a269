/** JavaScript strings as UTF-16 code units: character classes, newlines, and TextEncoder's UTF-8
    (RFC 3629, section 3). */
module Strings {
  type Byte = b: int | 0 <= b < 0x100

  type CodeUnit = u: int | 0 <= u < 0x1_0000

  type Text = seq<CodeUnit>

  /** A Unicode scalar value. */
  type Scalar = c: int | 0 <= c < 0x11_0000 && !(0xD800 <= c < 0xE000)

  const REPLACEMENT: Scalar := 0xFFFD

  predicate IsHigh(u: int) { 0xD800 <= u < 0xDC00 }

  predicate IsLow(u: int) { 0xDC00 <= u < 0xE000 }

  predicate IsPair(s: Text) { |s| >= 2 && IsHigh(s[0]) && IsLow(s[1]) }

  function FromPair(high: CodeUnit, low: CodeUnit): Scalar
    requires IsHigh(high) && IsLow(low)
  {
    0x1_0000 + (high - 0xD800) * 0x400 + (low - 0xDC00)
  }

  /** The scalar values of a text; a surrogate outside a pair becomes the replacement character. */
  function Scalars(s: Text): seq<Scalar> {
    if s == [] then []
    else if IsPair(s) then [FromPair(s[0], s[1])] + Scalars(s[2..])
    else if IsHigh(s[0]) || IsLow(s[0]) then [REPLACEMENT] + Scalars(s[1..])
    else [s[0]] + Scalars(s[1..])
  }

  function Utf8Of(c: Scalar): seq<Byte> {
    if c < 0x80 then [c]
    else if c < 0x800 then [0xC0 + c / 0x40, 0x80 + c % 0x40]
    else if c < 0x1_0000 then [0xE0 + c / 0x1000, 0x80 + c / 0x40 % 0x40, 0x80 + c % 0x40]
    else [0xF0 + c / 0x4_0000, 0x80 + c / 0x1000 % 0x40, 0x80 + c / 0x40 % 0x40, 0x80 + c % 0x40]
  }

  function EncodeScalars(cs: seq<Scalar>): seq<Byte> {
    if cs == [] then [] else Utf8Of(cs[0]) + EncodeScalars(cs[1..])
  }

  function Encode(s: Text): seq<Byte> { EncodeScalars(Scalars(s)) }

  // ---- UTF-8 is uniquely decodable ----

  /** The first byte tells how long the encoding of a scalar value is. */
  lemma LeadByte(c: Scalar)
    ensures 1 <= |Utf8Of(c)| <= 4
    ensures var lead := Utf8Of(c)[0];
            |Utf8Of(c)| == (if lead < 0x80 then 1 else if lead < 0xE0 then 2 else if lead < 0xF0 then 3 else 4)
  {
  }

  lemma Utf8OfInjective(a: Scalar, b: Scalar)
    requires Utf8Of(a) == Utf8Of(b)
    ensures a == b
  {
    var x, y := Utf8Of(a), Utf8Of(b);
    LeadByte(a);
    LeadByte(b);
    assert forall i :: 0 <= i < |x| ==> x[i] == y[i];
    Rebuilds(a);
    Rebuilds(b);
  }

  /** The payload bits of an encoded scalar value. */
  function Payload(e: seq<int>): int
    requires 1 <= |e| <= 4
  {
    if |e| == 1 then e[0]
    else if |e| == 2 then (e[0] - 0xC0) * 0x40 + (e[1] - 0x80)
    else if |e| == 3 then (e[0] - 0xE0) * 0x1000 + (e[1] - 0x80) * 0x40 + (e[2] - 0x80)
    else (e[0] - 0xF0) * 0x4_0000 + (e[1] - 0x80) * 0x1000 + (e[2] - 0x80) * 0x40 + (e[3] - 0x80)
  }

  /** A scalar value is determined by its bytes. */
  lemma Rebuilds(c: Scalar)
    ensures 1 <= |Utf8Of(c)| <= 4 && Payload(Utf8Of(c)) == c
  {
    assert c / 0x40 / 0x40 == c / 0x1000;
    assert c / 0x1000 / 0x40 == c / 0x4_0000;
  }

  lemma {:induction false} EncodeScalarsInjective(a: seq<Scalar>, b: seq<Scalar>)
    requires EncodeScalars(a) == EncodeScalars(b)
    ensures a == b
  {
    if a != [] && b != [] {
      var x, y := Utf8Of(a[0]), Utf8Of(b[0]);
      LeadByte(a[0]);
      LeadByte(b[0]);
      assert EncodeScalars(a)[0] == x[0] && EncodeScalars(b)[0] == y[0];
      assert |x| == |y|;
      assert x == EncodeScalars(a)[..|x|] == EncodeScalars(b)[..|x|] == y;
      Utf8OfInjective(a[0], b[0]);
      assert EncodeScalars(a[1..]) == EncodeScalars(a)[|x|..] == EncodeScalars(b)[|x|..] == EncodeScalars(b[1..]);
      EncodeScalarsInjective(a[1..], b[1..]);
      assert a == [a[0]] + a[1..] && b == [b[0]] + b[1..];
    } else if a != [] {
      LeadByte(a[0]);
    } else if b != [] {
      LeadByte(b[0]);
    }
  }

  // ---- What encoding forgets: lone surrogates ----

  /** Every surrogate is part of a pair. */
  predicate WellFormed(s: Text) {
    if s == [] then true
    else if IsPair(s) then WellFormed(s[2..])
    else !IsHigh(s[0]) && !IsLow(s[0]) && WellFormed(s[1..])
  }

  function UnitsOf(c: int): Text
    requires 0 <= c < 0x11_0000
  {
    if c < 0x1_0000 then [c] else [0xD800 + (c - 0x1_0000) / 0x400, 0xDC00 + (c - 0x1_0000) % 0x400]
  }

  function FromScalars(cs: seq<Scalar>): Text {
    if cs == [] then [] else UnitsOf(cs[0]) + FromScalars(cs[1..])
  }

  lemma {:induction false} FromScalarsInverts(s: Text)
    requires WellFormed(s)
    ensures FromScalars(Scalars(s)) == s
  {
    if s != [] {
      if IsPair(s) {
        FromScalarsInverts(s[2..]);
        assert Scalars(s)[1..] == Scalars(s[2..]);
        assert s == [s[0], s[1]] + s[2..];
      } else {
        FromScalarsInverts(s[1..]);
        assert Scalars(s)[1..] == Scalars(s[1..]);
        assert s == [s[0]] + s[1..];
      }
    }
  }

  /** Well-formed texts have different encodings. */
  lemma EncodeInjective(a: Text, b: Text)
    requires WellFormed(a) && WellFormed(b) && Encode(a) == Encode(b)
    ensures a == b
  {
    EncodeScalarsInjective(Scalars(a), Scalars(b));
    FromScalarsInverts(a);
    FromScalarsInverts(b);
  }

  predicate IsAscii(s: Text) { forall i :: 0 <= i < |s| ==> s[i] < 0x80 }

  /** ASCII text is its own encoding. */
  lemma {:induction false} EncodeAscii(s: Text)
    requires IsAscii(s)
    ensures WellFormed(s) && Encode(s) == s
  {
    if s != [] {
      EncodeAscii(s[1..]);
      assert Scalars(s)[1..] == Scalars(s[1..]);
      assert s == [s[0]] + s[1..];
    }
  }

  // ---- Splitting at an ASCII separator ----

  lemma {:induction false} EncodeScalarsAppend(a: seq<Scalar>, b: seq<Scalar>)
    ensures EncodeScalars(a + b) == EncodeScalars(a) + EncodeScalars(b)
  {
    if a == [] {
      assert a + b == b;
    } else {
      assert (a + b)[1..] == a[1..] + b;
      EncodeScalarsAppend(a[1..], b);
    }
  }

  /** A text splits before any unit that is not the second half of a pair. */
  lemma {:induction false} ScalarsAppend(a: Text, b: Text)
    requires b == [] || !IsLow(b[0])
    ensures Scalars(a + b) == Scalars(a) + Scalars(b)
  {
    if a == [] {
      assert a + b == b;
    } else if IsPair(a) {
      assert (a + b)[2..] == a[2..] + b;
      ScalarsAppend(a[2..], b);
    } else {
      assert (a + b)[1..] == a[1..] + b;
      assert |a| == 1 && b != [] ==> (a + b)[1] == b[0];
      ScalarsAppend(a[1..], b);
    }
  }

  lemma EncodeAtSeparator(a: Text, separator: CodeUnit, b: Text)
    requires separator < 0x80
    ensures Encode(a + [separator] + b) == Encode(a) + [separator] + Encode(b)
  {
    assert a + [separator] + b == a + ([separator] + b);
    ScalarsAppend(a, [separator] + b);
    assert ([separator] + b)[1..] == b;
    assert Scalars([separator] + b) == [separator as Scalar] + Scalars(b);
    EncodeScalarsAppend(Scalars(a), Scalars([separator] + b));
    EncodeScalarsAppend([separator], Scalars(b));
    assert EncodeScalars([separator]) == [separator as Byte] + EncodeScalars([]);
  }

  /** The encoding contains an ASCII byte exactly where the text contains that character. */
  lemma {:induction false} EncodeKeepsOut(s: Text, separator: CodeUnit)
    requires separator < 0x80 && separator !in s
    ensures separator !in Encode(s)
  {
    if s != [] {
      var rest := if IsPair(s) then s[2..] else s[1..];
      EncodeKeepsOut(rest, separator);
      assert Scalars(s)[1..] == Scalars(rest);
      assert separator !in Utf8Of(Scalars(s)[0]);
    }
  }

  // ---- ASCII literals, character classes and prefixes ----

  function UnitOf(c: char): CodeUnit { if c < 128 as char then c as int else 0x3F }

  /** An ASCII literal. */
  function Ascii(s: string): (t: Text)
    ensures |t| == |s| && IsAscii(t)
  {
    seq(|s|, i requires 0 <= i < |s| => UnitOf(s[i]))
  }

  predicate IsDigit(u: int) { 0x30 <= u <= 0x39 }

  predicate IsLower(u: int) { 0x61 <= u <= 0x7A }

  predicate IsUpper(u: int) { 0x41 <= u <= 0x5A }

  /** White space and line terminators, as `trim` removes them. */
  predicate IsSpace(u: int) {
    || 0x09 <= u <= 0x0D || u == 0x20 || u == 0xA0 || u == 0x1680 || 0x2000 <= u <= 0x200A
    || u == 0x2028 || u == 0x2029 || u == 0x202F || u == 0x205F || u == 0x3000 || u == 0xFEFF
  }

  predicate StartsWith(s: Text, prefix: Text) { |prefix| <= |s| && s[..|prefix|] == prefix }

  // ---- Newlines ----

  const NEWLINE: CodeUnit := 0x0A

  /** The position of the first newline, or the length. */
  function NewlineAt(t: Text): (n: nat)
    ensures n <= |t| && NEWLINE !in t[..n] && (n < |t| ==> t[n] == NEWLINE)
  {
    if t == [] || t[0] == NEWLINE then 0 else 1 + NewlineAt(t[1..])
  }

  lemma NewlineUnique(t: Text, n: nat)
    requires n < |t| && t[n] == NEWLINE && NEWLINE !in t[..n]
    ensures NewlineAt(t) == n
  {
    var m := NewlineAt(t);
    assert forall i :: 0 <= i < m ==> t[i] == t[..m][i];
    assert forall i :: 0 <= i < n ==> t[i] == t[..n][i];
  }
}
