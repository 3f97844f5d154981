/**
 * UTF-8 as the YAML code handles it: byte tests, the decoding in the writer and
 * the encoding in the scanner, against the code points they stand for.
 */
module Utf8 {
  type Byte = x: int | 0 <= x < 256

  /** A Unicode scalar value. */
  type Rune = x: int | (0 <= x < 0xD800) || (0xE000 <= x <= 0x10FFFF)

  /** The UTF-8 form of a code point (section 3 of RFC 3629). */
  function Encode(c: Rune): (b: seq<Byte>)
    ensures 1 <= |b| <= 4
  {
    if c <= 0x7F then [c]
    else if c <= 0x7FF then [0xC0 + c / 0x40, 0x80 + c % 0x40]
    else if c <= 0xFFFF then [0xE0 + c / 0x1000, 0x80 + (c / 0x40) % 0x40, 0x80 + c % 0x40]
    else [0xF0 + c / 0x40000, 0x80 + (c / 0x1000) % 0x40, 0x80 + (c / 0x40) % 0x40, 0x80 + c % 0x40]
  }

  function EncodeAll(cs: seq<Rune>): seq<Byte> {
    if cs == [] then [] else EncodeAll(cs[..|cs| - 1]) + Encode(cs[|cs| - 1])
  }

  lemma EncodeMore(cs: seq<Rune>, c: Rune)
    ensures EncodeAll(cs + [c]) == EncodeAll(cs) + Encode(c)
  {
    hide Encode;
    assert (cs + [c])[..|cs|] == cs;
  }

  lemma {:induction false} EncodeConcat(a: seq<Rune>, b: seq<Rune>)
    ensures EncodeAll(a + b) == EncodeAll(a) + EncodeAll(b)
    decreases |b|
  {
    hide Encode, EncodeAll;
    if b == [] {
      assert a + b == a;
      EncodeNone();
    } else {
      var n := |b| - 1;
      var front, last := b[..n], b[n];
      assert b == front + [last];
      EncodeConcat(a, front);
      EncodeMore(front, last);
      EncodeMore(a + front, last);
      assert a + b == (a + front) + [last];
      Associates(EncodeAll(a), EncodeAll(front), Encode(last));
    }
  }

  lemma EncodeNone()
    ensures EncodeAll([]) == []
  {
  }

  lemma Associates(x: seq<Byte>, y: seq<Byte>, z: seq<Byte>)
    ensures (x + y) + z == x + (y + z)
  {
  }

  lemma EncodeOne(c: Rune)
    ensures EncodeAll([c]) == Encode(c)
  {
    hide Encode;
    assert [c][..0] == [];
  }

  /** Where a character starts in the bytes. */
  function Offset(v: seq<Rune>, i: nat): nat
    requires i <= |v|
  {
    |EncodeAll(v[..i])|
  }

  lemma OffsetRest(v: seq<Rune>, i: nat)
    requires i <= |v|
    ensures Offset(v, i) <= |EncodeAll(v)| && EncodeAll(v)[Offset(v, i)..] == EncodeAll(v[i..])
  {
    hide EncodeAll;
    assert v == v[..i] + v[i..];
    EncodeConcat(v[..i], v[i..]);
  }

  /** A character stands in the bytes from its place to the next. */
  lemma OffsetNext(v: seq<Rune>, i: nat)
    requires i < |v|
    ensures Offset(v, i + 1) == Offset(v, i) + |Encode(v[i])| <= |EncodeAll(v)|
    ensures EncodeAll(v)[Offset(v, i)..] == Encode(v[i]) + EncodeAll(v[i + 1..])
    ensures EncodeAll(v)[Offset(v, i)..Offset(v, i + 1)] == Encode(v[i])
  {
    hide EncodeAll, Encode, Offset;
    OffsetStep(v, i);
    OffsetRest(v, i);
    OffsetRest(v, i + 1);
    FirstEncoded(v[i..]);
    assert v[i..][1..] == v[i + 1..];
    Prefix(EncodeAll(v), Offset(v, i), Encode(v[i]), EncodeAll(v[i + 1..]));
  }

  lemma OffsetStep(v: seq<Rune>, i: nat)
    requires i < |v|
    ensures Offset(v, i + 1) == Offset(v, i) + |Encode(v[i])|
  {
    hide EncodeAll, Encode;
    assert v[..i + 1] == v[..i] + [v[i]];
    EncodeMore(v[..i], v[i]);
  }

  lemma FirstEncoded(v: seq<Rune>)
    requires v != []
    ensures EncodeAll(v) == Encode(v[0]) + EncodeAll(v[1..])
  {
    hide EncodeAll, Encode;
    assert v == [v[0]] + v[1..];
    EncodeConcat([v[0]], v[1..]);
    EncodeOne(v[0]);
  }

  lemma Prefix(b: seq<Byte>, o: nat, x: seq<Byte>, y: seq<Byte>)
    requires o <= |b| && b[o..] == x + y
    ensures o + |x| <= |b| && b[o..o + |x|] == x
  {
    assert b[o..][..|x|] == b[o..o + |x|];
  }

  lemma OffsetEnds(v: seq<Rune>)
    ensures Offset(v, 0) == 0 && Offset(v, |v|) == |EncodeAll(v)|
  {
    assert v[..0] == [] && v[..|v|] == v;
  }

  lemma {:induction false} OffsetGrows(v: seq<Rune>, i: nat, j: nat)
    requires i <= j <= |v|
    ensures Offset(v, i) + (j - i) <= Offset(v, j)
    decreases j
  {
    hide EncodeAll, Encode, Offset;
    if i < j {
      OffsetGrows(v, i, j - 1);
      OffsetNext(v, j - 1);
    }
  }

  /** Number of bytes announced by a first byte; zero for a byte that starts nothing. */
  function Width(b: Byte): nat {
    if b < 0x80 then 1
    else if 0xC0 <= b < 0xE0 then 2
    else if 0xE0 <= b < 0xF0 then 3
    else if 0xF0 <= b < 0xF8 then 4
    else 0
  }

  /** The writer's decoding: payload bits of the first byte, then six bits per further byte. */
  function Decode(b: seq<Byte>): int
    requires b != [] && |b| == Width(b[0])
  {
    var head := if |b| == 1 then b[0] % 0x80 else if |b| == 2 then b[0] % 0x20 else if |b| == 3 then b[0] % 0x10 else b[0] % 8;
    DecodeRest(head, b[1..])
  }

  function DecodeRest(v: int, b: seq<Byte>): int
    decreases |b|
  {
    if b == [] then v else DecodeRest(v * 0x40 + b[0] % 0x40, b[1..])
  }

  lemma DecodeUndoesEncode(c: Rune)
    ensures Width(Encode(c)[0]) == |Encode(c)|
    ensures Decode(Encode(c)) == c
  {
    hide DecodeRest;
    var b := Encode(c);
    if c <= 0x7F {
      assert b[1..] == [];
      RestNone(c);
    } else if c <= 0x7FF {
      assert b[1..] == [b[1]];
      RestOne(b[0] % 0x20, b[1]);
    } else if c <= 0xFFFF {
      DecodeThree(c);
    } else {
      DecodeFour(c);
    }
  }

  lemma DecodeThree(c: Rune)
    requires 0x800 <= c <= 0xFFFF
    ensures Width(Encode(c)[0]) == |Encode(c)| && Decode(Encode(c)) == c
  {
    hide DecodeRest;
    var h: int, m: int, l: int := c / 0x1000, (c / 0x40) % 0x40, c % 0x40;
    ThreeBytes(c);
    assert Encode(c) == [0xE0 + h, 0x80 + m, 0x80 + l];
    assert Encode(c)[1..] == [0x80 + m, 0x80 + l];
    RestTwo(h, 0x80 + m, 0x80 + l);
    assert (0xE0 + h) % 0x10 == h && (0x80 + m) % 0x40 == m && (0x80 + l) % 0x40 == l;
  }

  lemma DecodeFour(c: Rune)
    requires 0x10000 <= c
    ensures Width(Encode(c)[0]) == |Encode(c)| && Decode(Encode(c)) == c
  {
    hide DecodeRest;
    var h: int, k: int, m: int, l: int := c / 0x40000, (c / 0x1000) % 0x40, (c / 0x40) % 0x40, c % 0x40;
    FourBytes(c);
    assert Encode(c) == [0xF0 + h, 0x80 + k, 0x80 + m, 0x80 + l];
    assert Encode(c)[1..] == [0x80 + k, 0x80 + m, 0x80 + l];
    RestThree(h, 0x80 + k, 0x80 + m, 0x80 + l);
    assert (0xF0 + h) % 8 == h && (0x80 + k) % 0x40 == k && (0x80 + m) % 0x40 == m && (0x80 + l) % 0x40 == l;
  }

  lemma RestNone(v: int)
    ensures DecodeRest(v, []) == v
  {
  }

  lemma RestOne(v: int, x: Byte)
    ensures DecodeRest(v, [x]) == v * 0x40 + x % 0x40
  {
    assert [x][1..] == [];
  }

  lemma RestTwo(v: int, x: Byte, y: Byte)
    ensures DecodeRest(v, [x, y]) == (v * 0x40 + x % 0x40) * 0x40 + y % 0x40
  {
    assert [x, y][1..] == [y];
    RestOne(v * 0x40 + x % 0x40, y);
  }

  lemma RestThree(v: int, x: Byte, y: Byte, z: Byte)
    ensures DecodeRest(v, [x, y, z]) == ((v * 0x40 + x % 0x40) * 0x40 + y % 0x40) * 0x40 + z % 0x40
  {
    assert [x, y, z][1..] == [y, z];
    RestTwo(v * 0x40 + x % 0x40, y, z);
  }

  lemma FourBytes(c: Rune)
    requires 0x10000 <= c
    ensures c == (c / 0x40000) * 0x40000 + ((c / 0x1000) % 0x40) * 0x1000 + ((c / 0x40) % 0x40) * 0x40 + c % 0x40
  {
    assert c == (c / 0x40) * 0x40 + c % 0x40;
    assert (c / 0x40) / 0x40 == c / 0x1000 && (c / 0x1000) / 0x40 == c / 0x40000;
  }

  // -------------------------------------------------------------- character classes

  /** A byte, or zero past the end, as in the scanner's padded buffer. */
  function At(b: seq<Byte>, i: nat): Byte { if i < |b| then b[i] else 0 }

  predicate PrintableBytes(b: seq<Byte>) {
    var b0, b1, b2 := At(b, 0), At(b, 1), At(b, 2);
    || b0 == 0x0A || 0x20 <= b0 <= 0x7E || (b0 == 0xC2 && b1 >= 0xA0) || 0xC2 < b0 < 0xED
    || (b0 == 0xED && b1 < 0xA0) || b0 == 0xEE
    || (b0 == 0xEF && !(b1 == 0xBB && b2 == 0xBF) && !(b1 == 0xBF && (b2 == 0xBE || b2 == 0xBF)))
  }

  predicate BreakBytes(b: seq<Byte>) {
    var b0, b1, b2 := At(b, 0), At(b, 1), At(b, 2);
    b0 == 0x0D || b0 == 0x0A || (b0 == 0xC2 && b1 == 0x85) || (b0 == 0xE2 && b1 == 0x80 && (b2 == 0xA8 || b2 == 0xA9))
  }

  predicate BomBytes(b: seq<Byte>) { At(b, 0) == 0xEF && At(b, 1) == 0xBB && At(b, 2) == 0xBF }

  /** Characters that may stand unescaped (section 5.1 of YAML 1.1), without the byte order mark. */
  predicate Printable(c: Rune) {
    c == 0x0A || 0x20 <= c <= 0x7E || 0xA0 <= c <= 0xD7FF || (0xE000 <= c <= 0xFFFD && c != 0xFEFF)
  }

  /** Line breaks (section 5.4 of YAML 1.1). */
  predicate Break(c: Rune) { c == 0x0D || c == 0x0A || c == 0x85 || c == 0x2028 || c == 0x2029 }

  predicate Blank(c: Rune) { c == 0x20 || c == 0x09 }

  predicate BlankZ(c: Rune) { Blank(c) || Break(c) || c == 0 }

  /** The byte tests decide the classes of code points. */
  lemma ByteTests(c: Rune, rest: seq<Byte>)
    ensures PrintableBytes(Encode(c) + rest) <==> Printable(c)
    ensures BreakBytes(Encode(c) + rest) <==> Break(c)
    ensures BomBytes(Encode(c) + rest) <==> c == 0xFEFF
    ensures At(Encode(c) + rest, 0) <= 0x7F <==> c <= 0x7F
    ensures c <= 0x7F ==> At(Encode(c) + rest, 0) == c
  {
    var b := Encode(c) + rest;
    if c <= 0x7F {
      assert At(b, 0) == c;
    } else if c <= 0x7FF {
      assert At(b, 0) == 0xC0 + c / 0x40 && At(b, 1) == 0x80 + c % 0x40;
    } else if c <= 0xFFFF {
      assert At(b, 0) == 0xE0 + c / 0x1000 && At(b, 1) == 0x80 + (c / 0x40) % 0x40 && At(b, 2) == 0x80 + c % 0x40;
      ThreeBytes(c);
    } else {
      assert At(b, 0) == 0xF0 + c / 0x40000;
    }
  }

  lemma ThreeBytes(c: Rune)
    requires 0x800 <= c <= 0xFFFF
    ensures c == (c / 0x1000) * 0x1000 + ((c / 0x40) % 0x40) * 0x40 + c % 0x40
  {
    assert c == (c / 0x40) * 0x40 + c % 0x40;
    assert c / 0x40 == ((c / 0x40) / 0x40) * 0x40 + (c / 0x40) % 0x40;
    assert (c / 0x40) / 0x40 == c / 0x1000;
  }

  /** The character at a place, or zero past the end. */
  function CharAt(v: seq<Rune>, i: nat): Rune { if i < |v| then v[i] else 0 }

  /** What the bytes at a place tell about the character there. */
  lemma ByteAt(v: seq<Rune>, i: nat)
    requires i <= |v|
    ensures var b, o, c := EncodeAll(v), Offset(v, i), CharAt(v, i);
      && o <= |b| && (c <= 0x7F ==> At(b, o) == c) && (c > 0x7F ==> At(b, o) > 0x7F)
      && (BreakBytes(b[o..]) <==> Break(c)) && (i < |v| ==> o < |b| && (PrintableBytes(b[o..]) <==> Printable(c)))
      && (i < |v| ==> Width(b[o]) == |Encode(c)| && (BomBytes(b[o..]) <==> c == 0xFEFF))
  {
    hide EncodeAll, Encode, Offset;
    var b, o := EncodeAll(v), Offset(v, i);
    OffsetRest(v, i);
    if i < |v| {
      OffsetNext(v, i);
      ByteTests(v[i], EncodeAll(v[i + 1..]));
      DecodeUndoesEncode(v[i]);
      assert At(b[o..], 0) == At(b, o) && b[o..][0] == b[o] == Encode(v[i])[0];
    } else {
      OffsetEnds(v);
      assert b[o..] == [];
    }
  }

  /** After a character of one byte comes the next. */
  lemma AsciiNext(v: seq<Rune>, i: nat)
    requires i < |v| && v[i] <= 0x7F
    ensures Offset(v, i + 1) == Offset(v, i) + 1 <= |EncodeAll(v)|
  {
    OffsetNext(v, i);
  }
}
