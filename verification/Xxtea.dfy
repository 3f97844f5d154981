/**
 * XXTEA block encryption over 32-bit words, with the byte packing around it.
 * Words are integers below 2^32; additions, products and length conversions are
 * reduced modulo 2^32 exactly where the source's uint32 arithmetic wraps.
 */
module Xxtea {
  const WRAP: int := 0x1_0000_0000
  const DELTA: int := 0x9E3779B9

  type Word = x: int | 0 <= x < 0x1_0000_0000
  type Byte = x: int | 0 <= x < 256

  /** Reduction to uint32. */
  function U32(n: int): (r: Word)
    ensures 0 <= n < WRAP ==> r == n
  {
    n % WRAP
  }

  // -------------------------------------------------------------- one word step

  function Xor(a: Word, b: Word): Word {
    ((a as bv32) ^ (b as bv32)) as int
  }

  /** Shifts of a uint32 by a constant number of places; pow is the power of two. */
  function Shr(a: Word, pow: nat): Word
    requires pow > 0
  {
    a / pow
  }

  function Shl(a: Word, pow: nat): Word { U32(a * pow) }

  function Key(k: seq<Word>, p: nat, e: Word): Word
    requires |k| >= 4
  {
    var i := Xor(p % 4, e);
    if i == 0 then k[0] else if i == 1 then k[1] else if i == 2 then k[2] else k[3]
  }

  function Mx(sum: Word, y: Word, z: Word, p: nat, e: Word, k: seq<Word>): Word
    requires |k| >= 4
  {
    Xor(U32(Xor(Shr(z, 32), Shl(y, 4)) + Xor(Shr(y, 8), Shl(z, 16))),
        U32(Xor(sum, y) + Xor(Key(k, p, e), z)))
  }

  function E(sum: Word): Word { Shr(sum, 4) % 4 }

  function Fixk(k: seq<Word>): (r: seq<Word>)
    ensures |r| >= 4 && |r| >= |k|
    ensures forall i :: 0 <= i < |k| ==> r[i] == k[i]
  {
    if |k| < 4 then k + seq(4 - |k|, _ => 0) else k
  }

  /** The mask of place p: it depends on the two neighbours of p in the ring, not on p itself. */
  function Mask(v: seq<Word>, p: nat, sum: Word, k: seq<Word>): Word
    requires p < |v| && |k| >= 4
  {
    var y := v[if p + 1 == |v| then 0 else p + 1];
    var z := v[if p == 0 then |v| - 1 else p - 1];
    Mx(sum, y, z, p, E(sum), k)
  }

  function EncStep(v: seq<Word>, p: nat, sum: Word, k: seq<Word>): seq<Word>
    requires p < |v| && |k| >= 4
  {
    v[p := U32(v[p] + Mask(v, p, sum, k))]
  }

  function DecStep(v: seq<Word>, p: nat, sum: Word, k: seq<Word>): seq<Word>
    requires p < |v| && |k| >= 4
  {
    v[p := U32(v[p] - Mask(v, p, sum, k))]
  }

  /** With two words or more a step and its counterpart undo each other. */
  lemma StepUndone(v: seq<Word>, p: nat, sum: Word, k: seq<Word>)
    requires p < |v| && 2 <= |v| && |k| >= 4
    ensures DecStep(EncStep(v, p, sum, k), p, sum, k) == v
  {
    hide Mask;
    var w := EncStep(v, p, sum, k);
    MaskIgnores(v, p, w[p], sum, k);
  }

  lemma MaskIgnores(v: seq<Word>, p: nat, x: Word, sum: Word, k: seq<Word>)
    requires p < |v| && 2 <= |v| && |k| >= 4
    ensures Mask(v[p := x], p, sum, k) == Mask(v, p, sum, k)
  {
    hide Mx, E;
  }

  // --------------------------------------------------------------- one round

  /** Places 0 .. n - 1 encrypted in this order. */
  function EncUpTo(v: seq<Word>, n: nat, sum: Word, k: seq<Word>): (r: seq<Word>)
    requires n <= |v| && |k| >= 4
    ensures |r| == |v|
  {
    if n == 0 then v else EncStep(EncUpTo(v, n - 1, sum, k), n - 1, sum, k)
  }

  /** Places n - 1 .. 0 decrypted in this order. */
  function DecDown(v: seq<Word>, n: nat, sum: Word, k: seq<Word>): (r: seq<Word>)
    requires n <= |v| && |k| >= 4
    ensures |r| == |v|
    decreases n
  {
    if n == 0 then v else DecDown(DecStep(v, n - 1, sum, k), n - 1, sum, k)
  }

  lemma {:induction false} RoundUndone(v: seq<Word>, n: nat, sum: Word, k: seq<Word>)
    requires n <= |v| && 2 <= |v| && |k| >= 4
    ensures DecDown(EncUpTo(v, n, sum, k), n, sum, k) == v
  {
    hide EncStep, DecStep;
    if n > 0 {
      StepUndone(EncUpTo(v, n - 1, sum, k), n - 1, sum, k);
      RoundUndone(v, n - 1, sum, k);
    }
  }

  // --------------------------------------------------------------- all rounds

  /** The running sum in round i. */
  function Sum(i: nat): Word { U32(i * DELTA) }

  function EncRounds(v: seq<Word>, q: nat, k: seq<Word>): (r: seq<Word>)
    requires |k| >= 4
    ensures |r| == |v|
  {
    if q == 0 then v else var w := EncRounds(v, q - 1, k); EncUpTo(w, |w|, Sum(q), k)
  }

  function DecRounds(v: seq<Word>, q: nat, k: seq<Word>): (r: seq<Word>)
    requires |k| >= 4
    ensures |r| == |v|
    decreases q
  {
    if q == 0 then v else DecRounds(DecDown(v, |v|, Sum(q), k), q - 1, k)
  }

  lemma {:induction false} RoundsUndone(v: seq<Word>, q: nat, k: seq<Word>)
    requires 2 <= |v| && |k| >= 4
    ensures DecRounds(EncRounds(v, q, k), q, k) == v
  {
    hide EncUpTo, DecDown, Sum;
    if q > 0 {
      var w := EncRounds(v, q - 1, k);
      RoundUndone(w, |w|, Sum(q), k);
      RoundsUndone(v, q - 1, k);
    }
  }

  function Rounds(length: nat): (q: nat)
    requires length > 0
    ensures 6 <= q <= 58
  {
    6 + 52 / length
  }

  /**
   * DELTA is odd, with inverse 0x144CBC89 modulo 2^32, so its multiples return to
   * zero only after 2^32 steps.
   */
  lemma SumNotZero(i: nat)
    requires 0 < i < WRAP
    ensures Sum(i) != 0
  {
    var x := i * 0x9E3779B9;
    assert Sum(i) == x % 0x1_0000_0000;
    if x % 0x1_0000_0000 == 0 {
      var t := x / 0x1_0000_0000;
      assert x == t * 0x1_0000_0000;
      MultipleOnly(i, t);
    }
  }

  lemma MultipleOnly(i: int, t: int)
    requires i * 0x9E3779B9 == t * 0x1_0000_0000
    ensures exists m :: i == m * 0x1_0000_0000
  {
    var s := 0x9E3779B9 * 0x144CBC89 / 0x1_0000_0000;
    assert 0x9E3779B9 * 0x144CBC89 == s * 0x1_0000_0000 + 1;
    assert i * (0x9E3779B9 * 0x144CBC89) == t * (0x1_0000_0000 * 0x144CBC89);
    assert i == (t * 0x144CBC89 - i * s) * 0x1_0000_0000;
  }

  lemma SumBack(i: nat)
    requires i > 0
    ensures Sum(i - 1) == U32(Sum(i) - DELTA) && Sum(i) == U32(Sum(i - 1) + DELTA)
  {
    var x := (i - 1) * 0x9E3779B9;
    assert i * 0x9E3779B9 == x + 0x9E3779B9;
    ModPlus(x);
  }

  lemma ModPlus(x: nat)
    ensures var a := x % 0x1_0000_0000;
            (x + 0x9E3779B9) % 0x1_0000_0000 ==
            if a + 0x9E3779B9 < 0x1_0000_0000 then a + 0x9E3779B9 else a + 0x9E3779B9 - 0x1_0000_0000
  {
  }

  /** One round in place; y and z are the neighbours in the ring as it changes. */
  method EncryptRound(v: array<Word>, last: Word, sum: Word, k: seq<Word>)
    requires v.Length > 0 && last == v[v.Length - 1] && |k| >= 4
    modifies v
    ensures v[..] == EncUpTo(old(v[..]), v.Length, sum, k)
  {
    hide Mx, E;
    var n := v.Length - 1;
    var z := last;
    var e := E(sum);
    ghost var w := v[..];
    var p := 0;
    while p < n
      invariant 0 <= p <= n
      invariant z == if p == 0 then v[n] else v[p - 1]
      invariant v[..] == EncUpTo(w, p, sum, k)
    {
      var y := v[p + 1];
      v[p] := U32(v[p] + Mx(sum, y, z, p, e, k));
      z := v[p];
      p := p + 1;
    }
    var y := v[0];
    v[n] := U32(v[n] + Mx(sum, y, z, p, e, k));
  }

  method DecryptRound(v: array<Word>, first: Word, sum: Word, k: seq<Word>)
    requires v.Length > 0 && first == v[0] && |k| >= 4
    modifies v
    ensures v[..] == DecDown(old(v[..]), v.Length, sum, k)
  {
    hide Mx, E;
    var n := v.Length - 1;
    var y := first;
    var e := E(sum);
    ghost var w := v[..];
    var p := n;
    while p > 0
      invariant 0 <= p <= n
      invariant y == if p == n then v[0] else v[p + 1]
      invariant DecDown(v[..], p + 1, sum, k) == DecDown(w, n + 1, sum, k)
    {
      var z := v[p - 1];
      v[p] := U32(v[p] - Mx(sum, y, z, p, e, k));
      y := v[p];
      p := p - 1;
    }
    var z := v[n];
    v[0] := U32(v[0] - Mx(sum, y, z, p, e, k));
  }

  /** Encryption of a block of words in place. */
  method EncryptWords(v: array<Word>, key: seq<Word>)
    requires v.Length > 0
    modifies v
    ensures v[..] == EncRounds(old(v[..]), Rounds(v.Length), Fixk(key))
  {
    hide Fixk, EncUpTo;
    var k := Fixk(key);
    var sum: Word := 0;
    var q := Rounds(v.Length);
    ghost var v0, r := v[..], 0;
    while q > 0
      invariant 0 <= q && r + q == Rounds(v.Length)
      invariant sum == Sum(r) && v[..] == EncRounds(v0, r, k)
    {
      SumBack(r + 1);
      sum := U32(sum + DELTA);
      r := r + 1;
      EncryptRound(v, v[v.Length - 1], sum, k);
      q := q - 1;
    }
  }

  /** Decryption in place. It stops when the sum is zero, which is after exactly as many rounds. */
  method DecryptWords(v: array<Word>, key: seq<Word>)
    requires v.Length > 0
    modifies v
    ensures v[..] == DecRounds(old(v[..]), Rounds(v.Length), Fixk(key))
  {
    hide Fixk, DecDown;
    var k := Fixk(key);
    var q := Rounds(v.Length);
    var sum := U32(q * DELTA);
    ghost var v0, r := v[..], q;
    SumNotZero(q);
    while sum != 0
      invariant 0 <= r <= 58 && (sum != 0 <==> r > 0)
      invariant sum == Sum(r)
      invariant DecRounds(v0, q, k) == DecRounds(v[..], r, k)
      decreases r
    {
      DecryptRound(v, v[0], sum, k);
      SumBack(r);
      sum := U32(sum - DELTA);
      r := r - 1;
      if r > 0 { SumNotZero(r); }
    }
  }

  // ------------------------------------------------------------------ packing

  datatype Option<T> = None | Some(value: T)

  function Pow256(t: nat): int
    requires t < 4
  {
    if t == 0 then 1 else if t == 1 then 0x100 else if t == 2 then 0x10000 else 0x1000000
  }

  function At(b: seq<Byte>, i: nat): Byte { if i < |b| then b[i] else 0 }

  /** Word j of a little-endian byte string, padded with zeros. */
  function WordAt(b: seq<Byte>, j: nat): Word {
    At(b, 4 * j) + At(b, 4 * j + 1) * 0x100 + At(b, 4 * j + 2) * 0x10000 + At(b, 4 * j + 3) * 0x1000000
  }

  function Words(b: seq<Byte>): (v: seq<Word>) {
    seq((|b| + 3) / 4, j requires j >= 0 => WordAt(b, j))
  }

  function ByteOf(w: Word, t: nat): Byte
    requires t < 4
  {
    (w / Pow256(t)) % 256
  }

  /** The first n bytes of a block of words. */
  function Bytes(v: seq<Word>, n: nat): (b: seq<Byte>)
    requires n <= 4 * |v|
    ensures |b| == n
  {
    seq(n, i requires 0 <= i < n => ByteOf(v[i / 4], i % 4))
  }

  /** Only the first U32(len) bytes are looked at; the optional last word is that length. */
  function WordsOf(b: seq<Byte>, includeLength: bool): seq<Word> {
    var length := U32(|b|);
    Words(b[..length]) + if includeLength then [length] else []
  }

  /** None is the nil slice returned for an impossible length word. */
  function BytesOf(v: seq<Word>, includeLength: bool): Option<seq<Byte>>
    requires includeLength ==> |v| > 0
  {
    var n := U32(4 * |v|);
    if includeLength then
      var m := v[|v| - 1];
      var n := U32(n - 4);
      if m < U32(n - 3) || m > n then None else Some(Bytes(v, m))
    else Some(Bytes(v, n))
  }

  /**
   * Packs bytes into words. A byte is or-ed into a place that is still zero,
   * which on these disjoint places is addition.
   */
  method ToUint32s(bytes: seq<Byte>, includeLength: bool) returns (v: array<Word>)
    ensures fresh(v) && v[..] == WordsOf(bytes, includeLength)
  {
    hide WordAt, Pow256;
    var length: int := U32(|bytes|);
    var n: int := length / 4;
    if length % 4 != 0 {
      n := n + 1;
    }
    if includeLength {
      v := new Word[n + 1](_ => 0);
      v[n] := length;
    } else {
      v := new Word[n](_ => 0);
    }
    ghost var b := bytes[..length];
    assert n == (length + 3) / 4;
    NothingPacked(b);
    var i: int := 0;
    while i < length
      invariant 0 <= i <= length
      invariant forall j :: 0 <= j < n ==> v[j] == WordAt(b[..i], j)
      invariant includeLength ==> v[n] == length
    {
      PackStep(b, i);
      var word: int, byte: int := v[i / 4], bytes[i];
      word := word + byte * Pow256(i % 4);
      assert word == WordAt(b[..i + 1], i / 4);
      v[i / 4] := word;
      i := i + 1;
    }
    assert b[..length] == b;
    assert v[..n] == Words(b);
  }

  lemma NothingPacked(b: seq<Byte>)
    ensures forall j: nat :: WordAt(b[..0], j) == 0
  {
  }

  lemma PackStep(b: seq<Byte>, i: nat)
    requires i < |b|
    ensures forall j: nat :: WordAt(b[..i + 1], j) == WordAt(b[..i], j) + if j == i / 4 then b[i] * Pow256(i % 4) else 0
  {
    forall j: nat
      ensures WordAt(b[..i + 1], j) == WordAt(b[..i], j) + if j == i / 4 then b[i] * Pow256(i % 4) else 0
    {
      forall t: nat ensures At(b[..i + 1], t) == if t == i then b[i] else At(b[..i], t) { }
    }
  }

  /** Unpacks words into bytes, checking the length word. */
  method ToBytes(v: array<Word>, includeLength: bool) returns (r: Option<seq<Byte>>)
    requires includeLength ==> v.Length > 0
    ensures r == BytesOf(v[..], includeLength)
  {
    var n := U32(4 * v.Length);
    if includeLength {
      var m := v[v.Length - 1];
      n := U32(n - 4);
      if m < U32(n - 3) || m > n {
        return None;
      }
      n := m;
    }
    var bytes: seq<Byte> := [];
    var i := 0;
    while i < n
      invariant 0 <= i <= n && |bytes| == i
      invariant forall t :: 0 <= t < i ==> bytes[t] == ByteOf(v[t / 4], t % 4)
    {
      bytes := bytes + [(v[i / 4] / Pow256(i % 4)) % 256];
      i := i + 1;
    }
    assert bytes == Bytes(v[..], n);
    return Some(bytes);
  }

  // ------------------------------------------------------- Encrypt and Decrypt

  function EncryptOf(data: seq<Byte>, key: seq<Byte>): Option<seq<Byte>> {
    if data == [] then Some(data)
    else
      var w := WordsOf(data, true);
      BytesOf(EncRounds(w, Rounds(|w|), Fixk(WordsOf(key, false))), false)
  }

  /** A non-empty input whose length is a multiple of 2^32 has no words at all, and the source reads past it. */
  predicate Decryptable(data: seq<Byte>) { data == [] || U32(|data|) > 0 }

  function DecryptOf(data: seq<Byte>, key: seq<Byte>): Option<seq<Byte>>
    requires Decryptable(data)
  {
    if data == [] then Some(data)
    else
      var w := WordsOf(data, false);
      BytesOf(DecRounds(w, Rounds(|w|), Fixk(WordsOf(key, false))), true)
  }

  method Encrypt(data: seq<Byte>, key: seq<Byte>) returns (r: Option<seq<Byte>>)
    ensures r == EncryptOf(data, key)
  {
    hide EncRounds, Fixk, BytesOf, WordsOf;
    if |data| == 0 {
      return Some(data);
    }
    var v := ToUint32s(data, true);
    assert v.Length == |v[..]| > 0 by { HasLength(data); }
    var k := ToUint32s(key, false);
    EncryptWords(v, k[..]);
    r := ToBytes(v, false);
  }

  method Decrypt(data: seq<Byte>, key: seq<Byte>) returns (r: Option<seq<Byte>>)
    requires Decryptable(data)
    ensures r == DecryptOf(data, key)
  {
    hide DecRounds, Fixk, BytesOf, WordsOf;
    if |data| == 0 {
      return Some(data);
    }
    var v := ToUint32s(data, false);
    assert v.Length == |v[..]| > 0 by { HasWords(data); }
    var k := ToUint32s(key, false);
    DecryptWords(v, k[..]);
    r := ToBytes(v, true);
  }

  lemma HasLength(data: seq<Byte>)
    ensures |WordsOf(data, true)| > 0
  {
  }

  lemma HasWords(data: seq<Byte>)
    requires U32(|data|) > 0
    ensures |WordsOf(data, false)| > 0
  {
  }

  lemma ByteOfWord(b: seq<Byte>, j: nat, t: nat)
    requires t < 4
    ensures ByteOf(WordAt(b, j), t) == At(b, 4 * j + t)
  {
    Quotients(At(b, 4 * j), At(b, 4 * j + 1), At(b, 4 * j + 2), At(b, 4 * j + 3));
  }

  lemma Quotients(b0: Byte, b1: Byte, b2: Byte, b3: Byte)
    ensures var w := b0 + b1 * 0x100 + b2 * 0x10000 + b3 * 0x1000000;
      && w / 0x100 == b1 + b2 * 0x100 + b3 * 0x10000 && w / 0x10000 == b2 + b3 * 0x100 && w / 0x1000000 == b3
      && w % 0x100 == b0 && (w / 0x100) % 0x100 == b1 && (w / 0x10000) % 0x100 == b2 && (w / 0x1000000) % 0x100 == b3
  {
  }

  lemma WordOfBytes(w: Word)
    ensures ByteOf(w, 0) + ByteOf(w, 1) * 0x100 + ByteOf(w, 2) * 0x10000 + ByteOf(w, 3) * 0x1000000 == w
  {
    assert (w / 0x100) / 0x100 == w / 0x10000;
    assert (w / 0x10000) / 0x100 == w / 0x1000000;
  }

  /** Unpacking what was packed gives the bytes back. */
  lemma BytesOfWords(b: seq<Byte>, v: seq<Word>)
    requires Words(b) <= v
    ensures |b| <= 4 * |v| && Bytes(v, |b|) == b
  {
    hide WordAt, ByteOf;
    forall i | 0 <= i < |b| ensures Bytes(v, |b|)[i] == b[i] {
      assert v[i / 4] == Words(b)[i / 4];
      ByteOfWord(b, i / 4, i % 4);
    }
  }

  /** Packing whole words that were unpacked gives the words back. */
  lemma WordsOfBytes(v: seq<Word>)
    ensures Words(Bytes(v, 4 * |v|)) == v
  {
    hide WordAt, ByteOf;
    var b := Bytes(v, 4 * |v|);
    forall j | 0 <= j < |v| ensures WordAt(b, j) == v[j] {
      assert b[4 * j] == ByteOf(v[j], 0) && b[4 * j + 1] == ByteOf(v[j], 1);
      assert b[4 * j + 2] == ByteOf(v[j], 2) && b[4 * j + 3] == ByteOf(v[j], 3);
      WordIs(b, j, v[j]);
    }
  }

  lemma WordIs(b: seq<Byte>, j: nat, w: Word)
    requires 4 * j + 3 < |b| && b[4 * j] == ByteOf(w, 0) && b[4 * j + 1] == ByteOf(w, 1)
    requires b[4 * j + 2] == ByteOf(w, 2) && b[4 * j + 3] == ByteOf(w, 3)
    ensures WordAt(b, j) == w
  {
    hide ByteOf;
    WordOfBytes(w);
  }

  lemma PackedSize(data: seq<Byte>)
    requires 0 < |data| <= WRAP - 8
    ensures var w := WordsOf(data, true);
            2 <= |w| && 4 * |w| < WRAP && 4 * |w| - 7 <= |data| <= 4 * |w| - 4 && w[|w| - 1] == |data| && Words(data) <= w
  {
    assert data[..|data|] == data;
  }

  lemma RoundTrip(data: seq<Byte>, key: seq<Byte>)
    requires |data| <= WRAP - 8
    ensures EncryptOf(data, key).Some? && Decryptable(EncryptOf(data, key).value)
    ensures DecryptOf(EncryptOf(data, key).value, key) == Some(data)
  {
    hide EncRounds, DecRounds, Fixk, WordsOf, Bytes, Words, BytesOf;
    if data != [] {
      var w := WordsOf(data, true);
      PackedSize(data);
      var k := Fixk(WordsOf(key, false));
      var enc := EncRounds(w, Rounds(|w|), k);
      WholeWords(enc);
      var b := Bytes(enc, 4 * |enc|);
      NoLength(b);
      RoundsUndone(w, Rounds(|w|), k);
      LengthWord(data, w);
    }
  }

  lemma WholeWords(v: seq<Word>)
    requires 4 * |v| < WRAP
    ensures BytesOf(v, false) == Some(Bytes(v, 4 * |v|)) && Words(Bytes(v, 4 * |v|)) == v
  {
    hide Bytes, Words;
    WordsOfBytes(v);
  }

  lemma LengthWord(data: seq<Byte>, w: seq<Word>)
    requires 2 <= |w| && 4 * |w| < WRAP && 4 * |w| - 7 <= |data| <= 4 * |w| - 4 && w[|w| - 1] == |data| && Words(data) <= w
    ensures BytesOf(w, true) == Some(data)
  {
    hide Bytes, Words;
    BytesOfWords(data, w);
  }

  lemma NoLength(b: seq<Byte>)
    requires |b| < WRAP
    ensures WordsOf(b, false) == Words(b)
  {
    assert b[..|b|] == b;
  }

  /** What decryption returns never exceeds 2^32 - 8 bytes when its input came from encryption. */
  lemma TooLong(data: seq<Byte>, key: seq<Byte>)
    requires |data| > WRAP - 8
    ensures EncryptOf(data, key).Some? && Decryptable(EncryptOf(data, key).value)
    ensures DecryptOf(EncryptOf(data, key).value, key) != Some(data)
  {
    hide EncRounds, DecRounds, Fixk, Bytes, Words;
    var w := WordsOf(data, true);
    var b := EncryptOf(data, key).value;
    assert |b| == U32(4 * |w|) && |b| % 4 == 0;
    if b != [] {
      NoLength(b);
      var v := WordsOf(b, false);
      assert 4 * |v| == |b| by { WordCount(b); }
    }
  }

  lemma WordCount(b: seq<Byte>)
    requires |b| % 4 == 0
    ensures 4 * |Words(b)| == |b|
  {
  }

  /** The round trip succeeds exactly on data of at most 2^32 - 8 bytes, for every key. */
  lemma RoundTripExact(data: seq<Byte>, key: seq<Byte>)
    ensures EncryptOf(data, key).Some? && Decryptable(EncryptOf(data, key).value)
    ensures DecryptOf(EncryptOf(data, key).value, key) == Some(data) <==> |data| <= WRAP - 8
  {
    hide EncryptOf, DecryptOf;
    if |data| <= WRAP - 8 { RoundTrip(data, key); } else { TooLong(data, key); }
  }
}
