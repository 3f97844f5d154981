/**
 * The reader: bytes arrive in pieces of any size in a raw buffer, are decoded from
 * UTF-8 or UTF-16 and put as UTF-8 into the working buffer. Proved against encoding:
 * what has been decoded is the text whose encoding was read, however the pieces fall,
 * and a failure means the input is not the encoding of any allowed text.
 */
module YamlReader {
  import opened Utf8

  const RAW_SIZE := 512
  const BUFFER_SIZE := 1536

  datatype Encoding = Utf8Form | Utf16LE | Utf16BE

  /** Characters allowed in a stream (section 5.1 of YAML 1.1). */
  predicate Allowed(c: int) {
    c == 0x09 || c == 0x0A || c == 0x0D || 0x20 <= c <= 0x7E || c == 0x85 || 0xA0 <= c <= 0xD7FF
    || 0xE000 <= c <= 0xFFFD || 0x10000 <= c <= 0x10FFFF
  }

  type Text = seq<Rune>

  predicate AllAllowed(cs: Text) { forall i :: 0 <= i < |cs| ==> Allowed(cs[i]) }

  // ------------------------------------------------------------------------- encodings

  function Unit(enc: Encoding, u: int): (b: seq<Byte>)
    requires 0 <= u <= 0xFFFF
    ensures |b| == 2
  {
    if enc == Utf16LE then [u % 0x100, u / 0x100] else [u / 0x100, u % 0x100]
  }

  /** A code point in the given encoding form (section 3 of RFC 3629, section 2.1 of RFC 2781). */
  function Form(enc: Encoding, c: Rune): (b: seq<Byte>)
    ensures 1 <= |b| <= 4
  {
    if enc == Utf8Form then Encode(c)
    else if c <= 0xFFFF then Unit(enc, c)
    else Unit(enc, 0xD800 + (c - 0x10000) / 0x400) + Unit(enc, 0xDC00 + (c - 0x10000) % 0x400)
  }

  function Forms(enc: Encoding, cs: Text): seq<Byte> {
    if cs == [] then [] else Forms(enc, cs[..|cs| - 1]) + Form(enc, cs[|cs| - 1])
  }

  /** The encoding and the length of the byte order mark. */
  function Detect(b: seq<Byte>): (Encoding, nat) {
    if |b| >= 2 && b[0] == 0xFF && b[1] == 0xFE then (Utf16LE, 2)
    else if |b| >= 2 && b[0] == 0xFE && b[1] == 0xFF then (Utf16BE, 2)
    else if |b| >= 3 && b[0] == 0xEF && b[1] == 0xBB && b[2] == 0xBF then (Utf8Form, 3)
    else (Utf8Form, 0)
  }

  // -------------------------------------------------------------- decoding one character

  datatype One = Char(value: Rune, width: nat) | Bad | Short

  predicate Trailing(b: seq<Byte>) { forall k :: 1 <= k < |b| ==> 0x80 <= b[k] < 0xC0 }

  function Least(width: nat): int { if width == 2 then 0x80 else if width == 3 then 0x800 else if width == 4 then 0x10000 else 0 }

  function DecodeUtf8(b: seq<Byte>): One
    requires b != []
  {
    var w := Width(b[0]);
    if w == 0 then Bad
    else if w > |b| then Short
    else if !Trailing(b[..w]) then Bad
    else
      var v := Decode(b[..w]);
      if v < Least(w) || 0xD800 <= v <= 0xDFFF || v > 0x10FFFF || v < 0 then Bad
      else if Allowed(v) then Char(v, w) else Bad
  }

  function UnitAt(enc: Encoding, b: seq<Byte>, i: nat): (u: int)
    requires i + 1 < |b|
    ensures 0 <= u <= 0xFFFF
  {
    var x: int, y: int := b[i], b[i + 1];
    if enc == Utf16LE then x + 0x100 * y else y + 0x100 * x
  }

  function DecodeUtf16(enc: Encoding, b: seq<Byte>): One {
    if |b| < 2 then Short
    else
      var u := UnitAt(enc, b, 0);
      if 0xDC00 <= u <= 0xDFFF then Bad
      else if 0xD800 <= u <= 0xDBFF then
        if |b| < 4 then Short
        else
          var u2 := UnitAt(enc, b, 2);
          if !(0xDC00 <= u2 <= 0xDFFF) then Bad
          else Char(0x10000 + (u - 0xD800) * 0x400 + (u2 - 0xDC00), 4)
      else if Allowed(u) then Char(u, 2) else Bad
  }

  /** One round of the inner loop on the unread bytes. */
  function DecodeOne(enc: Encoding, b: seq<Byte>): One
    requires b != []
  {
    if enc == Utf8Form then DecodeUtf8(b) else DecodeUtf16(enc, b)
  }

  /** More bytes do not change what has been decided. */
  lemma DecodeStable(enc: Encoding, b: seq<Byte>, more: seq<Byte>)
    requires b != [] && DecodeOne(enc, b) != Short
    ensures DecodeOne(enc, b + more) == DecodeOne(enc, b)
  {
    if enc == Utf8Form {
      var w := Width(b[0]);
      if 0 < w <= |b| { assert (b + more)[..w] == b[..w]; }
    }
  }

  /** A decoded character is the one whose form was read. */
  lemma DecodeIsForm(enc: Encoding, b: seq<Byte>)
    requires b != [] && DecodeOne(enc, b).Char?
    ensures var o := DecodeOne(enc, b); o.width <= |b| && b[..o.width] == Form(enc, o.value) && Allowed(o.value)
  {
    if enc == Utf8Form { Utf8IsForm(b); } else { Utf16IsForm(enc, b); }
  }

  lemma Utf16IsForm(enc: Encoding, b: seq<Byte>)
    requires enc != Utf8Form && b != [] && DecodeUtf16(enc, b).Char?
    ensures var o := DecodeUtf16(enc, b); o.width <= |b| && b[..o.width] == Form(enc, o.value) && Allowed(o.value)
  {
    var u := UnitAt(enc, b, 0);
    UnitBack(enc, b, 0);
    if 0xD800 <= u <= 0xDBFF {
      var u2 := UnitAt(enc, b, 2);
      UnitBack(enc, b, 2);
      var c := 0x10000 + (u - 0xD800) * 0x400 + (u2 - 0xDC00);
      assert (c - 0x10000) / 0x400 == u - 0xD800 && (c - 0x10000) % 0x400 == u2 - 0xDC00;
      assert b[..4] == [b[0], b[1]] + [b[2], b[3]];
    } else {
      assert b[..2] == [b[0], b[1]];
    }
  }

  lemma UnitBack(enc: Encoding, b: seq<Byte>, i: nat)
    requires i + 1 < |b|
    ensures Unit(enc, UnitAt(enc, b, i)) == [b[i], b[i + 1]]
  {
  }

  lemma Utf8IsForm(b: seq<Byte>)
    requires b != [] && DecodeUtf8(b).Char?
    ensures var o := DecodeUtf8(b); o.width <= |b| && b[..o.width] == Encode(o.value) && Allowed(o.value)
  {
    var w := Width(b[0]);
    var s := b[..w];
    if w == 1 {
      assert s[1..] == [];
    } else if w == 2 {
      TwoIsForm(s);
    } else if w == 3 {
      ThreeIsForm(s);
    } else {
      FourIsForm(s);
    }
  }

  lemma TwoIsForm(s: seq<Byte>)
    requires |s| == 2 && Width(s[0]) == 2 && Trailing(s) && 0x80 <= Decode(s)
    ensures Decode(s) <= 0x7FF && Encode(Decode(s)) == s
  {
    var a: int, b: int := s[0] - 0xC0, s[1] - 0x80;
    assert s[1..] == [s[1]];
    RestOne(s[0] % 0x20, s[1]);
    assert Decode(s) == a * 0x40 + b;
    assert s == [0xC0 + a, 0x80 + b];
  }

  /** The value of a sum of digits, and the digits of the value, to the base 64. */
  lemma Digits(a: nat, b: nat, c: nat, d: nat)
    requires b < 0x40 && c < 0x40 && d < 0x40
    ensures var v := ((a * 0x40 + b) * 0x40 + c) * 0x40 + d;
      v % 0x40 == d && (v / 0x40) % 0x40 == c && (v / 0x1000) % 0x40 == b && v / 0x40000 == a
  {
    var v := ((a * 0x40 + b) * 0x40 + c) * 0x40 + d;
    assert v / 0x40 == (a * 0x40 + b) * 0x40 + c;
    assert v / 0x1000 == a * 0x40 + b;
  }

  lemma ThreeIsForm(s: seq<Byte>)
    requires |s| == 3 && Width(s[0]) == 3 && Trailing(s) && 0x800 <= Decode(s) && !(0xD800 <= Decode(s) <= 0xDFFF)
    ensures Decode(s) <= 0xFFFF && Encode(Decode(s)) == s
  {
    hide DecodeRest;
    var a: int, b: int, c: int := s[0] - 0xE0, s[1] - 0x80, s[2] - 0x80;
    assert s[1..] == [s[1], s[2]];
    RestTwo(s[0] % 0x10, s[1], s[2]);
    assert Decode(s) == (a * 0x40 + b) * 0x40 + c;
    Digits(0, a, b, c);
    assert s == [0xE0 + a, 0x80 + b, 0x80 + c];
  }

  lemma FourIsForm(s: seq<Byte>)
    requires |s| == 4 && Width(s[0]) == 4 && Trailing(s) && 0x10000 <= Decode(s) <= 0x10FFFF
    ensures Encode(Decode(s)) == s
  {
    hide DecodeRest;
    var a: int, b: int, c: int, d: int := s[0] - 0xF0, s[1] - 0x80, s[2] - 0x80, s[3] - 0x80;
    assert s[1..] == [s[1], s[2], s[3]];
    FourPayload(s);
    RestThree(a, s[1], s[2], s[3]);
    Digits(a, b, c, d);
    assert s == [0xF0 + a, 0x80 + b, 0x80 + c, 0x80 + d];
  }

  lemma FourPayload(s: seq<Byte>)
    requires |s| == 4 && Width(s[0]) == 4 && Trailing(s)
    ensures s[0] % 8 == s[0] - 0xF0 && s[1] % 0x40 == s[1] - 0x80 && s[2] % 0x40 == s[2] - 0x80 && s[3] % 0x40 == s[3] - 0x80
  {
  }

  // ---------------------------------------------------------------------- whole texts

  /** The form of an allowed character decodes to it, whatever follows. */
  lemma FormDecodes(enc: Encoding, c: Rune, rest: seq<Byte>)
    requires Allowed(c)
    ensures DecodeOne(enc, Form(enc, c) + rest) == Char(c, |Form(enc, c)|)
  {
    var b := Form(enc, c) + rest;
    if enc == Utf8Form {
      DecodeUndoesEncode(c);
      FormTrails(c);
      assert b[..|Encode(c)|] == Encode(c);
    } else {
      var u := if c <= 0xFFFF then c else 0xD800 + (c - 0x10000) / 0x400;
      assert UnitAt(enc, b, 0) == u;
      if c > 0xFFFF { assert UnitAt(enc, b, 2) == 0xDC00 + (c - 0x10000) % 0x400; }
    }
  }

  lemma FormTrails(c: Rune)
    ensures Trailing(Encode(c)) && c >= Least(|Encode(c)|)
  {
  }

  lemma FormsMore(enc: Encoding, cs: Text, c: Rune)
    ensures Forms(enc, cs + [c]) == Forms(enc, cs) + Form(enc, c)
  {
    assert (cs + [c])[..|cs|] == cs;
  }

  lemma EmptyForms(enc: Encoding, cs: Text)
    ensures cs == [] <==> Forms(enc, cs) == []
  {
  }

  lemma {:induction false} FormsFirst(enc: Encoding, cs: Text)
    requires cs != []
    ensures Forms(enc, cs) == Form(enc, cs[0]) + Forms(enc, cs[1..])
    decreases |cs|
  {
    hide Form;
    var n := |cs| - 1;
    if n == 0 {
      assert cs[..0] == [] && cs[1..] == [];
    } else {
      FormsFirst(enc, cs[..n]);
      assert cs[..n][1..] == cs[1..][..n - 1] && cs[1..][n - 1] == cs[n];
    }
  }

  lemma SameFirst(enc: Encoding, c: Rune, x: seq<Byte>, d: Rune, y: seq<Byte>)
    requires Allowed(c) && Allowed(d) && Form(enc, c) + x == Form(enc, d) + y
    ensures c == d && x == y
  {
    hide Form, DecodeOne, Allowed;
    FormDecodes(enc, c, x);
    FormDecodes(enc, d, y);
    var k := |Form(enc, c)|;
    assert (Form(enc, c) + x)[k..] == x && (Form(enc, d) + y)[k..] == y;
  }

  /** Two allowed texts, one encoded at the front of the other: the shorter is a prefix, and the rest encodes the rest. */
  lemma {:induction false} Unique(enc: Encoding, cs: Text, ds: Text, rest: seq<Byte>)
    requires AllAllowed(cs) && AllAllowed(ds) && Forms(enc, ds) == Forms(enc, cs) + rest
    ensures cs <= ds && rest == Forms(enc, ds[|cs|..])
    decreases |cs|
  {
    hide Form, Allowed;
    if cs == [] {
      assert ds[0..] == ds;
    } else {
      FormsFirst(enc, cs);
      EmptyForms(enc, ds);
      FormsFirst(enc, ds);
      var back := Forms(enc, cs[1..]) + rest;
      assert Forms(enc, ds) == Form(enc, cs[0]) + back;
      SameFirst(enc, cs[0], back, ds[0], Forms(enc, ds[1..]));
      Unique(enc, cs[1..], ds[1..], rest);
      assert ds[1..][|cs| - 1..] == ds[|cs|..];
      assert cs == [cs[0]] + cs[1..] && ds == [ds[0]] + ds[1..];
    }
  }

  /** An input that is the encoding of an allowed text, after its byte order mark. */
  ghost predicate WellFormed(input: seq<Byte>) {
    exists cs: Text :: AllAllowed(cs) && Spells(input, cs)
  }

  predicate Spells(input: seq<Byte>, cs: Text) {
    var (enc, start) := Detect(input);
    start <= |input| && input[start..] == Forms(enc, cs)
  }

  /** Where the decoder cannot go on, the input is not well formed. */
  lemma StuckIsMalformed(input: seq<Byte>, cs: Text, tail: seq<Byte>)
    requires AllAllowed(cs) && tail != []
    requires var (enc, start) := Detect(input);
      start <= |input| && input[start..] == Forms(enc, cs) + tail && !DecodeOne(enc, tail).Char?
    ensures !WellFormed(input)
  {
    var (enc, start) := Detect(input);
    hide Form, DecodeOne, Detect;
    forall ds: Text | AllAllowed(ds) ensures !Spells(input, ds) {
      if Spells(input, ds) {
        Unique(enc, cs, ds, tail);
        var more := ds[|cs|..];
        EmptyForms(enc, more);
        FormsFirst(enc, more);
        FormDecodes(enc, more[0], Forms(enc, more[1..]));
        assert false;
      }
    }
  }

  // ------------------------------------------------------------------------ the buffers

  lemma {:induction false} FormsShort(enc: Encoding, cs: Text)
    ensures |Forms(enc, cs)| <= 4 * |cs|
    decreases |cs|
  {
    hide Form;
    if cs != [] { FormsShort(enc, cs[..|cs| - 1]); }
  }

  /** Putting a character as UTF-8 takes at most half as many bytes again as it was read from. */
  lemma Expansion(enc: Encoding, c: Rune)
    ensures 2 * |Encode(c)| <= 3 * |Form(enc, c)|
  {
  }

  class Reader {
    const input: seq<Byte>
    const pace: nat -> nat
    var calls: nat
    var inputPos: nat
    var eof: bool
    var raw: seq<Byte>
    var rawPos: nat
    var encoded: bool
    var encoding: Encoding
    var offset: nat
    var buffer: seq<Byte>
    var bufferPos: nat
    var unread: nat
    // The characters decoded so far, those already taken by the scanner, and whether the closing NUL is in.
    ghost var out: Text
    ghost var taken: nat
    ghost var ended: bool

    /** The raw buffer holds the bytes read and not decoded yet. */
    ghost predicate RawRight()
      reads this`inputPos, this`eof, this`raw, this`rawPos, this`offset
    {
      && rawPos <= |raw| <= RAW_SIZE && offset <= inputPos <= |input| && raw[rawPos..] == input[offset..inputPos]
      && (eof ==> inputPos == |input|)
    }

    /** What has been decoded is the text whose encoding has been read. */
    ghost predicate TextRight()
      reads this`encoded, this`encoding, this`offset, this`out
    {
      if !encoded then out == [] && offset == 0
      else
        var (enc, start) := Detect(input);
        encoding == enc && start <= offset <= |input| && input[start..offset] == Forms(enc, out) && AllAllowed(out)
    }

    /** The working buffer holds the characters not taken yet as UTF-8, and a NUL at the end of the input. */
    ghost predicate BufferRight()
      reads this`buffer, this`bufferPos, this`unread, this`out, this`taken, this`ended
    {
      && bufferPos <= |buffer| <= BUFFER_SIZE && taken <= |out|
      && buffer[bufferPos..] == Forms(Utf8Form, out[taken..]) + (if ended then [0] else [])
      && unread == |out| - taken + if ended then 1 else 0
    }

    ghost predicate Valid()
      reads this
    {
      RawRight() && TextRight() && BufferRight() && (!encoded ==> !eof) && (ended <==> eof && rawPos == |raw|)
    }

    constructor (bytes: seq<Byte>, sizes: nat -> nat)
      ensures Valid() && !encoded && input == bytes
    {
      input, pace, calls, inputPos, eof := bytes, sizes, 0, 0, false;
      raw, rawPos, encoded, encoding, offset := [], 0, false, Utf8Form, 0;
      buffer, bufferPos, unread, out, taken, ended := [], 0, 0, [], 0, false;
    }

    /** The read handler: end of file once all is read; otherwise one byte or more, as its pace has it. */
    method ReadInput(room: nat) returns (bytes: seq<Byte>, end: bool)
      requires inputPos <= |input|
      modifies this`calls, this`inputPos
      ensures old(inputPos) <= inputPos <= |input| && bytes == input[old(inputPos)..inputPos] && |bytes| <= room
      ensures end <==> old(inputPos) == |input|
      ensures !end && room > 0 ==> inputPos > old(inputPos)
    {
      if inputPos == |input| { return [], true; }
      var left := |input| - inputPos;
      var n := if pace(calls) == 0 then 1 else pace(calls);
      if n > left { n := left; }
      if n > room { n := room; }
      calls := calls + 1;
      bytes := input[inputPos..inputPos + n];
      inputPos := inputPos + n;
      end := false;
    }

    /** update_raw_buffer: moves the unread bytes to the front and reads more behind them. */
    method UpdateRawBuffer()
      requires RawRight()
      modifies this`calls, this`inputPos, this`eof, this`raw, this`rawPos
      ensures RawRight() && inputPos >= old(inputPos) && (old(eof) ==> eof) && |raw| - rawPos >= old(|raw| - rawPos)
      ensures old(|raw| - rawPos) < RAW_SIZE ==> eof || inputPos > old(inputPos)
      ensures old(rawPos == 0 && |raw| == RAW_SIZE) ==> raw == old(raw)
    {
      if rawPos == 0 && |raw| == RAW_SIZE { return; }
      if eof { return; }
      ghost var rest := raw[rawPos..];
      raw := raw[rawPos..];
      rawPos := 0;
      ghost var was := inputPos;
      var bytes, end := ReadInput(RAW_SIZE - |raw|);
      raw := raw + bytes;
      assert raw[0..] == rest + bytes;
      assert input[offset..was] + input[was..inputPos] == input[offset..inputPos];
      if end { eof := true; }
    }

    /** determine_encoding: waits for three bytes or the end, then looks for a byte order mark. */
    method DetermineEncoding()
      requires RawRight() && !encoded && offset == 0 && out == []
      modifies this`calls, this`inputPos, this`eof, this`raw, this`rawPos, this`offset, this`encoding, this`encoded
      ensures RawRight() && TextRight() && encoded && inputPos >= old(inputPos) && (old(eof) ==> eof)
    {
      while !eof && |raw| - rawPos < 3
        invariant RawRight() && !encoded && offset == 0 && inputPos >= old(inputPos) && (old(eof) ==> eof)
        decreases |input| - inputPos, !eof
      {
        UpdateRawBuffer();
      }
      var (enc, start) := Detect(raw[rawPos..]);
      DetectEarly(raw[rawPos..], input);
      encoding, encoded := enc, true;
      rawPos := rawPos + start;
      offset := offset + start;
    }

    /** The trailing octets of a UTF-8 sequence, checked and shifted in one by one. */
    method ShiftIn(s: seq<Byte>, head: nat) returns (value: int, ok: bool)
      requires s != []
      ensures ok <==> Trailing(s)
      ensures ok ==> value == DecodeRest(head, s[1..]) && value >= 0
    {
      hide DecodeRest;
      value := head;
      var k := 1;
      assert s[1..1] == [];
      RestNone(head);
      while k < |s|
        invariant 1 <= k <= |s| && value == DecodeRest(head, s[1..k]) && value >= 0
        invariant forall j :: 1 <= j < k ==> 0x80 <= s[j] < 0xC0
      {
        var octet: Byte := s[k];
        if !(0x80 <= octet < 0xC0) { return value, false; }
        RestMore(head, s[1..k], octet);
        assert s[1..k + 1] == s[1..k] + [octet];
        value := value * 0x40 + octet % 0x40;
        k := k + 1;
      }
      assert s[1..k] == s[1..];
      ok := true;
    }

    method ReadUtf8(b: seq<Byte>) returns (o: One)
      requires b != []
      ensures o == DecodeUtf8(b)
    {
      hide Allowed, DecodeRest, Trailing;
      var w := Width(b[0]);
      if w == 0 { return Bad; }
      if w > |b| { return Short; }
      var octet: int := b[0];
      var head := if w == 1 then octet % 0x80 else if w == 2 then octet % 0x20 else if w == 3 then octet % 0x10 else octet % 8;
      var value, ok := ShiftIn(b[..w], head);
      if !ok { return Bad; }
      if value < Least(w) || 0xD800 <= value <= 0xDFFF || value > 0x10FFFF { return Bad; }
      o := if Allowed(value) then Char(value, w) else Bad;
    }

    /** Raw buffer, text and working buffer are right while decoding goes on. */
    ghost predicate Decoding()
      reads this
    {
      RawRight() && TextRight() && encoded && BufferRight() && !ended && bufferPos == 0
    }

    /** Puts a decoded character into the working buffer and moves on. */
    method PutCharacter(v: Rune, w: nat)
      requires Decoding() && rawPos != |raw| && DecodeOne(encoding, raw[rawPos..]) == Char(v, w) && |buffer| <= 1500
      modifies this`rawPos, this`offset, this`buffer, this`unread, this`out
      ensures Decoding() && rawPos > old(rawPos) && rawPos <= |raw| && unread > old(unread) && out == old(out) + [v]
      ensures 2 * |buffer| + 3 * (|raw| - rawPos) <= old(2 * |buffer| + 3 * (|raw| - rawPos))
    {
      hide Forms, Form, Detect, DecodeOne, AllAllowed, Encode, Allowed;
      DecodeIsForm(encoding, raw[rawPos..]);
      Expansion(encoding, v);
      Decoded(input, Detect(input).1, offset, inputPos, encoding, out, v, w);
      BufferMore(out, taken, v);
      DropMore(raw, rawPos, w);
      NotEmpty(encoding, v);
      rawPos := rawPos + w;
      offset := offset + w;
      buffer := buffer + Encode(v);
      unread := unread + 1;
      out := out + [v];
    }

    /**
     * The inner loop: decodes all of the raw buffer but an incomplete character at its
     * end. A failure means that the input is no encoding of an allowed text.
     */
    method DecodeRaw() returns (ok: bool)
      requires Decoding() && |buffer| <= 28
      modifies this`rawPos, this`offset, this`buffer, this`unread, this`out
      ensures !ok ==> !WellFormed(input)
      ensures ok ==> Decoding() && |buffer| <= 796 && unread >= old(unread) && |raw| - rawPos < 4 && (eof ==> rawPos == |raw|)
      ensures ok ==> old(out) <= out
    {
      hide Forms, Detect, DecodeOne, DecodeUtf8, DecodeUtf16, AllAllowed, WellFormed, Allowed;
      while rawPos != |raw|
        invariant Decoding() && unread >= old(unread) && old(out) <= out
        invariant 2 * |buffer| + 3 * (|raw| - rawPos) <= 56 + 3 * RAW_SIZE
      {
        var o;
        if encoding == Utf8Form { o := ReadUtf8(raw[rawPos..]); } else { o := DecodeUtf16(encoding, raw[rawPos..]); }
        DecodeIs(encoding, raw[rawPos..]);
        match o {
          case Bad =>
            Stuck(input, Detect(input).1, offset, inputPos, encoding, out);
            return false;
          case Short =>
            ShortTail(encoding, raw[rawPos..]);
            if eof {
              Stuck(input, Detect(input).1, offset, inputPos, encoding, out);
              return false;
            }
            break;
          case Char(v, w) => PutCharacter(v, w);
        }
      }
      ok := true;
    }

    /** Moves the unread characters to the beginning of the buffer. */
    method CompactBuffer()
      requires BufferRight() && !ended
      modifies this`buffer, this`bufferPos
      ensures BufferRight() && bufferPos == 0 && |buffer| <= 4 * unread
    {
      hide Forms;
      FormsShort(Utf8Form, out[taken..]);
      buffer := buffer[bufferPos..];
      bufferPos := 0;
      assert buffer[0..] == buffer;
    }

    /**
     * update_buffer: makes `length` characters available unless the input ends before. The
     * buffer is not overrun for up to eight characters, and a failure means that the input
     * is no encoding of an allowed text.
     */
    method UpdateBuffer(length: nat) returns (ok: bool)
      requires Valid() && 1 <= length <= 8
      modifies this
      ensures !ok ==> !WellFormed(input)
      ensures ok ==> Valid() && (unread >= length || ended) && old(out) <= out && taken == old(taken)
      ensures ok ==> encoded || unread >= length
    {
      hide Forms, Detect, DecodeOne, AllAllowed, WellFormed;
      if eof && rawPos == |raw| { return true; }
      if unread >= length { return true; }
      if !encoded { DetermineEncoding(); }
      CompactBuffer();
      ok := Fill(length);
    }

    method PutNul()
      requires Decoding() && eof && rawPos == |raw| && |buffer| < BUFFER_SIZE
      modifies this`buffer, this`unread, this`ended
      ensures Valid() && ended
    {
      hide Forms, Detect, AllAllowed;
      ghost var was := buffer;
      assert buffer[0..] == buffer;
      buffer := buffer + [0];
      assert buffer[0..] == was + [0];
      unread := unread + 1;
      ended := true;
    }

    /** The outer loop of update_buffer. */
    method Fill(length: nat) returns (ok: bool)
      requires Decoding() && unread < length <= 8 && |buffer| <= 4 * unread
      modifies this
      ensures !ok ==> !WellFormed(input)
      ensures ok ==> Valid() && encoded && (unread >= length || ended) && taken == old(taken) && old(out) <= out
    {
      hide Forms, Detect, DecodeOne, AllAllowed, WellFormed;
      var first := true;
      while unread < length
        invariant Decoding() && taken == old(taken) && |buffer| <= BUFFER_SIZE - 4 && old(out) <= out
        invariant first ==> unread < length
        invariant unread < length ==> |buffer| <= 28
        invariant !first ==> !eof && |raw| - rawPos < 4
        decreases |input| - inputPos + if first then 1 else 0
      {
        if !first || rawPos == |raw| { UpdateRawBuffer(); }
        first := false;
        ok := DecodeRaw();
        if !ok { return; }
        if eof {
          PutNul();
          return true;
        }
        BufferShort();
      }
      ok := true;
    }

    lemma BufferShort()
      requires BufferRight() && !ended && bufferPos == 0
      ensures |buffer| <= 4 * unread
    {
      FormsShort(Utf8Form, out[taken..]);
      assert buffer[0..] == buffer;
    }

    /** The scanner takes one character. */
    method Skip() returns (bytes: seq<Byte>)
      requires Valid() && taken < |out|
      modifies this`bufferPos, this`unread, this`taken
      ensures Valid() && taken == old(taken) + 1 && bytes == Encode(out[old(taken)])
    {
      hide Forms, Detect, AllAllowed, Encode;
      NextCharacter(buffer, bufferPos, out, taken, ended);
      var w := Width(buffer[bufferPos]);
      bytes := buffer[bufferPos..bufferPos + w];
      bufferPos := bufferPos + w;
      unread := unread - 1;
      taken := taken + 1;
    }

    /**
     * Reads the whole input: it succeeds exactly on the encoding of an allowed text, and
     * then hands out that text as UTF-8, whatever the sizes of the pieces.
     */
    method ReadAll() returns (ok: bool, text: seq<Byte>)
      requires Valid() && taken == 0 && out == []
      modifies this
      ensures ok <==> WellFormed(input)
      ensures ok ==> AllAllowed(out) && Spells(input, out) && text == Forms(Utf8Form, out)
    {
      hide Forms, Detect, AllAllowed, WellFormed, Spells, Encode;
      text := [];
      Nothing(out);
      while true
        invariant Valid() && text == Forms(Utf8Form, out[..taken]) && taken <= |input|
        decreases |input| - taken
      {
        ghost var was := out;
        ok := UpdateBuffer(1);
        if !ok { return; }
        assert out[..taken] == was[..taken];
        FormsLong(encoding, out);
        assert |out| <= |input[Detect(input).1..offset]| <= |input|;
        AtEnd(buffer, bufferPos, out, taken, ended, unread);
        if buffer[bufferPos] == 0 { break; }
        TextGrows(out, taken);
        var c := Skip();
        text := text + c;
      }
      assert out[..|out|] == out;
      Finished(input, offset, out, encoding);
    }
  }

  lemma Nothing(out: Text)
    requires out == []
    ensures Forms(Utf8Form, out[..0]) == []
  {
  }

  lemma TextGrows(out: Text, taken: nat)
    requires taken < |out|
    ensures Forms(Utf8Form, out[..taken + 1]) == Forms(Utf8Form, out[..taken]) + Encode(out[taken])
  {
    assert out[..taken + 1] == out[..taken] + [out[taken]];
    FormsMore(Utf8Form, out[..taken], out[taken]);
  }

  lemma Sliced(buffer: seq<Byte>, pos: nat, a: seq<Byte>, rest: seq<Byte>)
    requires pos <= |buffer| && buffer[pos..] == a + rest
    ensures pos + |a| <= |buffer| && buffer[pos..pos + |a|] == a && buffer[pos + |a|..] == rest
    ensures a != [] ==> buffer[pos] == a[0]
  {
    var t := buffer[pos..];
    assert t[..|a|] == a && t[|a|..] == rest;
  }

  /** The buffer starts with the next character, whose first byte tells its width. */
  lemma NextCharacter(buffer: seq<Byte>, pos: nat, out: Text, taken: nat, ended: bool)
    requires pos <= |buffer| && taken < |out|
    requires buffer[pos..] == Forms(Utf8Form, out[taken..]) + (if ended then [0] else [])
    ensures pos < |buffer| && Width(buffer[pos]) == |Encode(out[taken])|
    ensures var w := |Encode(out[taken])|;
      && pos + w <= |buffer| && buffer[pos..pos + w] == Encode(out[taken])
      && buffer[pos + w..] == Forms(Utf8Form, out[taken + 1..]) + (if ended then [0] else [])
  {
    hide Forms, Encode;
    var c, end := out[taken], if ended then [0] else [];
    FormsFirst(Utf8Form, out[taken..]);
    assert out[taken..][1..] == out[taken + 1..] && out[taken..][0] == c;
    FormIs(c);
    DecodeUndoesEncode(c);
    assert (Encode(c) + Forms(Utf8Form, out[taken + 1..])) + end == Encode(c) + (Forms(Utf8Form, out[taken + 1..]) + end);
    Sliced(buffer, pos, Encode(c), Forms(Utf8Form, out[taken + 1..]) + end);
  }

  lemma FormIs(c: Rune)
    ensures Form(Utf8Form, c) == Encode(c) && Encode(c) != []
  {
  }

  lemma {:induction false} FormsLong(enc: Encoding, cs: Text)
    ensures |cs| <= |Forms(enc, cs)|
    decreases |cs|
  {
    hide Form;
    if cs != [] { FormsLong(enc, cs[..|cs| - 1]); }
  }

  /** A NUL in the buffer is the end: no allowed character starts with one. */
  lemma AtEnd(buffer: seq<Byte>, pos: nat, out: Text, taken: nat, ended: bool, unread: nat)
    requires pos <= |buffer| && taken <= |out| && AllAllowed(out) && unread > 0
    requires buffer[pos..] == Forms(Utf8Form, out[taken..]) + (if ended then [0] else [])
    requires unread == |out| - taken + if ended then 1 else 0
    ensures pos < |buffer| && (buffer[pos] == 0 <==> taken == |out|) && (buffer[pos] == 0 ==> ended)
  {
    if taken < |out| {
      NextCharacter(buffer, pos, out, taken, ended);
      assert Allowed(out[taken]);
      assert buffer[pos] == buffer[pos..pos + Width(buffer[pos])][0];
      NotNul(out[taken]);
    } else {
      assert out[taken..] == [];
      assert buffer[pos] == buffer[pos..][0];
    }
  }

  lemma NotNul(c: Rune)
    requires Allowed(c)
    ensures Encode(c)[0] != 0
  {
  }

  lemma Finished(input: seq<Byte>, offset: nat, out: Text, enc: Encoding)
    requires offset == |input| && AllAllowed(out) && Detect(input).0 == enc
    requires Detect(input).1 <= |input| && input[Detect(input).1..offset] == Forms(enc, out)
    ensures Spells(input, out) && WellFormed(input)
  {
    var start := Detect(input).1;
    assert input[start..offset] == input[start..];
  }

  lemma RestMore(v: int, s: seq<Byte>, x: Byte)
    ensures DecodeRest(v, s + [x]) == DecodeRest(v, s) * 0x40 + x % 0x40
    decreases |s|
  {
    if s == [] {
      assert s + [x] == [x] && [x][1..] == [];
    } else {
      RestMore(v * 0x40 + s[0] % 0x40, s[1..], x);
      assert (s + [x])[1..] == s[1..] + [x];
    }
  }

  /** Three bytes, or all there are, tell the encoding. */
  lemma DetectEarly(b: seq<Byte>, input: seq<Byte>)
    requires b <= input && (|b| >= 3 || b == input)
    ensures Detect(b) == Detect(input) && Detect(b).1 <= |b|
    ensures input[Detect(b).1..Detect(b).1] == Forms(Detect(b).0, [])
  {
  }

  lemma DropMore(raw: seq<Byte>, pos: nat, w: nat)
    requires pos + w <= |raw|
    ensures raw[pos..][w..] == raw[pos + w..]
  {
  }

  lemma NotEmpty(enc: Encoding, c: Rune)
    ensures 1 <= |Form(enc, c)| <= 4 && 1 <= |Encode(c)| <= 4
  {
  }

  lemma DecodeIs(enc: Encoding, b: seq<Byte>)
    requires b != []
    ensures DecodeOne(enc, b) == if enc == Utf8Form then DecodeUtf8(b) else DecodeUtf16(enc, b)
  {
  }

  lemma ShortTail(enc: Encoding, b: seq<Byte>)
    requires b != [] && DecodeOne(enc, b) == Short
    ensures |b| < 4
  {
  }

  /** The decoder stands at `offset` with the bytes up to `read` in hand and cannot go on. */
  lemma Stuck(input: seq<Byte>, start: nat, offset: nat, read: nat, enc: Encoding, cs: Text)
    requires Detect(input) == (enc, start) && start <= offset < read <= |input| && input[start..offset] == Forms(enc, cs) && AllAllowed(cs)
    requires var o := DecodeOne(enc, input[offset..read]); o == Bad || (o == Short && read == |input|)
    ensures !WellFormed(input)
  {
    hide Forms, AllAllowed, DecodeOne, Detect, WellFormed;
    var tail := input[offset..];
    assert tail == input[offset..read] + input[read..];
    if DecodeOne(enc, input[offset..read]) == Bad {
      DecodeStable(enc, input[offset..read], input[read..]);
    } else {
      assert input[offset..read] == tail;
    }
    assert input[start..] == input[start..offset] + tail;
    StuckIsMalformed(input, cs, tail);
  }

  lemma Decoded(input: seq<Byte>, start: nat, offset: nat, read: nat, enc: Encoding, cs: Text, v: Rune, w: nat)
    requires start <= offset <= read <= |input| && input[start..offset] == Forms(enc, cs) && AllAllowed(cs) && Allowed(v)
    requires w <= read - offset && input[offset..read][..w] == Form(enc, v)
    ensures input[start..offset + w] == Forms(enc, cs + [v]) && AllAllowed(cs + [v])
    ensures input[offset..read][w..] == input[offset + w..read]
  {
    hide Form;
    FormsMore(enc, cs, v);
    assert input[start..offset + w] == input[start..offset] + input[offset..read][..w];
  }

  lemma BufferMore(cs: Text, taken: nat, v: Rune)
    requires taken <= |cs|
    ensures Forms(Utf8Form, (cs + [v])[taken..]) == Forms(Utf8Form, cs[taken..]) + Encode(v)
  {
    assert (cs + [v])[taken..] == cs[taken..] + [v];
    FormsMore(Utf8Form, cs[taken..], v);
  }
}
