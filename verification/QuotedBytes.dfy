/**
 * The scanner of double-quoted scalars on the UTF-8 bytes in its buffer, and the round trip
 * from the bytes of a value through writer and scanner back to the same bytes.
 */
module QuotedBytes {
  import opened Utf8
  import opened QuotedScalar
  import opened QuotedRoundTrip
  import YamlEmitter
  import YamlEvents

  // ------------------------------------------------------------------- tests on the buffer

  predicate BlankByte(b: Byte) { b == 0x20 || b == 0x09 }

  predicate BreakAt(buffer: seq<Byte>, o: nat) { o < |buffer| && BreakBytes(buffer[o..]) }

  predicate BlankZAt(buffer: seq<Byte>, o: nat) { BlankByte(At(buffer, o)) || BreakAt(buffer, o) || At(buffer, o) == 0 }

  predicate MarkerBytes(buffer: seq<Byte>, o: nat) {
    && (At(buffer, o) == 0x2D || At(buffer, o) == 0x2E)
    && At(buffer, o + 1) == At(buffer, o) && At(buffer, o + 2) == At(buffer, o) && BlankZAt(buffer, o + 3)
  }

  /** The tests tell what character is at a place of the text. */
  lemma Tests(input: seq<Rune>, p: nat)
    requires p <= |input|
    ensures var b, o, c := EncodeAll(input), Offset(input, p), Peek(input, p);
      && o <= |b| && (p < |input| <==> o < |b|)
      && (BlankByte(At(b, o)) <==> Blank(c)) && (BreakAt(b, o) <==> Break(c)) && (BlankZAt(b, o) <==> BlankZ(c))
      && (c <= 0x7F ==> At(b, o) == c) && (c > 0x7F ==> At(b, o) > 0x7F)
  {
    hide EncodeAll, Offset, PrintableBytes, BreakBytes, BomBytes, Encode;
    ByteAt(input, p);
    OffsetEnds(input);
    OffsetGrows(input, p, |input|);
  }

  lemma MarkerTest(input: seq<Rune>, p: nat)
    requires p <= |input|
    ensures MarkerBytes(EncodeAll(input), Offset(input, p)) <==> MarkerAt(input, p)
  {
    hide EncodeAll, Offset, BlankByte, BreakAt, BlankZAt, BlankZ;
    Tests(input, p);
    var c := Peek(input, p);
    if c == 0x2D || c == 0x2E {
      AsciiNext(input, p);
      Tests(input, p + 1);
      if Peek(input, p + 1) == c {
        AsciiNext(input, p + 1);
        Tests(input, p + 2);
        if Peek(input, p + 2) == c {
          AsciiNext(input, p + 2);
          Tests(input, p + 3);
        }
      }
    }
  }

  // ----------------------------------------------------------------------------- breaks

  /** Bytes of the line break at a place. */
  function BreakSize(buffer: seq<Byte>, o: nat): nat {
    if At(buffer, o) == CR && At(buffer, o + 1) == LF then 2 else Width(At(buffer, o))
  }

  /** What read_line takes over: a line or paragraph separator as it is, any other break as a line feed. */
  function BreakCopy(buffer: seq<Byte>, o: nat): seq<Byte> {
    if At(buffer, o) == 0xE2 && o + 3 <= |buffer| then buffer[o..o + 3] else [LF]
  }

  lemma LineRead(input: seq<Rune>, p: nat)
    requires p < |input| && Break(input[p])
    ensures p + BreakLength(input, p) <= |input|
    ensures Offset(input, p + BreakLength(input, p)) == Offset(input, p) + BreakSize(EncodeAll(input), Offset(input, p))
    ensures BreakCopy(EncodeAll(input), Offset(input, p)) == EncodeAll([BreakValue(input[p])])
  {
    hide EncodeAll, Offset, PrintableBytes, BreakBytes, BomBytes;
    var b, o, c := EncodeAll(input), Offset(input, p), input[p];
    OffsetNext(input, p);
    EncodeOne(BreakValue(c));
    BreakForms(c);
    hide Encode;
    ByteAt(input, p);
    Tests(input, p + 1);
    assert b[o] == b[o..Offset(input, p + 1)][0];
    if c == CR && Peek(input, p + 1) == LF { AsciiNext(input, p + 1); }
  }

  lemma BreakForms(c: Rune)
    requires Break(c)
    ensures |Encode(c)| == 3 <==> c == 0x2028 || c == 0x2029
    ensures Encode(c)[0] == 0xE2 <==> c == 0x2028 || c == 0x2029
    ensures Encode(LF) == [LF]
  {
  }

  // ----------------------------------------------------------------------------- escapes

  /** An escape, decoded; all of it is one byte per character. */
  method ReadEscape(buffer: seq<Byte>, o: nat, ghost input: seq<Rune>, ghost p: nat)
    returns (ok: bool, d: Rune, size: nat)
    requires buffer == EncodeAll(input) && p < |input| && o == Offset(input, p) && input[p] == BACKSLASH
    ensures ok <==> EscapeAt(input, p).Some?
    ensures ok ==> EscapeAt(input, p) == Some((d, p + size)) && 0 < size && p + size <= |input| && Offset(input, p + size) == o + size
  {
    hide EncodeAll, Offset, BlankByte, BreakAt, BlankZAt, BlankZ;
    AsciiNext(input, p);
    Tests(input, p + 1);
    ByteAt(input, p + 1);
    var l := At(buffer, o + 1);
    HighLetters(Peek(input, p + 1), l);
    var short := Unescape(l);
    if short.Some? {
      AsciiNext(input, p + 1);
      return true, short.value, 2;
    }
    var n := CodeLength(l);
    if n == 0 { return false, 0, 0; }
    AsciiNext(input, p + 1);
    var value := ReadHex(buffer, o + 2, n, input, p + 2);
    if value.None? || 0xD800 <= value.value <= 0xDFFF || value.value > 0x10FFFF { return false, 0, 0; }
    ok, d, size := true, value.value, 2 + n;
  }

  lemma HighLetters(c: Rune, l: Byte)
    requires (c <= 0x7F ==> l == c) && (c > 0x7F ==> l > 0x7F)
    ensures Unescape(l) == Unescape(c) && CodeLength(l) == CodeLength(c)
    ensures Unescape(l).Some? || CodeLength(l) > 0 ==> 0 < c <= 0x7F
  {
  }

  lemma HexTest(input: seq<Rune>, p: nat)
    requires p <= |input|
    ensures var x, c := At(EncodeAll(input), Offset(input, p)), Peek(input, p);
      (IsHex(x) <==> IsHex(c)) && (IsHex(c) ==> AsHex(x) == AsHex(c) && p < |input| && c <= 0x7F)
  {
    hide EncodeAll, Offset, PrintableBytes, BreakBytes, BomBytes, Encode;
    ByteAt(input, p);
  }

  method ReadHex(buffer: seq<Byte>, o: nat, n: nat, ghost input: seq<Rune>, ghost p: nat) returns (value: Option<nat>)
    requires buffer == EncodeAll(input) && p <= |input| && o == Offset(input, p)
    ensures match HexValue(input, p, n, 0)
      case None => value == None
      case Some(x) => value == Some(x)
    ensures value.Some? ==> p + n <= |input| && Offset(input, p + n) == o + n
  {
    hide EncodeAll, Offset, IsHex;
    var k, sum: nat := 0, 0;
    while k < n
      invariant 0 <= k <= n && p + k <= |input| && Offset(input, p + k) == o + k
      invariant HexValue(input, p, n, 0) == HexValue(input, p + k, n - k, sum)
    {
      HexTest(input, p + k);
      if !IsHex(At(buffer, o + k)) { return None; }
      AsciiNext(input, p + k);
      HexRange(At(buffer, o + k));
      sum := sum * 16 + AsHex(At(buffer, o + k));
      k := k + 1;
    }
    value := Some(sum);
  }

  lemma HexRange(x: Rune)
    requires IsHex(x)
    ensures 0 <= AsHex(x) < 16
  {
  }

  // --------------------------------------------------------------------------- the loops

  datatype Run = Run(at: nat, column: nat, s: seq<Byte>, breaking: bool, failed: bool)

  /** Non-blank characters up to a blank, a break, the closing quote or an escaped line break. */
  method ScanRun(buffer: seq<Byte>, start: nat, column0: nat, s0: seq<Byte>, ghost input: seq<Rune>, ghost p0: nat, ghost t0: seq<Rune>)
    returns (r: Run, ghost p: nat, ghost t: seq<Rune>)
    requires buffer == EncodeAll(input) && p0 <= |input| && start == Offset(input, p0) && s0 == EncodeAll(t0)
    ensures r.failed ==> ScanText(input, p0, column0, t0) == ScanError
    ensures !r.failed ==> p0 <= p <= |input| && r.at == Offset(input, p) && r.s == EncodeAll(t)
    ensures !r.failed && r.breaking ==> p > p0 && ScanText(input, p0, column0, t0) == ScanGap(input, p, r.column, t, Gap(true, [], [], []))
    ensures !r.failed && !r.breaking ==> ScanText(input, p0, column0, t0) == ScanText(input, p, r.column, t)
                                         && (BlankZ(Peek(input, p)) || Peek(input, p) == QUOTE)
  {
    hide EscapeAt, ScanGap, ScanText, EncodeAll, Encode, Offset, BlankByte, BreakAt, BlankZAt, BlankZ, Break, BreakSize;
    var at, column, s := start, column0, s0;
    p, t := p0, t0;
    Tests(input, p);
    while !BlankZAt(buffer, at)
      invariant p0 <= p <= |input| && at == Offset(input, p) && s == EncodeAll(t)
      invariant BlankZAt(buffer, at) <==> BlankZ(Peek(input, p))
      invariant ScanText(input, p0, column0, t0) == ScanText(input, p, column, t)
      decreases |input| - p
    {
      NotBlankZ(input, p);
      Tests(input, p);
      if At(buffer, at) == QUOTE {
        r := Run(at, column, s, false, false);
        return;
      }
      if At(buffer, at) == BACKSLASH {
        AsciiNext(input, p);
        Tests(input, p + 1);
        if BreakAt(buffer, at + 1) {
          BlankOrBreak(input, p + 1);
          LineRead(input, p + 1);
          EscapedBreak(input, p, column, t);
          r := Run(at + 1 + BreakSize(buffer, at + 1), 0, s, true, false);
          p := p + 1 + BreakLength(input, p + 1);
          return;
        }
        var ok, d, size := ReadEscape(buffer, at, input, p);
        Escaped(input, p, column, t);
        if !ok {
          r := Run(at, column, s, false, true);
          return;
        }
        EncodeMore(t, d);
        at, column, s := at + size, column + size, s + Encode(d);
        p, t := p + size, t + [d];
      } else {
        ScanRaw(input, p, column, t);
        OffsetNext(input, p);
        ByteAt(input, p);
        EncodeMore(t, input[p]);
        var next := at + Width(buffer[at]);
        at, column, s := next, column + 1, s + buffer[at..next];
        p, t := p + 1, t + [input[p]];
      }
      Tests(input, p);
    }
    r := Run(at, column, s, false, false);
  }

  lemma EscapedBreak(input: seq<Rune>, p: nat, column: nat, s: seq<Rune>)
    requires p < |input| && input[p] == BACKSLASH && Break(Peek(input, p + 1))
    ensures ScanText(input, p, column, s) == ScanGap(input, p + 1 + BreakLength(input, p + 1), 0, s, Gap(true, [], [], []))
  {
    hide ScanGap, EscapeAt;
  }

  lemma Escaped(input: seq<Rune>, p: nat, column: nat, s: seq<Rune>)
    requires p < |input| && input[p] == BACKSLASH && !Break(Peek(input, p + 1))
    ensures ScanText(input, p, column, s) == match EscapeAt(input, p)
      case None => ScanError
      case Some((d, q)) => ScanText(input, q, column + (q - p), s + [d])
  {
    hide ScanGap, EscapeAt;
  }

  lemma NotBlankZ(input: seq<Rune>, p: nat)
    requires !BlankZ(Peek(input, p))
    ensures p < |input| && input[p] != 0
  {
  }

  datatype ByteGap = ByteGap(breaking: bool, blanks: seq<Byte>, first: seq<Byte>, more: seq<Byte>)

  ghost predicate SameGap(b: ByteGap, g: Gap) {
    && b.breaking == g.breaking && b.blanks == EncodeAll(g.blanks) && b.first == EncodeAll(g.first) && b.more == EncodeAll(g.more)
  }

  function ByteGapText(g: ByteGap): seq<Byte> {
    if !g.breaking then g.blanks
    else if g.first != [] && g.first[0] == LF then (if g.more == [] then [SPACE] else g.more)
    else g.first + g.more
  }

  lemma GapCopied(b: ByteGap, g: Gap)
    requires SameGap(b, g)
    ensures ByteGapText(b) == EncodeAll(GapText(g))
  {
    EncodeOne(SPACE);
    EncodeConcat(g.first, g.more);
    NoneEncoded(g.first);
    NoneEncoded(g.more);
    if g.first != [] {
      OffsetNext(g.first, 0);
      ByteAt(g.first, 0);
      OffsetEnds(g.first);
    }
  }

  lemma NoneEncoded(t: seq<Rune>)
    ensures EncodeAll(t) == [] <==> t == []
  {
    OffsetEnds(t);
    OffsetGrows(t, 0, |t|);
  }

  /** Blanks and breaks between two runs of text. */
  method ScanBlanks(buffer: seq<Byte>, start: nat, column0: nat, gap: ByteGap,
                    ghost input: seq<Rune>, ghost p0: nat, ghost t: seq<Rune>, ghost g0: Gap)
    returns (at: nat, column: nat, g: ByteGap, ghost p: nat, ghost h: Gap)
    requires buffer == EncodeAll(input) && p0 <= |input| && start == Offset(input, p0) && SameGap(gap, g0)
    ensures p0 <= p <= |input| && at == Offset(input, p) && SameGap(g, h) && !Blank(Peek(input, p)) && !Break(Peek(input, p))
    ensures Blank(Peek(input, p0)) || Break(Peek(input, p0)) ==> p > p0
    ensures ScanGap(input, p0, column0, t, g0) == Scan(input, p, column, t + GapText(h))
  {
    hide Scan, GapText, EncodeAll, Offset, BlankByte, BreakAt, BlankZAt, Break, Blank, BreakSize, BreakCopy;
    at, column, g := start, column0, gap;
    p, h := p0, g0;
    Tests(input, p);
    while BlankByte(At(buffer, at)) || BreakAt(buffer, at)
      invariant p0 <= p <= |input| && at == Offset(input, p) && SameGap(g, h)
      invariant ScanGap(input, p0, column0, t, g0) == ScanGap(input, p, column, t, h)
      invariant p == p0 ==> column == column0 && g == gap && h == g0
      invariant BlankByte(At(buffer, at)) <==> Blank(Peek(input, p))
      invariant BreakAt(buffer, at) <==> Break(Peek(input, p))
      decreases |input| - p
    {
      BlankOrBreak(input, p);
      if BlankByte(At(buffer, at)) {
        OneByteBlank(input, p);
        if !g.breaking {
          EncodeMore(h.blanks, input[p]);
          g := g.(blanks := g.blanks + [At(buffer, at)]);
          h := h.(blanks := h.blanks + [input[p]]);
        }
        at, column, p := at + 1, column + 1, p + 1;
      } else {
        LineRead(input, p);
        var copy := BreakCopy(buffer, at);
        if !g.breaking {
          NoneEncoded([]);
          g := ByteGap(true, [], copy, []);
          h := Gap(true, [], [BreakValue(input[p])], []);
        } else {
          EncodeConcat(h.more, [BreakValue(input[p])]);
          g := g.(more := g.more + copy);
          h := h.(more := h.more + [BreakValue(input[p])]);
        }
        at, column := at + BreakSize(buffer, at), 0;
        p := p + BreakLength(input, p);
      }
      Tests(input, p);
    }
  }

  lemma BlankOrBreak(input: seq<Rune>, p: nat)
    requires Blank(Peek(input, p)) || Break(Peek(input, p))
    ensures p < |input|
  {
  }

  lemma OneByteBlank(input: seq<Rune>, p: nat)
    requires p < |input| && Blank(input[p])
    ensures Offset(input, p + 1) == Offset(input, p) + 1 && Encode(input[p]) == [At(EncodeAll(input), Offset(input, p))]
    ensures !Break(input[p])
  {
    hide EncodeAll, Offset, PrintableBytes, BreakBytes, BomBytes;
    AsciiNext(input, p);
    ByteAt(input, p);
  }

  // ------------------------------------------------------------------------- the scanner

  datatype Read = ReadText(value: seq<Byte>, end: nat) | ReadError

  /** The bytes read are those of the text scanned. */
  ghost predicate Reads(input: seq<Rune>, r: Read, x: Scanned) {
    match x
    case ScanError => r == ReadError
    case Text(v, e) => 0 <= e <= |input| && r == ReadText(EncodeAll(v), Offset(input, e))
  }

  /** The scanner for a double-quoted scalar whose opening quote stands at a place of the buffer. */
  method ScanDoubleQuoted(buffer: seq<Byte>, quote: nat, column0: nat, ghost input: seq<Rune>, ghost q: nat) returns (r: Read)
    requires buffer == EncodeAll(input) && q < |input| && input[q] == QUOTE && quote == Offset(input, q)
    ensures Reads(input, r, Scan(input, q + 1, column0 + 1, []))
  {
    hide ScanText, ScanGap, MarkerAt, GapText, EncodeAll, Offset, MarkerBytes, Reads, BlankZ, BlankByte, BreakAt, BlankZAt;
    AsciiNext(input, q);
    NoneEncoded([]);
    var at: nat, column: nat, s: seq<Byte> := quote + 1, column0 + 1, [];
    ghost var p: nat, t: seq<Rune> := q + 1, [];
    while true
      invariant p <= |input| && at == Offset(input, p) && s == EncodeAll(t)
      invariant Scan(input, q + 1, column0 + 1, []) == Scan(input, p, column, t)
      decreases |input| - p
    {
      Tests(input, p);
      MarkerTest(input, p);
      Refused(input);
      if column == 0 && MarkerBytes(buffer, at) { return ReadError; }
      if At(buffer, at) == 0 { return ReadError; }
      var run, e, u := ScanRun(buffer, at, column, s, input, p, t);
      if run.failed { return ReadError; }
      Tests(input, e);
      var gap := ByteGap(run.breaking, [], [], []);
      ghost var g0 := Gap(run.breaking, [], [], []);
      if At(buffer, run.at) == QUOTE {
        Closed(input, e, run.column, u, g0);
        AsciiNext(input, e);
        Taken(input, run.s, run.at + 1, u, e + 1);
        return ReadText(run.s, run.at + 1);
      }
      if !run.breaking {
        if At(buffer, run.at) == 0 {
          EndOfInput(input, e, run.column, u);
          return ReadError;
        }
        BlankThere(input, e);
        ScanBlank(input, e, run.column, u);
      }
      var next, col, g, e2, h := ScanBlanks(buffer, run.at, run.column, gap, input, e, u, g0);
      GapCopied(g, h);
      EncodeConcat(u, GapText(h));
      at, column, s := next, col, run.s + ByteGapText(g);
      p, t := e2, u + GapText(h);
    }
  }

  lemma Refused(input: seq<Rune>)
    ensures Reads(input, ReadError, ScanError)
  {
  }

  lemma Taken(input: seq<Rune>, s: seq<Byte>, end: nat, t: seq<Rune>, e: nat)
    requires s == EncodeAll(t) && e <= |input| && end == Offset(input, e)
    ensures Reads(input, ReadText(s, end), Text(t, e))
  {
  }

  lemma BlankThere(input: seq<Rune>, p: nat)
    requires BlankZ(Peek(input, p)) && Peek(input, p) != 0
    ensures Blank(Peek(input, p)) || Break(Peek(input, p))
    ensures p < |input| && input[p] != 0 && BlankZ(input[p])
  {
  }

  lemma Closed(input: seq<Rune>, p: nat, column: nat, s: seq<Rune>, g: Gap)
    requires Peek(input, p) == QUOTE && g == Gap(g.breaking, [], [], [])
    ensures ScanText(input, p, column, s) == Text(s, p + 1)
    ensures ScanGap(input, p, column, s, g) == Text(s, p + 1)
    ensures p < |input| && input[p] == QUOTE
  {
    hide ScanText, ScanGap;
    ScanQuote(input, p, column, s);
    GapEnds(input, p, column, s, g);
    assert s + GapText(g) == s;
  }

  lemma EndOfInput(input: seq<Rune>, p: nat, column: nat, s: seq<Rune>)
    requires Peek(input, p) == 0
    ensures ScanText(input, p, column, s) == ScanError
  {
  }

  // --------------------------------------------------------------------- the round trip

  /** Writing and then scanning, on bytes, end to end: every value comes back byte for byte. */
  method WriteThenScan(st: Style, value: seq<Byte>, column: nat, ghost v: seq<Rune>) returns (r: Read)
    requires st.indent > 0 && value == EncodeAll(v)
    ensures r.ReadText? && r.value == value
  {
    hide Body, Scan, EncodeAll, Offset;
    var e := new Emitter(st, column);
    e.WriteDoubleQuoted(value, v);
    ghost var body := Body(st, v, 0, column + 1, false);
    ghost var input := Around([QUOTE], st, v, column + 1, []);
    assert e.text == input && input[0] == QUOTE by {
      assert [] + [] + [QUOTE] + body + [QUOTE] == [QUOTE] + (body + ([QUOTE] + []));
    }
    RoundTrip([QUOTE], st, v, column + 1, []);
    OffsetEnds(input);
    r := ScanDoubleQuoted(e.out, 0, column, input, 0);
  }

  /** A scalar that the emitter writes, wherever it stands in a document, comes back byte for byte. */
  method EmitThenScan(emitter: YamlEmitter.Emitter, e: YamlEvents.Event, st: Style, value: seq<Byte>, column: nat, ghost v: seq<Rune>)
    returns (ok: bool, r: Read)
    requires YamlEmitter.Waits(emitter.states, emitter.indents, emitter.indent, emitter.flow) && emitter.Indenting()
    requires e.Scalar? && value == EncodeAll(v)
    modifies emitter
    ensures ok <==> YamlEmitter.Tagged(e)
    ensures ok ==> emitter.Valid() && r.ReadText? && r.value == value
  {
    hide EncodeAll, YamlEmitter.Right, YamlEmitter.Waits, YamlEmitter.Deeper;
    var margin: int;
    ok, margin := emitter.EmitScalar(e);
    r := ReadError;
    if ok { r := WriteThenScan(st.(indent := margin), value, column, v); }
  }
}
