/**
 * Double-quoted scalars: what the writer, which escapes and folds, writes and what the
 * scanner, which undoes both, reads, on code points; and the writer itself, on UTF-8 bytes.
 */
module QuotedScalar {
  import opened Utf8

  const QUOTE: Rune := 0x22
  const BACKSLASH: Rune := 0x5C
  const SPACE: Rune := 0x20
  const LF: Rune := 0x0A
  const CR: Rune := 0x0D

  datatype LineBreak = CrBreak | LnBreak | CrLnBreak

  function BreakText(b: LineBreak): seq<Rune> {
    match b
    case CrBreak => [CR]
    case LnBreak => [LF]
    case CrLnBreak => [CR, LF]
  }

  // ------------------------------------------------------------------ escapes

  /** The letter of a short escape, or zero. */
  function EscapeLetter(c: Rune): Rune {
    if c == 0x00 then 0x30
    else if c == 0x07 then 0x61
    else if c == 0x08 then 0x62
    else if c == 0x09 then 0x74
    else if c == 0x0A then 0x6E
    else if c == 0x0B then 0x76
    else if c == 0x0C then 0x66
    else if c == 0x0D then 0x72
    else if c == 0x1B then 0x65
    else if c == 0x22 then 0x22
    else if c == 0x5C then 0x5C
    else if c == 0x85 then 0x4E
    else if c == 0xA0 then 0x5F
    else if c == 0x2028 then 0x4C
    else if c == 0x2029 then 0x50
    else 0
  }

  datatype Option<T> = None | Some(value: T)

  /** What a short escape stands for. */
  function Unescape(l: Rune): Option<Rune> {
    if l == 0x30 then Some(0x00)
    else if l == 0x61 then Some(0x07)
    else if l == 0x62 then Some(0x08)
    else if l == 0x74 || l == 0x09 then Some(0x09)
    else if l == 0x6E then Some(0x0A)
    else if l == 0x76 then Some(0x0B)
    else if l == 0x66 then Some(0x0C)
    else if l == 0x72 then Some(0x0D)
    else if l == 0x65 then Some(0x1B)
    else if l == 0x20 then Some(0x20)
    else if l == 0x22 then Some(0x22)
    else if l == 0x27 then Some(0x27)
    else if l == 0x5C then Some(0x5C)
    else if l == 0x4E then Some(0x85)
    else if l == 0x5F then Some(0xA0)
    else if l == 0x4C then Some(0x2028)
    else if l == 0x50 then Some(0x2029)
    else None
  }

  /** Number of hexadecimal digits after \x, \u and \U. */
  function CodeLength(l: Rune): nat {
    if l == 0x78 then 2 else if l == 0x75 then 4 else if l == 0x55 then 8 else 0
  }

  function HexDigit(d: int): Rune
    requires 0 <= d < 16
  {
    if d < 10 then 0x30 + d else 0x41 + d - 10
  }

  /** v shifted right by k hexadecimal places. */
  function Shift(v: nat, k: nat): nat { if k == 0 then v else Shift(v, k - 1) / 16 }

  /** The lowest n hexadecimal digits of v, highest first. */
  function Digits(v: nat, n: nat): (r: seq<Rune>)
    ensures |r| == n
  {
    if n == 0 then [] else [HexDigit(Shift(v, n - 1) % 16)] + Digits(v, n - 1)
  }

  function Escape(c: Rune): (r: seq<Rune>)
    ensures |r| >= 2 && r[0] == BACKSLASH
  {
    var l := EscapeLetter(c);
    [BACKSLASH] +
    if l != 0 then [l]
    else if c <= 0xFF then [0x78] + Digits(c, 2)
    else if c <= 0xFFFF then [0x75] + Digits(c, 4)
    else [0x55] + Digits(c, 8)
  }

  // ------------------------------------------------------------------- the writer

  datatype Style = Style(unicode: bool, allowBreaks: bool, bestWidth: int, indent: int, lineBreak: LineBreak)

  function Margin(st: Style): nat { if st.indent < 0 then 0 else st.indent }

  function Repeat(c: Rune, n: nat): (r: seq<Rune>)
    ensures |r| == n && forall i :: 0 <= i < n ==> r[i] == c
  {
    seq(n, _ => c)
  }

  /** The byte order mark test looks at the start of the value, whatever character is at hand. */
  predicate StartsWithBom(v: seq<Rune>) { v != [] && v[0] == 0xFEFF }

  predicate NeedsEscape(st: Style, v: seq<Rune>, c: Rune) {
    !Printable(c) || (!st.unicode && c > 0x7F) || StartsWithBom(v) || Break(c) || c == QUOTE || c == BACKSLASH
  }

  /** A single space past the line width, not at either end of the value, is written as a line break. */
  predicate Folds(st: Style, v: seq<Rune>, i: nat, column: nat, spaces: bool) {
    st.allowBreaks && !spaces && column > st.bestWidth && i > 0 && i < |v| - 1
  }

  function FoldText(st: Style, v: seq<Rune>, i: nat): seq<Rune>
    requires i + 1 < |v|
  {
    BreakText(st.lineBreak) + Repeat(SPACE, Margin(st)) + if v[i + 1] == SPACE then [BACKSLASH] else []
  }

  function FoldColumn(st: Style, v: seq<Rune>, i: nat): nat
    requires i + 1 < |v|
  {
    Margin(st) + if v[i + 1] == SPACE then 1 else 0
  }

  /** What is written for v from place i on. */
  function Body(st: Style, v: seq<Rune>, i: nat, column: nat, spaces: bool): seq<Rune>
    requires i <= |v|
    decreases |v| - i
  {
    if i == |v| then []
    else if NeedsEscape(st, v, v[i]) then Escape(v[i]) + Body(st, v, i + 1, column + |Escape(v[i])|, false)
    else if v[i] == SPACE then
      if Folds(st, v, i, column, spaces) then FoldText(st, v, i) + Body(st, v, i + 1, FoldColumn(st, v, i), true)
      else [SPACE] + Body(st, v, i + 1, column + 1, true)
    else [v[i]] + Body(st, v, i + 1, column + 1, false)
  }

  // The tests of the writer on the bytes of a value.

  predicate NeedsEscapeBytes(st: Style, value: seq<Byte>, at: nat)
    requires at < |value|
  {
    || !PrintableBytes(value[at..]) || (!st.unicode && value[at] > 0x7F) || BomBytes(value)
    || BreakBytes(value[at..]) || value[at] == QUOTE || value[at] == BACKSLASH
  }

  /** The byte tests decide what is escaped. */
  lemma EscapeTests(st: Style, v: seq<Rune>, i: nat)
    requires i < |v|
    ensures Offset(v, i) < |EncodeAll(v)|
    ensures NeedsEscapeBytes(st, EncodeAll(v), Offset(v, i)) <==> NeedsEscape(st, v, v[i])
  {
    hide EncodeAll, Offset, PrintableBytes, BreakBytes, BomBytes, Encode, Printable;
    ByteAt(v, i);
    ByteAt(v, 0);
    OffsetEnds(v);
    assert EncodeAll(v)[0..] == EncodeAll(v);
  }

  /** A space inside the value, in bytes and in characters. */
  lemma SpaceTests(v: seq<Rune>, i: nat)
    requires i < |v|
    ensures var b, o := EncodeAll(v), Offset(v, i);
      && o < |b| && (b[o] == SPACE <==> v[i] == SPACE) && (o > 0 <==> i > 0)
      && (v[i] == SPACE ==> Offset(v, i + 1) == o + 1 && (o < |b| - 1 <==> i < |v| - 1))
      && (v[i] == SPACE && i + 1 < |v| ==> (b[o + 1] == SPACE <==> v[i + 1] == SPACE))
  {
    hide EncodeAll, Offset, Encode;
    ByteAt(v, i);
    OffsetEnds(v);
    OffsetGrows(v, 0, i);
    if v[i] == SPACE {
      AsciiNext(v, i);
      OffsetGrows(v, i + 1, |v|);
      if i + 1 < |v| { ByteAt(v, i + 1); }
    }
  }

  /** The output side of the emitter: bytes, and the text they encode. */
  class Emitter {
    const style: Style
    var out: seq<Byte>
    var column: nat
    var whitespace: bool
    var indention: bool
    ghost var text: seq<Rune>

    ghost predicate Valid()
      reads this`out, this`text
    {
      out == EncodeAll(text)
    }

    constructor (style: Style, column: nat)
      ensures Valid() && this.style == style && this.column == column && text == [] && whitespace
    {
      this.style, this.column, out, text, whitespace, indention := style, column, [], [], true, false;
    }

    method Put(c: Byte)
      requires Valid() && c < 0x80
      modifies this`out, this`text, this`column
      ensures Valid() && text == old(text) + [c] && column == old(column) + 1
    {
      hide EncodeAll;
      EncodeMore(text, c);
      out := out + [c];
      text := text + [c];
      column := column + 1;
    }

    /** Copies the character at a place of the value. */
    method Copy(value: seq<Byte>, at: nat, ghost v: seq<Rune>, ghost i: nat) returns (next: nat)
      requires Valid() && value == EncodeAll(v) && i < |v| && at == Offset(v, i)
      modifies this`out, this`text, this`column
      ensures Valid() && text == old(text) + [v[i]] && column == old(column) + 1 && next == Offset(v, i + 1)
    {
      hide EncodeAll, Offset, Encode, PrintableBytes, BreakBytes, BomBytes;
      ByteAt(v, i);
      OffsetNext(v, i);
      EncodeMore(text, v[i]);
      next := at + Width(value[at]);
      out := out + value[at..next];
      text := text + [v[i]];
      column := column + 1;
    }

    method PutBreak()
      requires Valid()
      modifies this`out, this`text, this`column
      ensures Valid() && text == old(text) + BreakText(style.lineBreak) && column == 0
    {
      hide EncodeAll;
      match style.lineBreak {
        case CrBreak => Put(CR);
        case LnBreak => Put(LF);
        case CrLnBreak => Put(CR); Put(LF);
      }
      column := 0;
    }

    method WriteIndicator(c: Byte, needWhitespace: bool)
      requires Valid() && c < 0x80
      modifies this
      ensures Valid() && text == old(text) + (if needWhitespace && !old(whitespace) then [SPACE] else []) + [c]
      ensures column == old(column) + (if needWhitespace && !old(whitespace) then 2 else 1)
      ensures !whitespace && !indention
    {
      hide EncodeAll;
      if needWhitespace && !whitespace {
        Put(SPACE);
      }
      Put(c);
      whitespace := false;
      indention := false;
    }

    /** Goes to the margin of a new line, unless the line holds only indentation already. */
    method WriteIndent()
      requires Valid()
      modifies this
      ensures Valid() && whitespace && indention && column == Margin(style)
      ensures var margin := Margin(style);
        if !old(indention) || old(column) > margin || (old(column) == margin && !old(whitespace))
        then text == old(text) + BreakText(style.lineBreak) + Repeat(SPACE, margin)
        else text == old(text) + Repeat(SPACE, margin - old(column))
    {
      hide EncodeAll;
      var indent := if style.indent < 0 then 0 else style.indent;
      if !indention || column > indent || (column == indent && !whitespace) {
        PutBreak();
      }
      ghost var line, from := text, column;
      assert line + Repeat(SPACE, 0) == line;
      while column < indent
        invariant Valid() && from <= column <= indent && text == line + Repeat(SPACE, column - from)
      {
        assert Repeat(SPACE, column - from) + [SPACE] == Repeat(SPACE, column - from + 1);
        Put(SPACE);
      }
      whitespace := true;
      indention := true;
    }

    /** A code, digit by digit, highest first. */
    method WriteHex(c: nat, w: nat)
      requires Valid()
      modifies this`out, this`text, this`column
      ensures Valid() && text == old(text) + Digits(c, w) && column == old(column) + w
    {
      hide EncodeAll;
      var k := w;
      while k > 0
        invariant Valid() && 0 <= k <= w && column == old(column) + (w - k)
        invariant text + Digits(c, k) == old(text) + Digits(c, w)
      {
        hide Shift;
        var digit := Shift(c, k - 1) % 16;
        ghost var before := text;
        Put(HexDigit(digit));
        Regroup(before, [HexDigit(digit)], Digits(c, k - 1));
        k := k - 1;
      }
    }

    method WriteCode(x: Byte, c: nat, w: nat)
      requires Valid() && x < 0x80
      modifies this`out, this`text, this`column
      ensures Valid() && text == old(text) + ([x] + Digits(c, w)) && column == old(column) + 1 + w
    {
      hide Digits, EncodeAll;
      Put(x);
      WriteHex(c, w);
      Regroup(old(text), [x], Digits(c, w));
    }

    method WriteEscape(c: Rune)
      requires Valid()
      modifies this`out, this`text, this`column
      ensures Valid() && text == old(text) + Escape(c) && column == old(column) + |Escape(c)|
    {
      hide Digits, EscapeLetter, EncodeAll;
      Put(BACKSLASH);
      var l := EscapeLetter(c);
      ghost var rest := [l];
      LetterIsAscii(c);
      if l != 0 {
        Put(l);
      } else if c <= 0xFF {
        WriteCode(0x78, c, 2);
        rest := [0x78] + Digits(c, 2);
      } else if c <= 0xFFFF {
        WriteCode(0x75, c, 4);
        rest := [0x75] + Digits(c, 4);
      } else {
        WriteCode(0x55, c, 8);
        rest := [0x55] + Digits(c, 8);
      }
      Regroup(old(text), [BACKSLASH], rest);
    }

    /** After a fold the cursor is not left of the margin, and only on it before any text. */
    ghost predicate AtText(spaces: bool)
      reads this`indention, this`column
    {
      indention ==> column >= Margin(style) && (column > Margin(style) || spaces)
    }

    /** The character at a place, decoded and written as an escape. */
    method WriteDecoded(value: seq<Byte>, at: nat, ghost v: seq<Rune>, ghost i: nat) returns (next: nat)
      requires Valid() && value == EncodeAll(v) && i < |v| && at == Offset(v, i)
      modifies this`out, this`text, this`column
      ensures Valid() && text == old(text) + Escape(v[i]) && column == old(column) + |Escape(v[i])| && next == Offset(v, i + 1)
    {
      hide EncodeAll, Offset, Encode, Escape, Decode, PrintableBytes, BreakBytes, BomBytes;
      ByteAt(v, i);
      OffsetNext(v, i);
      DecodeUndoesEncode(v[i]);
      next := at + Width(value[at]);
      var c := Decode(value[at..next]);
      WriteEscape(c);
    }

    /** One character of the value: escaped, folded into a line break, or as it is. */
    method WriteCharacter(value: seq<Byte>, at: nat, spaces: bool, ghost v: seq<Rune>, ghost i: nat)
      returns (next: nat, nowSpaces: bool)
      requires Valid() && value == EncodeAll(v) && i < |v| && at == Offset(v, i) && AtText(spaces)
      modifies this
      ensures Valid() && AtText(nowSpaces) && next == Offset(v, i + 1)
      ensures text + Body(style, v, i + 1, column, nowSpaces) == old(text) + Body(style, v, i, old(column), spaces)
    {
      hide Body, Escape, NeedsEscape, FoldText, EncodeAll, Offset, NeedsEscapeBytes;
      ghost var before := text;
      BodyStep(style, v, i, column, spaces);
      EscapeTests(style, v, i);
      SpaceTests(v, i);
      if NeedsEscapeBytes(style, value, at) {
        next := WriteDecoded(value, at, v, i);
        nowSpaces := false;
        Regroup(before, Escape(v[i]), Body(style, v, i + 1, column, false));
      } else if value[at] == SPACE {
        if style.allowBreaks && !spaces && column > style.bestWidth && at > 0 && at < |value| - 1 {
          WriteFold(value, at, v, i);
          next := at + 1;
          Regroup(before, FoldText(style, v, i), Body(style, v, i + 1, column, true));
        } else {
          next := Copy(value, at, v, i);
          Regroup(before, [SPACE], Body(style, v, i + 1, column, true));
        }
        nowSpaces := true;
      } else {
        next := Copy(value, at, v, i);
        nowSpaces := false;
        Regroup(before, [v[i]], Body(style, v, i + 1, column, false));
      }
    }

    /** A line break in place of a space; a backslash protects a space that would start the line. */
    method WriteFold(value: seq<Byte>, at: nat, ghost v: seq<Rune>, ghost i: nat)
      requires Valid() && value == EncodeAll(v) && i + 1 < |v| && at == Offset(v, i) && v[i] == SPACE && at + 1 < |value|
      requires !indention || column > Margin(style)
      modifies this
      ensures Valid() && text == old(text) + FoldText(style, v, i) && column == FoldColumn(style, v, i) && indention
    {
      hide EncodeAll, Offset;
      SpaceTests(v, i);
      WriteIndent();
      if value[at + 1] == SPACE {
        Put(BACKSLASH);
      }
    }

    /** Writes a value, given by its UTF-8 bytes, between double quotes. */
    method WriteDoubleQuoted(value: seq<Byte>, ghost v: seq<Rune>)
      requires Valid() && value == EncodeAll(v)
      modifies this
      ensures Valid()
      ensures var lead := if old(whitespace) then [] else [SPACE];
              text == old(text) + lead + [QUOTE] + Body(style, v, 0, old(column) + |lead| + 1, false) + [QUOTE]
    {
      hide Body, EncodeAll, Offset;
      var spaces := false;
      WriteIndicator(QUOTE, true);
      ghost var start, col := text, column;
      var at := 0;
      ghost var i := 0;
      OffsetEnds(v);
      while at < |value|
        invariant Valid() && 0 <= i <= |v| && at == Offset(v, i) && AtText(spaces)
        invariant text + Body(style, v, i, column, spaces) == start + Body(style, v, 0, col, false)
        decreases |v| - i
      {
        at, spaces := WriteCharacter(value, at, spaces, v, i);
        i := i + 1;
      }
      OffsetGrows(v, i, |v|);
      BodyEnd(style, v, column, spaces);
      WriteIndicator(QUOTE, false);
    }
  }

  lemma LetterIsAscii(c: Rune)
    ensures EscapeLetter(c) < 0x80
  {
  }

  lemma Regroup<T>(a: seq<T>, b: seq<T>, c: seq<T>)
    ensures (a + b) + c == a + (b + c)
  {
  }

  lemma BodyStep(st: Style, v: seq<Rune>, i: nat, column: nat, spaces: bool)
    requires i < |v|
    ensures Body(st, v, i, column, spaces) ==
      if NeedsEscape(st, v, v[i]) then Escape(v[i]) + Body(st, v, i + 1, column + |Escape(v[i])|, false)
      else if v[i] == SPACE then
        if Folds(st, v, i, column, spaces) then FoldText(st, v, i) + Body(st, v, i + 1, FoldColumn(st, v, i), true)
        else [SPACE] + Body(st, v, i + 1, column + 1, true)
      else [v[i]] + Body(st, v, i + 1, column + 1, false)
  {
    hide Escape, NeedsEscape, FoldText;
  }

  lemma BodyEnd(st: Style, v: seq<Rune>, column: nat, spaces: bool)
    ensures Body(st, v, |v|, column, spaces) == []
  {
  }

  // ------------------------------------------------------------------ the scanner

  /** The buffer reads as zero past the end of input. */
  function Peek(input: seq<Rune>, p: nat): Rune { if p < |input| then input[p] else 0 }

  datatype Scanned = Text(value: seq<Rune>, end: int) | ScanError

  /** A document marker: three dashes or dots and then a blank, a break or the end. */
  predicate MarkerAt(input: seq<Rune>, p: nat) {
    && (Peek(input, p) == 0x2D || Peek(input, p) == 0x2E)
    && Peek(input, p + 1) == Peek(input, p) && Peek(input, p + 2) == Peek(input, p)
    && BlankZ(Peek(input, p + 3))
  }

  predicate IsHex(c: Rune) { 0x30 <= c <= 0x39 || 0x41 <= c <= 0x46 || 0x61 <= c <= 0x66 }

  function AsHex(c: Rune): int {
    if 0x41 <= c <= 0x46 then c - 0x41 + 10 else if 0x61 <= c <= 0x66 then c - 0x61 + 10 else c - 0x30
  }

  function HexValue(input: seq<Rune>, p: nat, n: nat, acc: int): Option<int>
    decreases n
  {
    if n == 0 then Some(acc)
    else if !IsHex(Peek(input, p)) then None
    else HexValue(input, p + 1, n - 1, acc * 16 + AsHex(Peek(input, p)))
  }

  /** The character an escape stands for and where it ends; None when it is not one. */
  function EscapeAt(input: seq<Rune>, p: nat): Option<(Rune, nat)> {
    var l := Peek(input, p + 1);
    if Unescape(l).Some? then Some((Unescape(l).value, p + 2))
    else if CodeLength(l) == 0 then None
    else match HexValue(input, p + 2, CodeLength(l), 0)
      case None => None
      case Some(v) =>
        if v < 0 || (0xD800 <= v <= 0xDFFF) || v > 0x10FFFF then None else Some((v, p + 2 + CodeLength(l)))
  }

  /** Length of the line break at p: CR LF counts as one break of two characters. */
  function BreakLength(input: seq<Rune>, p: nat): nat {
    if Peek(input, p) == CR && Peek(input, p + 1) == LF then 2 else 1
  }

  /** A break as it enters the value: CR, LF, CR LF and NEL become LF. */
  function BreakValue(c: Rune): Rune { if c == 0x2028 || c == 0x2029 then c else LF }

  /** The pieces a run of blanks and breaks is collected in. */
  datatype Gap = Gap(breaking: bool, blanks: seq<Rune>, first: seq<Rune>, more: seq<Rune>)

  /** What a gap contributes: its blanks, one space for a single break, or the further breaks. */
  function GapText(g: Gap): seq<Rune> {
    if !g.breaking then g.blanks
    else if g.first != [] && g.first[0] == LF then (if g.more == [] then [SPACE] else g.more)
    else g.first + g.more
  }

  /** The scanner from the head of its outer loop. */
  function Scan(input: seq<Rune>, p: nat, column: nat, s: seq<Rune>): Scanned
    decreases if p < |input| then |input| - p else 0, 2
  {
    if column == 0 && MarkerAt(input, p) then ScanError
    else if Peek(input, p) == 0 then ScanError
    else ScanText(input, p, column, s)
  }

  function ScanText(input: seq<Rune>, p: nat, column: nat, s: seq<Rune>): Scanned
    decreases if p < |input| then |input| - p else 0, 1
  {
    if p >= |input| then ScanError
    else
      var c := input[p];
      if c == 0 then ScanError
      else if BlankZ(c) then ScanGap(input, p, column, s, Gap(false, [], [], []))
      else if c == QUOTE then Text(s, p + 1)
      else if c == BACKSLASH && Break(Peek(input, p + 1)) then
        ScanGap(input, p + 1 + BreakLength(input, p + 1), 0, s, Gap(true, [], [], []))
      else if c == BACKSLASH then
        match EscapeAt(input, p)
        case None => ScanError
        case Some((d, q)) => ScanText(input, q, column + (q - p), s + [d])
      else ScanText(input, p + 1, column + 1, s + [c])
  }

  function ScanGap(input: seq<Rune>, p: nat, column: nat, s: seq<Rune>, g: Gap): Scanned
    decreases if p < |input| then |input| - p else 0, if p < |input| && (Blank(input[p]) || Break(input[p])) then 0 else 3
  {
    var c := Peek(input, p);
    if Blank(c) then ScanGap(input, p + 1, column + 1, s, if g.breaking then g else g.(blanks := g.blanks + [c]))
    else if Break(c) then
      ScanGap(input, p + BreakLength(input, p), 0, s,
              if g.breaking then g.(more := g.more + [BreakValue(c)]) else Gap(true, [], [BreakValue(c)], []))
    else Scan(input, p, column, s + GapText(g))
  }
}
