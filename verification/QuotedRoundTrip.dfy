/** Scanning what the double-quoted writer wrote gives the value back, and exactly when. */
module QuotedRoundTrip {
  import opened Utf8
  import opened QuotedScalar

  /** The text t is what is left of the input at p. */
  ghost predicate Here(input: seq<Rune>, p: nat, t: seq<Rune>) { p <= |input| && input[p..] == t }

  lemma HereAt(input: seq<Rune>, p: nat, t: seq<Rune>, j: nat)
    requires Here(input, p, t) && j <= |t|
    ensures Here(input, p + j, t[j..]) && (j < |t| ==> Peek(input, p + j) == t[j])
    ensures |input| == p + |t|
  {
    assert input[p + j..] == input[p..][j..];
    if j < |t| { assert input[p + j] == input[p..][j]; }
  }

  lemma HereSkip(input: seq<Rune>, p: nat, a: seq<Rune>, b: seq<Rune>)
    requires Here(input, p, a + b)
    ensures Here(input, p + |a|, b)
    ensures forall j :: 0 <= j < |a| ==> Peek(input, p + j) == a[j]
  {
    HereAt(input, p, a + b, |a|);
    assert (a + b)[|a|..] == b;
    forall j | 0 <= j < |a| ensures Peek(input, p + j) == a[j] { HereAt(input, p, a + b, j); }
  }

  // -------------------------------------------------------------------- escapes

  lemma HexDigitBack(d: int)
    requires 0 <= d < 16
    ensures IsHex(HexDigit(d)) && AsHex(HexDigit(d)) == d
  {
  }

  /** The digits of a code read back as the code. */
  lemma {:induction false} DigitsBack(input: seq<Rune>, p: nat, v: nat, n: nat, rest: seq<Rune>)
    requires Here(input, p, Digits(v, n) + rest)
    ensures HexValue(input, p, n, Shift(v, n)) == Some(v)
    decreases n
  {
    hide HexDigit, IsHex, AsHex;
    if n > 0 {
      HexDigitBack(Shift(v, n - 1) % 16);
      HereAt(input, p, Digits(v, n) + rest, 1);
      HereAt(input, p, Digits(v, n) + rest, 0);
      assert (Digits(v, n) + rest)[1..] == Digits(v, n - 1) + rest;
      DigitsBack(input, p + 1, v, n - 1, rest);
    }
  }

  lemma ShiftValues(v: nat)
    ensures v <= 0xFF ==> Shift(v, 2) == 0
    ensures v <= 0xFFFF ==> Shift(v, 4) == 0
    ensures v <= 0xFFFF_FFFF ==> Shift(v, 8) == 0
  {
    assert Shift(v, 1) == v / 16 && Shift(v, 2) == v / 0x100 && Shift(v, 3) == v / 0x1000 && Shift(v, 4) == v / 0x10000;
    assert Shift(v, 5) == v / 0x100000 && Shift(v, 6) == v / 0x1000000 && Shift(v, 7) == v / 0x10000000;
  }

  lemma LetterBack(c: Rune)
    requires EscapeLetter(c) != 0
    ensures Unescape(EscapeLetter(c)) == Some(c) && !Break(EscapeLetter(c))
  {
  }

  /** Every escape sequence stands for the character it was written for. */
  lemma EscapeBack(input: seq<Rune>, p: nat, c: Rune, rest: seq<Rune>)
    requires Here(input, p, Escape(c) + rest)
    ensures Peek(input, p) == BACKSLASH && !Break(Peek(input, p + 1))
    ensures EscapeAt(input, p) == Some((c, p + |Escape(c)|))
    ensures Here(input, p + |Escape(c)|, rest)
  {
    hide EscapeLetter, Unescape, Digits;
    HereSkip(input, p, Escape(c), rest);
    var l := EscapeLetter(c);
    if l != 0 {
      LetterBack(c);
    } else if c <= 0xFF {
      assert [BACKSLASH] + ([0x78] + Digits(c, 2)) == [BACKSLASH, 0x78] + Digits(c, 2);
      CodeBack(input, p, c, 0x78, rest);
    } else if c <= 0xFFFF {
      assert [BACKSLASH] + ([0x75] + Digits(c, 4)) == [BACKSLASH, 0x75] + Digits(c, 4);
      CodeBack(input, p, c, 0x75, rest);
    } else {
      assert [BACKSLASH] + ([0x55] + Digits(c, 8)) == [BACKSLASH, 0x55] + Digits(c, 8);
      CodeBack(input, p, c, 0x55, rest);
    }
  }

  lemma CodeBack(input: seq<Rune>, p: nat, c: Rune, x: Rune, rest: seq<Rune>)
    requires x == 0x78 || x == 0x75 || x == 0x55
    requires c <= (if x == 0x78 then 0xFF else if x == 0x75 then 0xFFFF else 0x10FFFF)
    requires Here(input, p, [BACKSLASH, x] + Digits(c, CodeLength(x)) + rest)
    ensures Peek(input, p + 1) == x && !Break(x) && EscapeAt(input, p) == Some((c, p + 2 + CodeLength(x)))
  {
    hide Digits, HexValue, Shift, Unescape;
    var n := CodeLength(x);
    assert [BACKSLASH, x] + Digits(c, n) + rest == [BACKSLASH, x] + (Digits(c, n) + rest);
    HereSkip(input, p, [BACKSLASH, x], Digits(c, n) + rest);
    assert Peek(input, p + 1) == [BACKSLASH, x][1];
    CodeLetters(x);
    DigitsBack(input, p + 2, c, n, rest);
    ShiftValues(c);
  }

  lemma CodeLetters(x: Rune)
    requires x == 0x78 || x == 0x75 || x == 0x55
    ensures Unescape(x) == None && !Break(x)
  {
  }

  // ------------------------------------------------------------- what the writer leaves

  /** Everything still to be scanned when the writer stands at place i. */
  function Written(st: Style, v: seq<Rune>, i: nat, column: nat, spaces: bool, tail: seq<Rune>): seq<Rune>
    requires i <= |v|
  {
    Body(st, v, i, column, spaces) + ([QUOTE] + tail)
  }

  predicate RawSpace(st: Style, v: seq<Rune>, i: nat) {
    i < |v| && v[i] == SPACE && !NeedsEscape(st, v, SPACE)
  }

  /** The written text starts with a blank or a break only for an unescaped space. */
  lemma FirstCharacter(st: Style, v: seq<Rune>, i: nat, column: nat, spaces: bool, tail: seq<Rune>)
    requires i <= |v|
    ensures var w := Written(st, v, i, column, spaces, tail);
      && w != [] && (BlankZ(w[0]) <==> RawSpace(st, v, i))
      && (forall d :: d == 0x2D || d == 0x2E ==> (w[0] == d <==> i < |v| && v[i] == d && !NeedsEscape(st, v, d)))
  {
    hide Escape;
    if i == |v| {
      BodyEnd(st, v, column, spaces);
    } else {
      BodyStep(st, v, i, column, spaces);
    }
  }

  /** An unescaped character other than a space is written as itself. */
  lemma RawCharacter(st: Style, v: seq<Rune>, i: nat, column: nat, spaces: bool, tail: seq<Rune>)
    requires i < |v| && !NeedsEscape(st, v, v[i]) && v[i] != SPACE
    ensures Written(st, v, i, column, spaces, tail) == [v[i]] + Written(st, v, i + 1, column + 1, false, tail)
  {
    hide Escape, NeedsEscape;
    BodyStep(st, v, i, column, spaces);
    Regroup([v[i]], Body(st, v, i + 1, column + 1, false), [QUOTE] + tail);
  }

  // ------------------------------------------------------------------ markers at a fold

  /** A word of three dashes or dots followed by a space starts at place k. */
  predicate MarkerWord(v: seq<Rune>, k: nat) {
    k + 3 < |v| && (v[k] == 0x2D || v[k] == 0x2E) && v[k + 1] == v[k] && v[k + 2] == v[k] && v[k + 3] == SPACE
  }

  lemma DashIsRaw(st: Style, v: seq<Rune>, d: Rune)
    requires !StartsWithBom(v) && (d == 0x2D || d == 0x2E || d == SPACE)
    ensures !NeedsEscape(st, v, d)
  {
  }

  /** On a line without margin the scanner sees a document marker exactly where the value has a marker word. */
  lemma MarkerSeen(st: Style, v: seq<Rune>, k: nat, column: nat, spaces: bool, tail: seq<Rune>, input: seq<Rune>, p: nat)
    requires k <= |v| && !StartsWithBom(v) && Here(input, p, Written(st, v, k, column, spaces, tail))
    ensures MarkerAt(input, p) <==> MarkerWord(v, k)
  {
    hide NeedsEscape, Body, Written, BlankZ;
    DashIsRaw(st, v, 0x2D);
    DashIsRaw(st, v, 0x2E);
    DashIsRaw(st, v, SPACE);
    var p0, p1, p2, p3 := Peek(input, p), Peek(input, p + 1), Peek(input, p + 2), Peek(input, p + 3);
    OneMore(st, v, k, column, spaces, tail, input, p);
    if k < |v| && (v[k] == 0x2D || v[k] == 0x2E) {
      OneMore(st, v, k + 1, column + 1, false, tail, input, p + 1);
      if k + 1 < |v| && v[k + 1] == v[k] {
        OneMore(st, v, k + 2, column + 2, false, tail, input, p + 2);
        if k + 2 < |v| && v[k + 2] == v[k] {
          OneMore(st, v, k + 3, column + 3, false, tail, input, p + 3);
        }
      }
    }
  }

  lemma OneMore(st: Style, v: seq<Rune>, k: nat, column: nat, spaces: bool, tail: seq<Rune>, input: seq<Rune>, p: nat)
    requires k <= |v| && !StartsWithBom(v) && Here(input, p, Written(st, v, k, column, spaces, tail))
    ensures BlankZ(Peek(input, p)) <==> k < |v| && v[k] == SPACE
    ensures Peek(input, p) == 0x2D <==> k < |v| && v[k] == 0x2D
    ensures Peek(input, p) == 0x2E <==> k < |v| && v[k] == 0x2E
    ensures k < |v| && (v[k] == 0x2D || v[k] == 0x2E) ==> Here(input, p + 1, Written(st, v, k + 1, column + 1, false, tail))
  {
    hide Body, Written;
    DashIsRaw(st, v, 0x2D);
    DashIsRaw(st, v, 0x2E);
    DashIsRaw(st, v, SPACE);
    var w := Written(st, v, k, column, spaces, tail);
    FirstCharacter(st, v, k, column, spaces, tail);
    HereAt(input, p, w, 0);
    if k < |v| && (v[k] == 0x2D || v[k] == 0x2E) {
      RawCharacter(st, v, k, column, spaces, tail);
      HereSkip(input, p, [v[k]], Written(st, v, k + 1, column + 1, false, tail));
    }
  }

  /**
   * No fold puts a marker word at the very start of a line. With any margin this
   * holds; without one it is a property of the value and the line width.
   */
  predicate Clear(st: Style, v: seq<Rune>, i: nat, column: nat, spaces: bool)
    requires i <= |v|
    decreases |v| - i
  {
    if i == |v| then true
    else if NeedsEscape(st, v, v[i]) then Clear(st, v, i + 1, column + |Escape(v[i])|, false)
    else if v[i] != SPACE then Clear(st, v, i + 1, column + 1, false)
    else if Folds(st, v, i, column, spaces) then
      (Margin(st) > 0 || !MarkerWord(v, i + 1)) && Clear(st, v, i + 1, FoldColumn(st, v, i), true)
    else Clear(st, v, i + 1, column + 1, true)
  }

  lemma {:induction false} MarginClears(st: Style, v: seq<Rune>, i: nat, column: nat, spaces: bool)
    requires i <= |v| && Margin(st) > 0
    ensures Clear(st, v, i, column, spaces)
    decreases |v| - i
  {
    hide NeedsEscape, Escape;
    if i < |v| {
      if NeedsEscape(st, v, v[i]) {
        MarginClears(st, v, i + 1, column + |Escape(v[i])|, false);
      } else if v[i] != SPACE {
        MarginClears(st, v, i + 1, column + 1, false);
      } else if Folds(st, v, i, column, spaces) {
        MarginClears(st, v, i + 1, FoldColumn(st, v, i), true);
      } else {
        MarginClears(st, v, i + 1, column + 1, true);
      }
    }
  }

  // ---------------------------------------------------------------- scanner steps

  lemma ScanRaw(input: seq<Rune>, p: nat, column: nat, s: seq<Rune>)
    requires !BlankZ(Peek(input, p)) && Peek(input, p) != QUOTE && Peek(input, p) != BACKSLASH
    ensures ScanText(input, p, column, s) == ScanText(input, p + 1, column + 1, s + [Peek(input, p)])
  {
  }

  lemma ScanQuote(input: seq<Rune>, p: nat, column: nat, s: seq<Rune>)
    requires Peek(input, p) == QUOTE
    ensures ScanText(input, p, column, s) == Text(s, p + 1)
  {
  }

  lemma ScanEscape(input: seq<Rune>, p: nat, column: nat, s: seq<Rune>, c: Rune, q: nat)
    requires Peek(input, p) == BACKSLASH && !Break(Peek(input, p + 1)) && EscapeAt(input, p) == Some((c, q))
    requires q > p
    ensures ScanText(input, p, column, s) == ScanText(input, q, column + (q - p), s + [c])
  {
    hide EscapeAt;
  }

  lemma ScanBlank(input: seq<Rune>, p: nat, column: nat, s: seq<Rune>)
    requires BlankZ(Peek(input, p)) && Peek(input, p) != 0
    ensures ScanText(input, p, column, s) == ScanGap(input, p, column, s, Gap(false, [], [], []))
  {
  }

  /** A gap ends at the first character that is neither blank nor break. */
  lemma GapEnds(input: seq<Rune>, p: nat, column: nat, s: seq<Rune>, g: Gap)
    requires !BlankZ(Peek(input, p))
    ensures ScanGap(input, p, column, s, g) ==
            if column == 0 && MarkerAt(input, p) then ScanError else ScanText(input, p, column, s + GapText(g))
  {
    hide MarkerAt, GapText, ScanText;
  }

  lemma GapSpace(input: seq<Rune>, p: nat, column: nat, s: seq<Rune>, g: Gap)
    requires Peek(input, p) == SPACE
    ensures ScanGap(input, p, column, s, g) ==
            ScanGap(input, p + 1, column + 1, s, if g.breaking then g else g.(blanks := g.blanks + [SPACE]))
  {
  }

  lemma {:induction false} GapMargin(input: seq<Rune>, p: nat, column: nat, s: seq<Rune>, g: Gap, n: nat, rest: seq<Rune>)
    requires g.breaking && Here(input, p, Repeat(SPACE, n) + rest)
    ensures ScanGap(input, p, column, s, g) == ScanGap(input, p + n, column + n, s, g)
    decreases n
  {
    hide ScanGap, Here;
    if n > 0 {
      assert Repeat(SPACE, n) + rest == [SPACE] + (Repeat(SPACE, n - 1) + rest);
      HereSkip(input, p, [SPACE], Repeat(SPACE, n - 1) + rest);
      assert Peek(input, p + 0) == [SPACE][0];
      GapSpace(input, p, column, s, g);
      GapMargin(input, p + 1, column + 1, s, g, n - 1, rest);
    }
  }

  lemma GapBreak(input: seq<Rune>, p: nat, column: nat, s: seq<Rune>)
    requires Peek(input, p) == CR || Peek(input, p) == LF
    ensures ScanGap(input, p, column, s, Gap(false, [], [], [])) ==
            ScanGap(input, p + BreakLength(input, p), 0, s, Gap(true, [], [LF], []))
  {
  }

  // ----------------------------------------------------------------- the round trip

  function Expected(st: Style, v: seq<Rune>, i: nat, column: nat, spaces: bool, s: seq<Rune>, end: int): Scanned
    requires i <= |v|
  {
    if Clear(st, v, i, column, spaces) then Text(s + v[i..], end) else ScanError
  }

  lemma ExpectedNext(st: Style, v: seq<Rune>, i: nat, column: nat, spaces: bool, column': nat, spaces': bool, s: seq<Rune>, end: int)
    requires i < |v| && Clear(st, v, i, column, spaces) == Clear(st, v, i + 1, column', spaces')
    ensures Expected(st, v, i, column, spaces, s, end) == Expected(st, v, i + 1, column', spaces', s + [v[i]], end)
  {
    hide Clear;
    assert v[i..] == [v[i]] + v[i + 1..];
  }

  /** In the middle of text: the rest of the value is read back. */
  lemma {:induction false} TextBack(st: Style, v: seq<Rune>, i: nat, column: nat, spaces: bool, tail: seq<Rune>,
                                    input: seq<Rune>, p: nat, at: nat, s: seq<Rune>)
    requires i <= |v| && Here(input, p, Written(st, v, i, column, spaces, tail))
    ensures ScanText(input, p, at, s) == Expected(st, v, i, column, spaces, s, |input| - |tail|)
    decreases |v| - i, 2
  {
    hide Body, Escape, NeedsEscape, ScanText, ScanGap, EscapeAt, Here, MarkerWord;
    var end := |input| - |tail|;
    if i == |v| {
      EndBack(st, v, column, spaces, tail, input, p, at, s);
    } else if NeedsEscape(st, v, v[i]) {
      var c := v[i];
      var rest := Written(st, v, i + 1, column + |Escape(c)|, false, tail);
      BodyStep(st, v, i, column, spaces);
      Regroup(Escape(c), Body(st, v, i + 1, column + |Escape(c)|, false), [QUOTE] + tail);
      EscapeBack(input, p, c, rest);
      ScanEscape(input, p, at, s, c, p + |Escape(c)|);
      TextBack(st, v, i + 1, column + |Escape(c)|, false, tail, input, p + |Escape(c)|, at + |Escape(c)|, s + [c]);
      ExpectedNext(st, v, i, column, spaces, column + |Escape(c)|, false, s, end);
    } else if v[i] != SPACE {
      RawCharacter(st, v, i, column, spaces, tail);
      HereSkip(input, p, [v[i]], Written(st, v, i + 1, column + 1, false, tail));
      assert Peek(input, p + 0) == [v[i]][0];
      RawIsPlain(st, v, i);
      ScanRaw(input, p, at, s);
      TextBack(st, v, i + 1, column + 1, false, tail, input, p + 1, at + 1, s + [v[i]]);
      ExpectedNext(st, v, i, column, spaces, column + 1, false, s, end);
    } else if Folds(st, v, i, column, spaces) {
      FoldBack(st, v, i, column, spaces, tail, input, p, at, s);
    } else {
      SpaceHere(st, v, i, column, spaces, tail, input, p);
      ScanBlank(input, p, at, s);
      GapSpace(input, p, at, s, Gap(false, [], [], []));
      assert [] + [SPACE] == [SPACE];
      GapBack(st, v, i + 1, column + 1, tail, input, p + 1, at + 1, s, [SPACE]);
      ExpectedNext(st, v, i, column, spaces, column + 1, true, s, end);
    }
  }

  lemma EndBack(st: Style, v: seq<Rune>, column: nat, spaces: bool, tail: seq<Rune>, input: seq<Rune>, p: nat, at: nat, s: seq<Rune>)
    requires Here(input, p, Written(st, v, |v|, column, spaces, tail))
    ensures ScanText(input, p, at, s) == Expected(st, v, |v|, column, spaces, s, |input| - |tail|)
  {
    hide ScanText;
    BodyEnd(st, v, column, spaces);
    var w := Written(st, v, |v|, column, spaces, tail);
    assert w == [QUOTE] + tail;
    HereAt(input, p, w, 0);
    ScanQuote(input, p, at, s);
    assert s + v[|v|..] == s;
  }

  lemma RawIsPlain(st: Style, v: seq<Rune>, i: nat)
    requires i < |v| && !NeedsEscape(st, v, v[i]) && v[i] != SPACE
    ensures !BlankZ(v[i]) && v[i] != QUOTE && v[i] != BACKSLASH
  {
  }

  /** A space that is not folded is written as it is. */
  lemma SpaceHere(st: Style, v: seq<Rune>, i: nat, column: nat, spaces: bool, tail: seq<Rune>, input: seq<Rune>, p: nat)
    requires RawSpace(st, v, i) && !Folds(st, v, i, column, spaces)
    requires Here(input, p, Written(st, v, i, column, spaces, tail))
    ensures Peek(input, p) == SPACE && BlankZ(SPACE) && Here(input, p + 1, Written(st, v, i + 1, column + 1, true, tail))
  {
    hide Body, NeedsEscape, Escape, Here;
    BodyStep(st, v, i, column, spaces);
    Regroup([SPACE], Body(st, v, i + 1, column + 1, true), [QUOTE] + tail);
    HereSkip(input, p, [SPACE], Written(st, v, i + 1, column + 1, true, tail));
    assert Peek(input, p + 0) == [SPACE][0];
  }

  /** In a run of spaces: they are kept, and text follows. */
  lemma {:induction false} GapBack(st: Style, v: seq<Rune>, i: nat, column: nat, tail: seq<Rune>,
                                   input: seq<Rune>, p: nat, at: nat, s: seq<Rune>, blanks: seq<Rune>)
    requires i <= |v| && at > 0 && Here(input, p, Written(st, v, i, column, true, tail))
    ensures ScanGap(input, p, at, s, Gap(false, blanks, [], [])) == Expected(st, v, i, column, true, s + blanks, |input| - |tail|)
    decreases |v| - i, 3
  {
    hide Body, NeedsEscape, ScanText, ScanGap, Here, MarkerAt, MarkerWord, Escape;
    var g := Gap(false, blanks, [], []);
    if RawSpace(st, v, i) {
      SpaceHere(st, v, i, column, true, tail, input, p);
      GapSpace(input, p, at, s, g);
      GapBack(st, v, i + 1, column + 1, tail, input, p + 1, at + 1, s, blanks + [SPACE]);
      assert s + (blanks + [SPACE]) == s + blanks + [SPACE];
      ExpectedNext(st, v, i, column, true, column + 1, true, s + blanks, |input| - |tail|);
    } else {
      TextHere(st, v, i, column, true, tail, input, p);
      GapEnds(input, p, at, s, g);
      TextBack(st, v, i, column, true, tail, input, p, at, s + blanks);
    }
  }

  lemma TextHere(st: Style, v: seq<Rune>, i: nat, column: nat, spaces: bool, tail: seq<Rune>, input: seq<Rune>, p: nat)
    requires i <= |v| && !RawSpace(st, v, i) && Here(input, p, Written(st, v, i, column, spaces, tail))
    ensures !BlankZ(Peek(input, p))
  {
    hide Body, NeedsEscape;
    FirstCharacter(st, v, i, column, spaces, tail);
    HereAt(input, p, Written(st, v, i, column, spaces, tail), 0);
  }

  /** What the scanner makes of the line break and margin of a fold: one space. */
  lemma FoldRead(st: Style, input: seq<Rune>, p: nat, at: nat, s: seq<Rune>, rest: seq<Rune>)
    requires Here(input, p, BreakText(st.lineBreak) + (Repeat(SPACE, Margin(st)) + rest))
    requires rest != [] && !BlankZ(rest[0])
    ensures var q := p + |BreakText(st.lineBreak)| + Margin(st);
      && Here(input, q, rest)
      && ScanText(input, p, at, s) ==
         if Margin(st) == 0 && MarkerAt(input, q) then ScanError else ScanText(input, q, Margin(st), s + [SPACE])
  {
    hide ScanText, ScanGap, Here, MarkerAt;
    var br, margin := BreakText(st.lineBreak), Repeat(SPACE, Margin(st));
    HereSkip(input, p, br, margin + rest);
    assert Peek(input, p + 0) == br[0];
    HereSkip(input, p + |br|, margin, rest);
    var q := p + |br| + Margin(st);
    HereAt(input, q, rest, 0);
    BreakRead(st, input, p, margin + rest);
    ScanBlank(input, p, at, s);
    GapBreak(input, p, at, s);
    var g := Gap(true, [], [LF], []);
    GapMargin(input, p + |br|, 0, s, g, Margin(st), rest);
    GapEnds(input, q, Margin(st), s, g);
    assert GapText(g) == [SPACE];
  }

  lemma BreakRead(st: Style, input: seq<Rune>, p: nat, after: seq<Rune>)
    requires Here(input, p, BreakText(st.lineBreak) + after) && after != [] && after[0] != LF
    ensures BlankZ(Peek(input, p)) && BreakLength(input, p) == |BreakText(st.lineBreak)|
  {
    var br := BreakText(st.lineBreak);
    HereSkip(input, p, br, after);
    assert Peek(input, p + 0) == br[0];
    HereAt(input, p + |br|, after, 0);
    if |br| == 2 { assert Peek(input, p + 1) == br[1]; }
  }

  /** A fold is read back as the space it stands for. */
  lemma {:induction false} FoldBack(st: Style, v: seq<Rune>, i: nat, column: nat, spaces: bool, tail: seq<Rune>,
                                    input: seq<Rune>, p: nat, at: nat, s: seq<Rune>)
    requires RawSpace(st, v, i) && Folds(st, v, i, column, spaces)
    requires Here(input, p, Written(st, v, i, column, spaces, tail))
    ensures ScanText(input, p, at, s) == Expected(st, v, i, column, spaces, s, |input| - |tail|)
    decreases |v| - i, 1
  {
    hide Body, NeedsEscape, ScanText, ScanGap, Here, MarkerAt, MarkerWord, Escape;
    NotBom(st, v);
    var end := |input| - |tail|;
    var q := p + |BreakText(st.lineBreak)| + Margin(st);
    FoldWritten(st, v, i, column, spaces, tail);
    var w := Written(st, v, i + 1, FoldColumn(st, v, i), true, tail);
    if v[i + 1] == SPACE {
      FoldRead(st, input, p, at, s, [BACKSLASH] + w);
      ProtectedSpace(st, v, i + 1, FoldColumn(st, v, i), tail, input, q);
      BackslashNoMarker(input, q);
      ScanEscape(input, q, Margin(st), s + [SPACE], SPACE, q + 2);
      TextBack(st, v, i + 2, FoldColumn(st, v, i) + 1, true, tail, input, q + 2, Margin(st) + 2, s + [SPACE] + [SPACE]);
      NoMarkerSpace(v, i + 1);
      ExpectedNext(st, v, i + 1, FoldColumn(st, v, i), true, FoldColumn(st, v, i) + 1, true, s + [SPACE], end);
      ExpectedNext(st, v, i, column, spaces, FoldColumn(st, v, i), true, s, end);
    } else {
      FirstCharacter(st, v, i + 1, FoldColumn(st, v, i), true, tail);
      assert [] + w == w;
      FoldRead(st, input, p, at, s, w);
      MarkerSeen(st, v, i + 1, FoldColumn(st, v, i), true, tail, input, q);
      TextBack(st, v, i + 1, FoldColumn(st, v, i), true, tail, input, q, Margin(st), s + [SPACE]);
      if Margin(st) > 0 || !MarkerWord(v, i + 1) {
        ExpectedNext(st, v, i, column, spaces, FoldColumn(st, v, i), true, s, end);
      }
    }
  }

  lemma NotBom(st: Style, v: seq<Rune>)
    requires !NeedsEscape(st, v, SPACE)
    ensures !StartsWithBom(v)
  {
  }

  lemma NoMarkerSpace(v: seq<Rune>, k: nat)
    requires k < |v| && v[k] == SPACE
    ensures !MarkerWord(v, k)
  {
  }

  lemma BackslashNoMarker(input: seq<Rune>, q: nat)
    requires Peek(input, q) == BACKSLASH
    ensures !MarkerAt(input, q)
  {
  }

  lemma FoldWritten(st: Style, v: seq<Rune>, i: nat, column: nat, spaces: bool, tail: seq<Rune>)
    requires RawSpace(st, v, i) && Folds(st, v, i, column, spaces)
    ensures Written(st, v, i, column, spaces, tail) ==
      BreakText(st.lineBreak) + (Repeat(SPACE, Margin(st)) +
        ((if v[i + 1] == SPACE then [BACKSLASH] else []) + Written(st, v, i + 1, FoldColumn(st, v, i), true, tail)))
  {
    hide Body, NeedsEscape, Escape, Repeat, BreakText;
    BodyStep(st, v, i, column, spaces);
    var br, margin, slash := BreakText(st.lineBreak), Repeat(SPACE, Margin(st)), if v[i + 1] == SPACE then [BACKSLASH] else [];
    var b, t := Body(st, v, i + 1, FoldColumn(st, v, i), true), [QUOTE] + tail;
    Nest(br, margin, slash, b, t);
  }

  lemma Nest<T>(a: seq<T>, b: seq<T>, c: seq<T>, d: seq<T>, e: seq<T>)
    ensures (((a + b) + c) + d) + e == a + (b + (c + (d + e)))
  {
    Regroup((a + b) + c, d, e);
    Regroup(a + b, c, d + e);
    Regroup(a, b, c + (d + e));
  }

  /** After the protecting backslash stands the space itself. */
  lemma ProtectedSpace(st: Style, v: seq<Rune>, k: nat, column: nat, tail: seq<Rune>, input: seq<Rune>, q: nat)
    requires RawSpace(st, v, k)
    requires Here(input, q, [BACKSLASH] + Written(st, v, k, column, true, tail))
    ensures Peek(input, q) == BACKSLASH && !Break(Peek(input, q + 1)) && EscapeAt(input, q) == Some((SPACE, q + 2))
    ensures Here(input, q + 2, Written(st, v, k + 1, column + 1, true, tail))
  {
    hide Body, NeedsEscape, Here;
    var w := Written(st, v, k, column, true, tail);
    HereSkip(input, q, [BACKSLASH], w);
    assert Peek(input, q + 0) == [BACKSLASH][0];
    SpaceHere(st, v, k, column, true, tail, input, q + 1);
  }

  /** A document around what the writer left: text before the value, the value, its closing quote and text after it. */
  function Around(before: seq<Rune>, st: Style, v: seq<Rune>, column: nat, tail: seq<Rune>): seq<Rune> {
    before + (Body(st, v, 0, column, false) + ([QUOTE] + tail))
  }

  /**
   * The round trip in full: scanning from after the opening quote gives the value
   * back exactly when no fold puts a marker word at the start of a line.
   */
  lemma RoundTripExact(before: seq<Rune>, st: Style, v: seq<Rune>, column: nat, tail: seq<Rune>)
    requires column > 0
    ensures var input := Around(before, st, v, column, tail);
            Scan(input, |before|, column, []) ==
            if Clear(st, v, 0, column, false) then Text(v, |input| - |tail|) else ScanError
  {
    hide Body, NeedsEscape, ScanText, ScanGap, MarkerAt, Clear;
    var input := Around(before, st, v, column, tail);
    var w := Written(st, v, 0, column, false, tail);
    assert input[|before|..] == w;
    NotEmpty(st, v, column, tail);
    HereAt(input, |before|, w, 0);
    TextBack(st, v, 0, column, false, tail, input, |before|, column, []);
    assert [] + v[0..] == v;
  }

  lemma NotEmpty(st: Style, v: seq<Rune>, column: nat, tail: seq<Rune>)
    ensures var w := Written(st, v, 0, column, false, tail); w != [] && w[0] != 0
  {
    hide Body;
    FirstCharacter(st, v, 0, column, false, tail);
    var w := Written(st, v, 0, column, false, tail);
    if v != [] && RawSpace(st, v, 0) {
      BodyStep(st, v, 0, column, false);
      assert w[0] == SPACE;
    }
  }

  /** With a positive indentation, which the emitter always has, every value survives, at any line width. */
  lemma RoundTrip(before: seq<Rune>, st: Style, v: seq<Rune>, column: nat, tail: seq<Rune>)
    requires st.indent > 0 && column > 0
    ensures var input := Around(before, st, v, column, tail);
            Scan(input, |before|, column, []) == Text(v, |input| - |tail|)
  {
    hide Around, Scan;
    MarginClears(st, v, 0, column, false);
    RoundTripExact(before, st, v, column, tail);
  }

  /** Without indentation a fold can start a line with a marker word, and the scanner then refuses its own text. */
  lemma RefusedWithoutMargin()
    ensures var st := Style(true, true, 0, 0, LnBreak);
            var v := [0x61, SPACE, 0x2D, 0x2D, 0x2D, SPACE, 0x61];
            Scan(Around([QUOTE], st, v, 1, []), 1, 1, []) == ScanError
  {
    var st := Style(true, true, 0, 0, LnBreak);
    var v := [0x61, SPACE, 0x2D, 0x2D, 0x2D, SPACE, 0x61];
    assert MarkerWord(v, 2);
    assert !Clear(st, v, 1, 2, false);
    RoundTripExact([QUOTE], st, v, 1, []);
  }
}
