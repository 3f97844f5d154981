/**
 * Decimal-string ids: adding one to a digit string by carrying through its runes,
 * and listing the ids from one numeral to another.
 */
module Numerals {
  const ZERO := 48
  const NINE := 57

  type Text = seq<int>

  predicate Digits(s: Text) { forall k :: 0 <= k < |s| ==> ZERO <= s[k] <= NINE }

  function Value(s: Text): int {
    if s == [] then 0 else 10 * Value(s[..|s| - 1]) + (s[|s| - 1] - ZERO)
  }

  function Pow10(n: nat): (p: nat)
    ensures p >= 1
  {
    if n == 0 then 1 else 10 * Pow10(n - 1)
  }

  lemma {:induction false} ValueBounds(s: Text)
    requires Digits(s)
    ensures 0 <= Value(s) < Pow10(|s|)
    ensures s != [] && s[0] > ZERO ==> Value(s) >= Pow10(|s| - 1)
    decreases |s|
  {
    if |s| > 1 {
      var t := s[..|s| - 1];
      ValueBounds(t);
      assert t[0] == s[0];
    }
  }

  lemma {:induction false} PowersGrow(m: nat, n: nat)
    requires m <= n
    ensures Pow10(m) <= Pow10(n)
    decreases n
  {
    if m < n { PowersGrow(m, n - 1); }
  }

  /** A numeral is determined by its length and its value. */
  lemma {:induction false} ValueDetermines(s: Text, t: Text)
    requires Digits(s) && Digits(t) && |s| == |t| && Value(s) == Value(t)
    ensures s == t
    decreases |s|
  {
    if s != [] {
      var n := |s| - 1;
      assert Value(s[..n]) == Value(t[..n]) && s[n] == t[n];
      ValueDetermines(s[..n], t[..n]);
      assert s == s[..n] + [s[n]] && t == t[..n] + [t[n]];
    }
  }

  // --------------------------------------------------------------------------- adding one

  /** The next numeral: carry from the last digit, growing when all are nines. */
  function Succ(s: Text): Text {
    if s == [] then [ZERO + 1]
    else if s[|s| - 1] < NINE then s[..|s| - 1] + [s[|s| - 1] + 1]
    else Succ(s[..|s| - 1]) + [ZERO]
  }

  lemma {:induction false} SuccAddsOne(s: Text)
    requires Digits(s)
    ensures Digits(Succ(s)) && Value(Succ(s)) == Value(s) + 1
    ensures |Succ(s)| == |s| || (|Succ(s)| == |s| + 1 && Succ(s)[0] == ZERO + 1)
    decreases |s|
  {
    if s != [] {
      var n, t := |s| - 1, Succ(s);
      if s[n] == NINE {
        SuccAddsOne(s[..n]);
        assert t[..|t| - 1] == Succ(s[..n]);
      } else {
        assert t[..|t| - 1] == s[..n];
      }
    }
  }

  lemma SuccOf(p: Text, d: int)
    ensures Succ(p + [d]) == if d < NINE then p + [d + 1] else Succ(p) + [ZERO]
  {
    assert (p + [d])[..|p|] == p;
  }

  lemma Replaced(p: Text, d: int, e: int, q: Text)
    ensures ((p + [d]) + q)[|p| := e] == (p + [e]) + q
  {
  }

  /** The text with one still to be added to its first n runes. */
  function Carried(t: Text, n: nat): Text
    requires n <= |t|
  {
    Succ(t[..n]) + t[n..]
  }

  /** One round of the carry: it stops at the i-th rune, or turns it to zero and goes on to the left. */
  lemma CarryAt(t: Text, i: nat)
    requires i < |t|
    ensures t[i] < NINE ==> Carried(t, i + 1) == t[i := t[i] + 1]
    ensures t[i] >= NINE ==> Carried(t, i + 1) == Carried(t[i := ZERO], i)
  {
    hide Succ;
    var p, d, q := t[..i], t[i], t[i + 1..];
    SuccOf(p, d);
    assert t[..i + 1] == p + [d];
    assert t == (p + [d]) + q;
    Replaced(p, d, if d < NINE then d + 1 else ZERO, q);
    if d >= NINE {
      assert t[i := ZERO][..i] == p;
      assert t[i := ZERO][i..] == [ZERO] + q;
      assert (Succ(p) + [ZERO]) + q == Succ(p) + ([ZERO] + q);
    }
  }

  /** Adds one to the digit string in a copy of its runes. */
  method StringAdd(numStr: Text) returns (r: Text)
    requires Digits(numStr)
    ensures r == Succ(numStr) && Digits(r) && Value(r) == Value(numStr) + 1
  {
    hide Succ, Value, Digits, Carried;
    SuccAddsOne(numStr);
    var runes := new int[|numStr|](k requires 0 <= k < |numStr| => numStr[k]);
    assert runes[..] == numStr;
    CarriedEnds(numStr);
    var add := Carry(runes);
    CarriedEnds(runes[..]);
    r := if add then [ZERO + 1] + runes[..] else runes[..];
  }

  /** The loop from the last rune to the left; says whether one is still to be added in front. */
  method Carry(runes: array<int>) returns (add: bool)
    modifies runes
    ensures Carried(old(runes[..]), runes.Length) == if add then Carried(runes[..], 0) else runes[..]
  {
    hide Carried;
    var i := runes.Length - 1;
    while i >= 0
      invariant -1 <= i < runes.Length && Carried(old(runes[..]), runes.Length) == Carried(runes[..], i + 1)
    {
      ghost var was := runes[..];
      CarryAt(was, i);
      if runes[i] < NINE {
        runes[i] := runes[i] + 1;
        assert runes[..] == was[i := was[i] + 1];
        return false;
      }
      runes[i] := ZERO;
      assert runes[..] == was[i := ZERO];
      i := i - 1;
    }
    add := true;
  }

  lemma CarriedEnds(t: Text)
    ensures Carried(t, |t|) == Succ(t) && Carried(t, 0) == [ZERO + 1] + t
  {
    assert t[..|t|] == t && t[|t|..] == [] && t[..0] == [] && t[0..] == t;
    assert Succ([]) == [ZERO + 1];
  }

  function Iterate(s: Text, n: nat): Text { if n == 0 then s else Succ(Iterate(s, n - 1)) }

  lemma {:induction false} IterateAdds(s: Text, n: nat)
    requires Digits(s)
    ensures Digits(Iterate(s, n)) && Value(Iterate(s, n)) == Value(s) + n && |Iterate(s, n)| >= |s|
    ensures |Iterate(s, n)| > |s| ==> Iterate(s, n)[0] > ZERO
    decreases n
  {
    hide Succ, Value;
    if n > 0 {
      IterateAdds(s, n - 1);
      var t := Iterate(s, n - 1);
      SuccAddsOne(t);
      if |t| > |s| && |Succ(t)| == |t| { SuccKeepsFront(t); }
    }
  }

  /** The first digit never goes down while the length stays. */
  lemma {:induction false} SuccKeepsFront(s: Text)
    requires s != [] && Digits(s) && |Succ(s)| == |s|
    ensures Succ(s)[0] >= s[0]
    decreases |s|
  {
    var n := |s| - 1;
    if s[n] == NINE && n > 0 {
      assert s[..n][0] == s[0];
      SuccKeepsFront(s[..n]);
    }
  }

  /** Adds `num` by adding one that often; a negative number adds nothing. */
  method StringAddNum(numStr: Text, num: int) returns (r: Text)
    requires Digits(numStr)
    ensures Digits(r) && Value(r) == Value(numStr) + (if num > 0 then num else 0)
    ensures r == Iterate(numStr, if num > 0 then num else 0)
  {
    hide Value;
    r := numStr;
    var i := 0;
    while i < num
      invariant 0 <= i && (num > 0 ==> i <= num) && (num <= 0 ==> i == 0)
      invariant Digits(r) && Value(r) == Value(numStr) + i && r == Iterate(numStr, i)
    {
      r := StringAdd(r);
      i := i + 1;
    }
  }

  // ------------------------------------------------------------------------------ Between

  /** Rune by rune, a is smaller at the first difference. */
  predicate LexLess(a: Text, b: Text)
    requires |a| == |b|
  {
    a != [] &&
    var n := |a| - 1;
    LexLess(a[..n], b[..n]) || (a[..n] == b[..n] && a[n] < b[n])
  }

  /** What the comparison loop of Between finds out: it sees only as many runes as `start` has. */
  predicate Below(end: Text, start: Text)
    requires |start| <= |end|
  {
    LexLess(end[..|start|], start)
  }

  lemma {:induction false} FirstDifference(a: Text, b: Text, i: nat)
    requires |a| == |b| && i < |a| && a[..i] == b[..i] && a[i] != b[i]
    ensures LexLess(a, b) <==> a[i] < b[i]
    decreases |a|
  {
    var n := |a| - 1;
    if i < n {
      assert a[..n][..i] == a[..i] && b[..n][..i] == b[..i];
      FirstDifference(a[..n], b[..n], i);
      assert a[..n][i] != b[..n][i];
    } else {
      NotLess(a[..n]);
    }
  }

  lemma {:induction false} NotLess(a: Text)
    ensures !LexLess(a, a)
    decreases |a|
  {
    if a != [] { NotLess(a[..|a| - 1]); }
  }

  /** What counting up from `start` can reach. */
  predicate Reachable(start: Text, end: Text) {
    (|start| == |end| && Value(start) <= Value(end)) || (|start| < |end| && end[0] > ZERO)
  }

  /** For equal lengths the comparison is the numeric one. */
  lemma {:induction false} LexIsNumeric(a: Text, b: Text)
    requires |a| == |b| && Digits(a) && Digits(b)
    ensures LexLess(a, b) <==> Value(a) < Value(b)
    decreases |a|
  {
    if a != [] {
      var n := |a| - 1;
      LexIsNumeric(a[..n], b[..n]);
      if Value(a[..n]) == Value(b[..n]) { ValueDetermines(a[..n], b[..n]); }
    }
  }

  /** Counting on from a numeral that is not the end yet keeps the end in reach, and ahead. */
  lemma StepTowards(cur: Text, end: Text)
    requires Digits(cur) && Digits(end) && Reachable(cur, end) && cur != end
    ensures Digits(Succ(cur)) && Reachable(Succ(cur), end) && Value(cur) < Value(end)
  {
    hide Succ, Value, Pow10;
    SuccAddsOne(cur);
    ValueBounds(cur);
    ValueBounds(end);
    if |cur| < |end| {
      PowersGrow(|cur|, |end| - 1);
    } else if Value(cur) == Value(end) {
      ValueDetermines(cur, end);
    } else {
      SuccFits(cur, end);
    }
  }

  /** A numeral below another of the same length does not grow. */
  lemma SuccFits(cur: Text, end: Text)
    requires Digits(cur) && Digits(end) && |cur| == |end| && Value(cur) < Value(end)
    ensures |Succ(cur)| == |cur|
  {
    hide Succ, Value, Pow10;
    SuccAddsOne(cur);
    ValueBounds(end);
    ValueBounds(Succ(cur));
  }

  /** Counting up from `start` meets `end` exactly if it is in reach. */
  lemma {:induction false} MeetsExactly(start: Text, end: Text)
    requires Digits(start) && Digits(end)
    ensures Reachable(start, end) <==> exists n: nat :: Iterate(start, n) == end
    decreases if Value(end) >= Value(start) then Value(end) - Value(start) else 0
  {
    hide Succ, Value, Iterate;
    if Reachable(start, end) {
      var n := Meets(start, end);
    } else {
      forall n: nat ensures Iterate(start, n) != end { IterateAdds(start, n); IterateZero(start, n); }
    }
  }

  lemma IterateZero(s: Text, n: nat)
    ensures n == 0 ==> Iterate(s, n) == s
  {
  }

  lemma IterateFront(s: Text, n: nat)
    ensures Iterate(s, n + 1) == Succ(Iterate(s, n))
  {
  }

  lemma {:induction false} IterateFromNext(s: Text, n: nat)
    ensures Iterate(Succ(s), n) == Iterate(s, n + 1)
    decreases n
  {
    if n > 0 { IterateFromNext(s, n - 1); }
  }

  lemma {:induction false} Meets(start: Text, end: Text) returns (n: nat)
    requires Digits(start) && Digits(end) && Reachable(start, end)
    ensures Iterate(start, n) == end && Value(end) == Value(start) + n
    decreases if Value(end) >= Value(start) then Value(end) - Value(start) else 0
  {
    if start == end {
      n := 0;
    } else {
      StepTowards(start, end);
      SuccAddsOne(start);
      hide Succ, Value, Iterate;
      n := Meets(Succ(start), end);
      IterateFromNext(start, n);
      n := n + 1;
    }
  }

  /** The numerals from `start` on, n more than one. */
  function Upwards(start: Text, n: nat): seq<Text> { seq(n + 1, k requires 0 <= k <= n => Iterate(start, k)) }

  /** The pairs for which the loop never ends: a longer end with a leading zero that passes the comparison. */
  predicate Endless(start: Text, end: Text) {
    |start| < |end| && !Below(end, start) && end[0] == ZERO
  }

  method Between(startid: Text, endid: Text) returns (ids: seq<Text>)
    requires Digits(startid) && Digits(endid) && !Endless(startid, endid)
    ensures |startid| > |endid| || Below(endid, startid) ==> ids == []
    ensures !(|startid| > |endid| || Below(endid, startid)) ==>
      Value(endid) >= Value(startid) && ids == Upwards(startid, Value(endid) - Value(startid)) && endid in ids
  {
    hide Value, Iterate, Succ;
    if startid == endid {
      NotLess(startid);
      IterateZero(startid, 0);
      assert endid[..|startid|] == startid;
      return [startid];
    }
    ids := [];
    if |startid| > |endid| { return; }
    var i := 0;
    while i < |startid|
      invariant 0 <= i <= |startid| && endid[..i] == startid[..i] && ids == []
    {
      ghost var cut := endid[..|startid|];
      if endid[i] != startid[i] {
        assert cut[..i] == endid[..i];
        FirstDifference(cut, startid, i);
      }
      if endid[i] < startid[i] {
        return;
      } else if endid[i] > startid[i] {
        break;
      }
      i := i + 1;
    }
    InReach(startid, endid, i);
    var cur := startid;
    IterateZero(startid, 0);
    ghost var n := 0;
    while true
      invariant Digits(cur) && Reachable(cur, endid) && cur != endid && cur == Iterate(startid, n)
      invariant Value(cur) == Value(startid) + n && |ids| == n && (forall k :: 0 <= k < n ==> ids[k] == Iterate(startid, k))
      decreases Value(endid) - Value(cur)
    {
      ids := ids + [cur];
      StepTowards(cur, endid);
      IterateFront(startid, n);
      cur := StringAdd(cur);
      n := n + 1;
      if cur == endid {
        ids := ids + [cur];
        break;
      }
    }
    assert ids[n] == endid;
  }

  /** What passes the comparison without being endless is in reach. */
  lemma InReach(start: Text, end: Text, i: nat)
    requires Digits(start) && Digits(end) && |start| <= |end| && !Endless(start, end) && start != end
    requires i <= |start| && end[..i] == start[..i] && (i < |start| ==> end[i] > start[i])
    ensures !Below(end, start) && Reachable(start, end)
  {
    hide Value;
    var cut := end[..|start|];
    if i < |start| {
      assert cut[..i] == start[..i];
      FirstDifference(cut, start, i);
    } else {
      assert cut == start;
      NotLess(start);
    }
    if |start| == |end| {
      assert cut == end;
      LexIsNumeric(end, start);
    }
  }

  /** For numerals in reach the list comes out exactly when the comparison passes, and that fails only for a longer end. */
  lemma RefusedExactly(start: Text, end: Text)
    requires Digits(start) && Digits(end) && Reachable(start, end)
    ensures !Endless(start, end)
    ensures |start| <= |end| && Value(start) <= Value(end)
    ensures Below(end, start) <==> |start| < |end| && Value(end[..|start|]) < Value(start)
  {
    LexIsNumeric(end[..|start|], start);
    if |start| == |end| {
      assert end[..|start|] == end;
    } else {
      StepTowards(start, end);
    }
  }

  /** From 5 to 10 there is a list, but Between returns none; from 0 to 01 it does not return. */
  lemma FiveToTen()
    ensures var five, ten := [ZERO + 5], [ZERO + 1, ZERO];
      Digits(five) && Digits(ten) && Reachable(five, ten) && Below(ten, five) && !Endless(five, ten)
    ensures var zero, padded := [ZERO], [ZERO, ZERO + 1]; Digits(padded) && Endless(zero, padded) && !Reachable(zero, padded)
  {
    var five, ten := [ZERO + 5], [ZERO + 1, ZERO];
    assert ten[..1] == [ZERO + 1];
    FirstDifference([ZERO + 1], five, 0);
    var zero, padded := [ZERO], [ZERO, ZERO + 1];
    assert padded[..1] == zero;
    NotLess(zero);
  }

  /** The digit check: it takes the digits up to eight, so a nine is refused. */
  method IsNumString(str: Text) returns (b: bool)
    ensures b <==> Digits(str) && NINE !in str
  {
    var i := 0;
    while i < |str|
      invariant 0 <= i <= |str| && forall k :: 0 <= k < i ==> ZERO <= str[k] < NINE
    {
      if str[i] > 56 {
        return false;
      } else if str[i] < 48 {
        return false;
      }
      i := i + 1;
    }
    b := true;
  }
}
