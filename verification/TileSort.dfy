/** The in-place quicksort that orders a hand of tiles before it is examined. */
module TileSort {

  /** A Go `byte`. */
  type Byte = x: int | 0 <= x < 256

  ghost predicate Sorted(s: seq<Byte>) {
    forall a, b :: 0 <= a < b < |s| ==> s[a] <= s[b]
  }

  /** Exchanging two places keeps the tiles of any stretch that holds both. */
  lemma SwapKeepsTiles(s: seq<Byte>, t: seq<Byte>, lo: nat, hi: nat, i: nat, j: nat)
    requires lo <= i < hi && lo <= j < hi && hi <= |s| && |s| == |t|
    requires t == s[i := s[j]][j := s[i]]
    ensures multiset(t[lo..hi]) == multiset(s[lo..hi])
  {
    assert t[lo..hi] == s[lo..hi][i - lo := s[j]][j - lo := s[i]];
  }

  /** A bound on all tiles of a stretch survives any rearrangement of the stretch. */
  lemma BoundsFollowTiles(s: seq<Byte>, t: seq<Byte>, lo: int, hi: int)
    requires multiset(s) == multiset(t)
    requires forall x :: x in s ==> lo <= x <= hi
    ensures forall k :: 0 <= k < |t| ==> lo <= t[k] <= hi
  {
    forall k | 0 <= k < |t| ensures lo <= t[k] <= hi {
      assert t[k] in multiset(t);
      assert t[k] in multiset(s) && t[k] in s;
    }
  }

  /** Rearranging one stretch rearranges every larger stretch. */
  lemma WidenTiles(s: seq<Byte>, t: seq<Byte>, lo: nat, a: nat, b: nat, hi: nat)
    requires lo <= a <= b <= hi <= |s| && |s| == |t|
    requires multiset(s[a..b]) == multiset(t[a..b])
    requires s[..a] == t[..a] && s[b..] == t[b..]
    ensures multiset(s[lo..hi]) == multiset(t[lo..hi])
  {
    ThreeParts(s, lo, a, b, hi);
    ThreeParts(t, lo, a, b, hi);
  }

  /** A stretch is the part before an inner stretch, the inner stretch, and the part after it. */
  lemma ThreeParts(s: seq<Byte>, lo: nat, a: nat, b: nat, hi: nat)
    requires lo <= a <= b <= hi <= |s|
    ensures s[lo..hi] == s[..a][lo..] + s[a..b] + s[b..][..hi - b]
    ensures multiset(s[lo..hi]) == multiset(s[..a][lo..]) + multiset(s[a..b]) + multiset(s[b..][..hi - b])
  {
    assert s[..a][lo..] == s[lo..a];
    assert s[b..][..hi - b] == s[b..hi];
    assert s[lo..hi] == s[lo..a] + s[a..b] + s[b..hi];
  }

  method Swap(arr: array<Byte>, ghost start: nat, ghost end: nat, i: nat, j: nat)
    requires start <= i <= end < arr.Length && start <= j <= end
    modifies arr
    ensures arr[i] == old(arr[j]) && arr[j] == old(arr[i])
    ensures forall q :: 0 <= q < arr.Length && q != i && q != j ==> arr[q] == old(arr[q])
    ensures arr[..start] == old(arr[..start]) && arr[end + 1..] == old(arr[end + 1..])
    ensures multiset(arr[start..end + 1]) == old(multiset(arr[start..end + 1]))
  {
    ghost var before := arr[..];
    arr[i], arr[j] := arr[j], arr[i];
    SwapKeepsTiles(before, arr[..], start, end + 1, i, j);
    assert arr[..][start..end + 1] == arr[start..end + 1];
  }

  /**
   * Hoare partition around the middle tile. Neither scan needs a bound test: a
   * tile that stops it is always ahead.
   */
  method Partition(arr: array<Byte>, start: nat, end: nat) returns (i: int, j: int, key: Byte)
    requires start < end < arr.Length
    modifies arr
    ensures start <= j + 1 <= i <= end + 1 && start < i && j < end
    ensures forall q :: start <= q < i ==> arr[q] <= key
    ensures forall q :: j < q <= end ==> key <= arr[q]
    ensures multiset(arr[start..end + 1]) == old(multiset(arr[start..end + 1]))
    ensures arr[..start] == old(arr[..start]) && arr[end + 1..] == old(arr[end + 1..])
  {
    i, j := start, end;
    key := arr[(start + end) / 2];
    ghost var up, down := (start + end) / 2, (start + end) / 2;
    while i <= j
      invariant start <= i <= end + 1 && start - 1 <= j <= end
      invariant (i == start && j == end) || (start < i && j < end)
      invariant forall q :: start <= q < i ==> arr[q] <= key
      invariant forall q :: j < q <= end ==> key <= arr[q]
      invariant i <= j ==> i <= up <= end && key <= arr[up] && start <= down <= j && arr[down] <= key
      invariant multiset(arr[start..end + 1]) == old(multiset(arr[start..end + 1]))
      invariant arr[..start] == old(arr[..start]) && arr[end + 1..] == old(arr[end + 1..])
      decreases j - i
    {
      while arr[i] < key
        invariant start <= i <= up
        invariant forall q :: start <= q < i ==> arr[q] <= key
        decreases up - i
      {
        i := i + 1;
      }
      while arr[j] > key
        invariant down <= j <= end
        invariant forall q :: j < q <= end ==> key <= arr[q]
        decreases j - down
      {
        j := j - 1;
      }
      if i <= j {
        Swap(arr, start, end, i, j);
        up, down := j, i;
        i := i + 1;
        j := j - 1;
      }
    }
  }

  /**
   * Sorts arr[start..end] (both ends included), touching nothing else. The
   * source also calls it with end == start - 1 on an empty hand.
   */
  method Sort(arr: array<Byte>, start: int, end: int)
    requires 0 <= start && start - 1 <= end < arr.Length
    modifies arr
    ensures Sorted(arr[start..end + 1])
    ensures multiset(arr[start..end + 1]) == old(multiset(arr[start..end + 1]))
    ensures arr[..start] == old(arr[..start]) && arr[end + 1..] == old(arr[end + 1..])
    decreases end - start
  {
    if start < end {
      var i, j, key := Partition(arr, start, end);
      ghost var s0 := arr[..];
      if start < j {
        Sort(arr, start, j);
      }
      ghost var s1 := arr[..];
      LeftSorted(s0, s1, start, end, i, j, key);
      if end > i {
        Sort(arr, i, end);
      }
      RightSorted(s1, arr[..], start, end, i, j, key);
      assert arr[start..end + 1] == arr[..][start..end + 1];
    }
  }

  ghost predicate Split(s: seq<Byte>, start: nat, end: nat, i: int, j: int, key: Byte)
    requires start <= j + 1 <= i <= end + 1 <= |s|
  {
    (forall q :: start <= q < i ==> s[q] <= key) && (forall q :: j < q <= end ==> key <= s[q])
  }

  lemma LeftSorted(s: seq<Byte>, t: seq<Byte>, start: nat, end: nat, i: int, j: int, key: Byte)
    requires start <= j + 1 <= i <= end + 1 <= |s| == |t|
    requires Split(s, start, end, i, j, key)
    requires multiset(s[start..j + 1]) == multiset(t[start..j + 1])
    requires s[..start] == t[..start] && s[j + 1..] == t[j + 1..]
    ensures Split(t, start, end, i, j, key)
    ensures multiset(s[start..end + 1]) == multiset(t[start..end + 1])
    ensures s[end + 1..] == t[end + 1..]
  {
    WidenTiles(s, t, start, start, j + 1, end + 1);
    BoundsFollowTiles(s[start..j + 1], t[start..j + 1], 0, key);
    forall q | start <= q <= j ensures t[q] <= key { assert t[q] == t[start..j + 1][q - start]; }
    forall q | j < q < |s| ensures t[q] == s[q] { assert t[q] == t[j + 1..][q - j - 1]; }
  }

  lemma RightSorted(s: seq<Byte>, t: seq<Byte>, start: nat, end: nat, i: int, j: int, key: Byte)
    requires start <= j + 1 <= i <= end + 1 <= |s| == |t|
    requires Split(s, start, end, i, j, key)
    requires Sorted(s[start..j + 1]) && Sorted(t[i..end + 1])
    requires multiset(s[i..end + 1]) == multiset(t[i..end + 1])
    requires s[..i] == t[..i] && s[end + 1..] == t[end + 1..]
    ensures Sorted(t[start..end + 1])
    ensures multiset(s[start..end + 1]) == multiset(t[start..end + 1])
    ensures s[..start] == t[..start]
  {
    WidenTiles(s, t, start, i, end + 1, end + 1);
    assert s[..start] == s[..i][..start] && t[..start] == t[..i][..start];
    BoundsFollowTiles(s[i..end + 1], t[i..end + 1], key, 255);
    assert forall q :: 0 <= q < i ==> t[..i][q] == t[q];
    forall q | j < q <= end ensures key <= t[q] { if q >= i { assert t[q] == t[i..end + 1][q - i]; } }
    SortedWhole(s, t, start, end, i, j, key);
  }

  lemma SortedWhole(s: seq<Byte>, t: seq<Byte>, start: nat, end: nat, i: int, j: int, key: Byte)
    requires start <= j + 1 <= i <= end + 1 <= |s| == |t|
    requires Sorted(s[start..j + 1]) && Sorted(t[i..end + 1])
    requires forall q :: start <= q < i ==> t[q] == s[q] && t[q] <= key
    requires forall q :: j < q <= end ==> key <= t[q]
    ensures Sorted(t[start..end + 1])
  {
    var r := t[start..end + 1];
    forall a, b | 0 <= a < b < |r| ensures r[a] <= r[b] {
      InOrder(s, t, start, end, i, j, key, start + a, start + b);
    }
  }

  lemma InOrder(s: seq<Byte>, t: seq<Byte>, start: nat, end: nat, i: int, j: int, key: Byte, p: int, q: int)
    requires start <= j + 1 <= i <= end + 1 <= |s| == |t|
    requires start <= p < q <= end
    requires Sorted(s[start..j + 1]) && Sorted(t[i..end + 1])
    requires forall q :: start <= q < i ==> t[q] == s[q] && t[q] <= key
    requires forall q :: j < q <= end ==> key <= t[q]
    ensures t[p] <= t[q]
  {
    if q <= j {
      assert s[p] == s[start..j + 1][p - start] && s[q] == s[start..j + 1][q - start];
    } else if i <= p {
      assert t[p] == t[i..end + 1][p - i] && t[q] == t[i..end + 1][q - i];
    }
  }
}
