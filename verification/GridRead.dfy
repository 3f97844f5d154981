/**
 * Reading a GridFS file: chunks are fetched one by one with one chunk ahead in a cache,
 * and seeking reuses the buffer where it can. The store may fail to answer for any chunk
 * at any call. A failed fetch still steps over its chunk, so the buffer can get ahead of
 * the offset; what every operation does then is stated too.
 */
module GridRead {
  import opened GridFs

  /** Panicked is a slice out of range in the source. */
  datatype ReadError = NoError | EndOfFile | NotFetched | SeekPastEnd | Panicked

  /** A chunk fetched in the background; a failed fetch is remembered as such. */
  datatype Cache = Empty | Cached(n: int, data: seq<Byte>, failed: bool)

  datatype Whence = FromStart | FromCurrent | FromEnd

  function Minimum(a: int, b: int): int { if a < b then a else b }

  /** Division as Go does it, towards zero. */
  function Quotient(t: int, size: nat): int
    requires size > 0
  {
    if t >= 0 then t / size else -((-t) / size)
  }

  /** The bytes stand at this position of the content. */
  ghost predicate IsAt(content: seq<Byte>, pos: int, bytes: seq<Byte>) {
    0 <= pos && pos + |bytes| <= |content| && bytes == content[pos..pos + |bytes|]
  }

  lemma SplitAt(content: seq<Byte>, p: int, out: seq<Byte>, buf: seq<Byte>, i: nat)
    requires IsAt(content, p, out) && IsAt(content, p + |out|, buf) && i <= |buf|
    ensures IsAt(content, p, out + buf[..i]) && IsAt(content, p + |out| + i, buf[i..])
  {
  }

  lemma Adjoined(content: seq<Byte>, p: int, a: seq<Byte>, b: seq<Byte>)
    requires IsAt(content, p, a) && IsAt(content, p + |a|, b)
    ensures IsAt(content, p, a + b)
  {
  }

  lemma DropAt(content: seq<Byte>, p: int, buf: seq<Byte>, i: nat)
    requires IsAt(content, p, buf) && i <= |buf|
    ensures IsAt(content, p + i, buf[i..])
  {
  }

  lemma EmptyAt(content: seq<Byte>, p: int)
    requires 0 <= p <= |content|
    ensures IsAt(content, p, [])
  {
  }

  /** Where chunk n starts in the file; there is nothing before chunk 0. */
  function CutAt(n: int, size: nat, length: nat): nat { if n <= 0 then 0 else Cut(n, size, length) }

  /** Chunks cut the file from its start to its end, and up to the last one each holds something. */
  lemma CutSteps(n: int, size: nat, length: nat)
    requires size > 0
    ensures CutAt(n, size, length) <= CutAt(n + 1, size, length) <= length
    ensures 0 <= n < ChunkCount(length, size) <==> CutAt(n, size, length) < CutAt(n + 1, size, length)
    ensures n >= ChunkCount(length, size) ==> CutAt(n, size, length) == length
    ensures 0 <= n < ChunkCount(length, size) ==> CutAt(n, size, length) < length
  {
    var c := ChunkCount(length, size);
    hide ChunkCount;
    if n >= c {
      StartMonotone(c, n, size);
    } else if n >= 0 {
      StartMonotone(n, c - 1, size);
    }
  }

  lemma {:induction false} CutGrows(m: int, n: int, size: nat, length: nat)
    requires size > 0 && m <= n
    ensures CutAt(m, size, length) <= CutAt(n, size, length)
    decreases n - m
  {
    hide ChunkCount, CutAt;
    if m < n {
      CutGrows(m, n - 1, size, length);
      CutSteps(n - 1, size, length);
    }
  }

  /** What the store keeps under number n. */
  lemma StoredChunk(chunks: map<nat, seq<Byte>>, size: nat, content: seq<Byte>, n: int)
    requires size > 0 && Stores(chunks, size, content) && 0 <= n < ChunkCount(|content|, size)
    ensures n in chunks && IsAt(content, CutAt(n, size, |content|), chunks[n])
    ensures CutAt(n, size, |content|) + |chunks[n]| == CutAt(n + 1, size, |content|) && chunks[n] != []
  {
    hide ChunkCount, Start;
    ChunkAt(chunks, size, content, n);
    CutZero(size, |content|);
  }

  /** A position inside the file lies in its chunk. */
  lemma PositionInChunk(t: nat, size: nat, length: nat)
    requires size > 0 && t < length
    ensures var c := Quotient(t, size);
      0 <= c < ChunkCount(length, size) && CutAt(c, size, length) == Start(c, size) <= t < CutAt(c + 1, size, length)
  {
    var c := ChunkOf(t, size);
    var count := ChunkCount(length, size);
    hide ChunkCount;
    if c >= count { StartMonotone(count, c, size); }
    StartMonotone(c, count - 1, size);
  }

  /** Whether a request for chunk n is answered: by what the cache remembers, or by the store. */
  predicate Answered(n: int, cache: Cache, count: nat, down: set<int>) {
    if cache.Cached? && cache.n == n then !cache.failed else 0 <= n < count && n !in down
  }

  class GridReader {
    ghost const content: seq<Byte>
    const chunks: map<nat, seq<Byte>>
    const chunkSize: nat
    const length: nat
    var chunk: int
    var offset: int
    var rbuf: seq<Byte>
    var rcache: Cache

    ghost function Count(): nat
      requires chunkSize > 0
    {
      ChunkCount(length, chunkSize)
    }

    /** Where the buffer ends, and where it starts. */
    ghost function Ahead(): nat
      reads this`chunk
    {
      CutAt(chunk, chunkSize, length)
    }

    ghost function Pos(): int
      reads this`chunk, this`rbuf
    {
      Ahead() - |rbuf|
    }

    ghost predicate Store() {
      chunkSize > 0 && length == |content| && Stores(chunks, chunkSize, content)
    }

    ghost predicate CacheRight(c: Cache)
      requires chunkSize > 0
    {
      c.Cached? ==> if c.failed then c.data == [] else 0 <= c.n < Count() && c.n in chunks && c.data == chunks[c.n]
    }

    /** Holds at all times, also after a fetch has failed or a slice was out of range. */
    ghost predicate Valid()
      reads this
    {
      && Store() && CacheRight(rcache) && IsAt(content, Pos(), rbuf)
      && offset <= length && (offset <= Pos() || offset == length)
      && (chunk < 0 ==> offset < 0 || offset == length) && (rcache.Cached? ==> rcache.n == chunk)
    }

    /** The buffer starts where the offset says, or the offset is at the end. */
    ghost predicate InStep()
      reads this
    {
      Pos() == offset || offset == length
    }

    /** No failed fetch is remembered. */
    ghost predicate Healthy()
      reads this`rcache, this`chunk
    {
      chunk >= 0 && (rcache.Cached? ==> !rcache.failed)
    }

    constructor (chunks: map<nat, seq<Byte>>, chunkSize: nat, length: nat, ghost content: seq<Byte>)
      requires chunkSize > 0 && length == |content| && Stores(chunks, chunkSize, content)
      ensures Valid() && InStep() && Healthy() && offset == 0 && chunk == 0 && rbuf == [] && rcache == Empty
      ensures this.content == content && this.chunkSize == chunkSize && this.chunks == chunks && this.length == length
    {
      this.chunks, this.chunkSize, this.content, this.length := chunks, chunkSize, content, length;
      chunk, offset, rbuf, rcache := 0, 0, [], Empty;
    }

    /** A query for one chunk; `down` are the chunks the store does not answer for. */
    method Fetch(n: int, down: set<int>) returns (data: seq<Byte>, failed: bool)
      requires Store()
      ensures failed <==> !(0 <= n < Count() && n !in down)
      ensures CacheRight(Cached(n, data, failed))
    {
      if n >= 0 && n in chunks && n !in down {
        data, failed := chunks[n], false;
      } else {
        data, failed := [], true;
      }
    }

    /** The next chunk is known to be there, or known to be missing. */
    ghost predicate Prefetched(down: set<int>)
      requires chunkSize > 0
      reads this`chunk, this`rcache
    {
      Answered(chunk, rcache, Count(), down) <==> 0 <= chunk < Count() && chunk !in down
    }

    /** The next chunk, from the cache when it is there, and the one after it is fetched ahead. */
    method GetChunk(down: set<int>) returns (data: seq<Byte>, failed: bool)
      requires Store() && CacheRight(rcache)
      modifies this`chunk, this`rcache
      ensures chunk == old(chunk) + 1 && CacheRight(rcache) && (rcache.Cached? ==> rcache.n == chunk)
      ensures failed <==> !Answered(old(chunk), old(rcache), Count(), down)
      ensures CacheRight(Cached(old(chunk), data, failed))
      ensures Prefetched(down)
      ensures old(Healthy()) && down == {} ==> Healthy()
    {
      hide Stores;
      var cache := rcache;
      rcache := Empty;
      if cache.Cached? && cache.n == chunk {
        data, failed := cache.data, cache.failed;
      } else {
        data, failed := Fetch(chunk, down);
      }
      chunk := chunk + 1;
      InFile(chunk);
      if chunk * chunkSize < length {
        var ahead, missed := Fetch(chunk, down);
        rcache := Cached(chunk, ahead, missed);
      }
    }

    lemma InFile(n: int)
      requires chunkSize > 0
      ensures n * chunkSize < length ==> n < Count()
      ensures n >= 0 && n < Count() ==> n * chunkSize < length
    {
      if n >= 0 {
        StartIsProduct(n, chunkSize);
        var c := Count();
        if n < c { StartMonotone(n, c - 1, chunkSize); } else { StartMonotone(c, n, chunkSize); }
      }
    }

    /** Loads the next chunk into the empty buffer. */
    method Refill(down: set<int>) returns (failed: bool)
      requires Valid() && rbuf == []
      modifies this`chunk, this`rcache, this`rbuf
      ensures Valid() && chunk == old(chunk) + 1
      ensures failed <==> !Answered(old(chunk), old(rcache), Count(), down)
      ensures failed ==> rbuf == []
      ensures !failed ==> Pos() == old(Pos()) && rbuf != [] && 0 <= old(chunk) < Count()
      ensures Prefetched(down)
      ensures old(Healthy()) && down == {} ==> Healthy()
    {
      hide Stores, ChunkCount, CutAt, IsAt;
      CutSteps(chunk, chunkSize, length);
      ghost var n := chunk;
      var data, failing := GetChunk(down);
      rbuf := data;
      failed := failing;
      if failed { EmptyAt(content, Ahead()); } else { StoredChunk(chunks, chunkSize, content, n); }
    }

    /** How many bytes a read is after. */
    ghost function Wanted(want: nat): int
      reads this`offset
    {
      Minimum(want, length - offset)
    }

    /** Chunks that a read of w bytes at p, with `from` the next chunk to load, has to load. */
    ghost predicate Needed(n: int, from: int, p: int, w: int) {
      from <= n && CutAt(n, chunkSize, length) < p + w
    }

    /** Every chunk the read needs is answered for. */
    ghost predicate AllAnswered(from: int, cache: Cache, p: int, w: int, down: set<int>)
      requires chunkSize > 0
    {
      forall n :: Needed(n, from, p, w) ==> Answered(n, cache, Count(), down)
    }

    /**
     * Reads up to `want` bytes. What is returned is always the content at the buffer's
     * position, up to the first chunk that is needed and not answered for.
     */
    method Read(want: nat, down: set<int>) returns (out: seq<Byte>, err: ReadError, ghost lost: int)
      requires Valid()
      modifies this`chunk, this`rcache, this`rbuf, this`offset
      ensures Valid() && offset == old(offset) + |out|
      ensures err == EndOfFile <==> old(offset) == length
      ensures err == EndOfFile ==> out == [] && unchanged(this)
      ensures err == NoError <==>
              old(offset) < length && AllAnswered(old(chunk), old(rcache), old(Pos()), old(Wanted(want)), down)
      ensures err == NoError ==> |out| == old(Wanted(want)) && Pos() == old(Pos()) + |out|
      ensures err == EndOfFile || err == NoError || err == NotFetched
      ensures err == NotFetched ==>
              && Needed(lost, old(chunk), old(Pos()), old(Wanted(want)))
              && !Answered(lost, old(rcache), Count(), down)
              && (forall n :: old(chunk) <= n < lost ==> Answered(n, old(rcache), Count(), down))
              && old(Pos()) + |out| == CutAt(lost, chunkSize, length) && chunk == lost + 1 && rbuf == []
      ensures err != EndOfFile ==> IsAt(content, old(Pos()), out)
      ensures InStep() <==> old(InStep()) && err != NotFetched
      ensures chunk != old(chunk) ==> Prefetched(down)
      ensures down == {} && old(Healthy()) ==> Healthy()
    {
      hide ChunkCount, IsAt, CutAt, Stores, Answered, Healthy, AllAnswered, Valid, Loaded, LostAt, Prefetched;
      Bounds();
      out, err, lost := [], NoError, chunk;
      if offset == length {
        return out, EndOfFile, lost;
      }
      ghost var p, w, cache := Pos(), Wanted(want), rcache;
      NothingLoaded(down);
      EmptyAt(content, p);
      var left := want;
      while err == NoError
        invariant Valid() && |out| + left == want && offset == old(offset) + |out| && |out| <= w && offset < length
        invariant err == NoError || err == NotFetched
        invariant IsAt(content, p, out)
        invariant err == NoError ==> Pos() == p + |out| && Loaded(old(chunk), cache, down)
        invariant err != NoError ==> LostAt(lost, old(chunk), cache, down) && p + |out| == CutAt(lost, chunkSize, length) < p + w
        invariant chunk == old(chunk) || Prefetched(down)
        invariant down == {} && old(Healthy()) ==> Healthy()
        decreases err == NoError, if chunk < Count() then Count() - chunk else 0
      {
        var bytes := Take(left);
        Adjoined(content, p, out, bytes);
        out := out + bytes;
        if |bytes| == left || offset == length {
          break;
        }
        left := left - |bytes|;
        lost := chunk;
        err := LoadNext(old(chunk), cache, down);
      }
      Bounds();
      if err == NoError {
        EnoughLoaded(old(chunk), p, w, cache, down);
      } else {
        OneMissing(lost, old(chunk), cache, p, w, down);
      }
    }

    /** The chunks from `from` on were answered for, and what the cache now says is what was to be expected at first. */
    ghost predicate Loaded(from: int, cache: Cache, down: set<int>)
      requires chunkSize > 0
      reads this`chunk, this`rcache
    {
      && from <= chunk && (cache.Cached? ==> cache.n == from)
      && (forall n :: from <= n < chunk ==> Answered(n, cache, Count(), down))
      && (Answered(chunk, rcache, Count(), down) <==> Answered(chunk, cache, Count(), down))
    }

    /** Chunk `lost` is the first that was not answered for. */
    ghost predicate LostAt(lost: int, from: int, cache: Cache, down: set<int>)
      requires chunkSize > 0
      reads this`chunk, this`rbuf
    {
      && from <= lost && chunk == lost + 1 && rbuf == [] && !Answered(lost, cache, Count(), down)
      && (forall n :: from <= n < lost ==> Answered(n, cache, Count(), down))
    }

    lemma Bounds()
      requires Valid()
      ensures chunkSize > 0 && length == |content| && offset <= length && 0 <= Pos() <= Ahead() <= length
      ensures offset < length ==> offset <= Pos() && (chunk < 0 ==> offset < 0)
      ensures chunk <= 0 ==> rbuf == []
    {
      CutSteps(chunk, chunkSize, length);
    }

    lemma NothingLoaded(down: set<int>)
      requires Valid()
      ensures chunkSize > 0 && Loaded(chunk, rcache, down)
    {
    }

    lemma EnoughLoaded(from: int, p: int, w: int, cache: Cache, down: set<int>)
      requires chunkSize > 0 && p + w <= Ahead() && Loaded(from, cache, down)
      ensures AllAnswered(from, cache, p, w, down)
    {
      hide Answered, CutAt;
      forall n | Needed(n, from, p, w) ensures Answered(n, cache, Count(), down) {
        if n >= chunk { CutGrows(chunk, n, chunkSize, length); }
      }
    }

    lemma OneMissing(n: int, from: int, cache: Cache, p: int, w: int, down: set<int>)
      requires chunkSize > 0 && CutAt(n, chunkSize, length) < p + w && LostAt(n, from, cache, down)
      ensures !AllAnswered(from, cache, p, w, down) && Needed(n, from, p, w)
      ensures chunk == n + 1 && rbuf == [] && !Answered(n, cache, Count(), down) && from <= n
      ensures forall i :: from <= i < n ==> Answered(i, cache, Count(), down)
      ensures CutAt(n, chunkSize, length) <= Pos()
      ensures n >= 0 && p + w <= length ==> CutAt(n, chunkSize, length) < Pos()
    {
      hide Answered, CutAt;
      CutSteps(n, chunkSize, length);
    }

    /** Takes what it can from the buffer. */
    method Take(left: nat) returns (bytes: seq<Byte>)
      requires Valid() && offset < length
      modifies this`rbuf, this`offset
      ensures Valid() && |bytes| == Minimum(left, |old(rbuf)|) && |rbuf| == |old(rbuf)| - |bytes|
      ensures offset == old(offset) + |bytes| && IsAt(content, old(Pos()), bytes)
    {
      hide ChunkCount, CutAt, Stores;
      var i := Minimum(left, |rbuf|);
      Bounds();
      SplitAt(content, Pos(), [], rbuf, i);
      bytes := rbuf[..i];
      assert [] + bytes == bytes;
      offset := offset + i;
      rbuf := rbuf[i..];
    }

    method LoadNext(ghost from: int, ghost cache: Cache, down: set<int>) returns (err: ReadError)
      requires Valid() && rbuf == [] && Loaded(from, cache, down)
      modifies this`chunk, this`rcache, this`rbuf
      ensures Valid() && (err == NoError || err == NotFetched) && chunk == old(chunk) + 1
      ensures err == NoError ==> Pos() == old(Pos()) && Loaded(from, cache, down) && old(chunk) < Count()
      ensures err == NotFetched ==> LostAt(old(chunk), from, cache, down)
      ensures Prefetched(down)
      ensures down == {} && old(Healthy()) ==> Healthy()
    {
      hide ChunkCount, CutAt, Valid, Healthy;
      var failed := Refill(down);
      err := if failed then NotFetched else NoError;
    }

    /**
     * After a failed fetch the next read, whatever it asks for and whatever is unavailable then,
     * returns bytes from the start of the chunk after the lost one, beyond the offset.
     */
    method ReadAfterFailure(want: nat, down: set<int>, next: nat, downThen: set<int>)
      returns (some: seq<Byte>, first: ReadError, out: seq<Byte>, second: ReadError, ghost lost: int)
      requires Valid() && Pos() == offset < length
      modifies this`chunk, this`rcache, this`rbuf, this`offset
      ensures first == NotFetched <==> !AllAnswered(old(chunk), old(rcache), old(offset), old(Wanted(want)), down)
      ensures first == NotFetched ==>
              && IsAt(content, CutAt(lost + 1, chunkSize, length), out)
              && offset - |out| == old(offset) + |some| == CutAt(lost, chunkSize, length) < CutAt(lost + 1, chunkSize, length)
    {
      hide ChunkCount, IsAt, CutAt, Stores, Answered, AllAnswered, Prefetched;
      Bounds();
      some, first, lost := Read(want, down);
      out, second := [], first;
      if first == NotFetched {
        Bounds();
        ghost var again;
        out, second, again := Read(next, downThen);
      }
    }

    ghost function Target(off: int, whence: Whence): int
      reads this`offset
    {
      RefTarget(length, offset, off, whence)
    }

    /** The target is taken to lie in the buffer. */
    predicate Near(t: int)
      requires chunkSize > 0
      reads this`chunk, this`offset
    {
      Quotient(t, chunkSize) + 1 == chunk && t >= offset
    }

    /**
     * Moves the offset. A target that seems to lie in the buffer moves the buffer by the
     * same distance, whether or not it was in step; any other target is loaded afresh.
     */
    method Seek(off: int, whence: Whence, down: set<int>) returns (pos: int, err: ReadError)
      requires Valid()
      modifies this`chunk, this`rcache, this`rbuf, this`offset
      ensures Valid() && pos == offset
      ensures var t := old(Target(off, whence)); t > length ==> err == SeekPastEnd && unchanged(this)
      ensures var t := old(Target(off, whence));
        t == length ==> err == NoError && offset == t && unchanged(`chunk, `rbuf, `rcache)
      ensures var t := old(Target(off, whence)); t < length && old(Near(t)) ==>
        && unchanged(`chunk, `rcache)
        && (if t - old(offset) <= |old(rbuf)|
            then err == NoError && offset == t && Pos() - offset == old(Pos() - offset)
            else err == Panicked && unchanged(this))
      ensures var t := old(Target(off, whence)); t < length && !old(Near(t)) ==>
        var c := Quotient(t, chunkSize);
        && offset == t && chunk == c + 1 && Prefetched(down)
        && (if !Answered(c, old(rcache), Count(), down) then err == NotFetched && rbuf == []
            else if t < 0 then err == Panicked && Pos() == 0
            else err == NoError && Pos() == t)
      ensures var t := old(Target(off, whence));
        InStep() <==> t == length || (if t > length || old(Near(t)) then old(InStep()) else err == NoError)
      ensures var t := old(Target(off, whence)); old(InStep()) && err == Panicked ==> t < 0
      ensures var t := old(Target(off, whence));
        down == {} && old(Healthy()) && t >= 0 ==> Healthy() && err != NotFetched
    {
      hide ChunkCount, IsAt, CutAt, Stores, Answered, Quotient, Prefetched;
      Bounds();
      var target := match whence
        case FromStart => off
        case FromCurrent => off + offset
        case FromEnd => off + length;
      if target > length {
        return offset, SeekPastEnd;
      }
      if target == length {
        offset := target;
        return offset, NoError;
      }
      if Near(target) {
        err := Slide(target);
        return offset, err;
      }
      err := Jump(target, down);
      pos := offset;
    }

    /** Seeks within the buffer. */
    method Slide(t: int) returns (err: ReadError)
      requires Valid() && offset <= t < length && Near(t)
      modifies this`rbuf, this`offset
      ensures Valid() && (err == NoError || err == Panicked)
      ensures err == NoError <==> t - old(offset) <= |old(rbuf)|
      ensures err == NoError ==> offset == t && Pos() - offset == old(Pos() - offset)
      ensures err == Panicked ==> unchanged(this)
      ensures old(InStep()) ==> err == NoError
    {
      hide ChunkCount, IsAt, CutAt, Stores, Quotient;
      Bounds();
      NearInStep(t);
      if t - offset > |rbuf| {
        return Panicked;
      }
      DropAt(content, Pos(), rbuf, t - offset);
      rbuf := rbuf[t - offset..];
      offset := t;
      err := NoError;
    }

    /** In step, the buffer reaches a target near it. */
    lemma NearInStep(t: int)
      requires Valid() && t < length && Near(t)
      ensures InStep() ==> t - offset <= |rbuf|
      ensures t - offset <= |rbuf| && chunk < 0 ==> t < 0
    {
      hide ChunkCount, Stores, IsAt;
      Bounds();
      if t >= 0 { PositionInChunk(t, chunkSize, length); }
    }

    /** Seeks through the store: loads the chunk that holds the target. */
    method Jump(t: int, down: set<int>) returns (err: ReadError)
      requires Valid() && t < length
      modifies this`chunk, this`rcache, this`rbuf, this`offset
      ensures Valid() && offset == t && chunk == Quotient(t, chunkSize) + 1
      ensures
        if !Answered(Quotient(t, chunkSize), old(rcache), Count(), down) then err == NotFetched && rbuf == [] && Pos() > t
        else if t < 0 then err == Panicked && Pos() == 0
        else err == NoError && Pos() == t
      ensures Prefetched(down)
      ensures down == {} && old(Healthy()) && t >= 0 ==> Healthy() && err == NoError
    {
      hide ChunkCount, IsAt, CutAt, Stores;
      var c := Quotient(t, chunkSize);
      JumpSteps(t);
      offset := t;
      chunk := c;
      rbuf := [];
      var data, failed := GetChunk(down);
      rbuf := data;
      if failed {
        EmptyAt(content, Pos());
        return NotFetched;
      }
      StoredChunk(chunks, chunkSize, content, c);
      if t < c * chunkSize {
        return Panicked;
      }
      DropAt(content, CutAt(c, chunkSize, length), rbuf, t - c * chunkSize);
      rbuf := rbuf[t - c * chunkSize..];
      err := NoError;
    }

    /** Where the chunk of a target starts and ends. */
    lemma JumpSteps(t: int)
      requires chunkSize > 0 && t < length
      ensures var c := Quotient(t, chunkSize);
        && CutAt(c + 1, chunkSize, length) <= length && CutAt(c + 1, chunkSize, length) > t
        && (c >= 0 ==> CutAt(c, chunkSize, length) == c * chunkSize)
        && (t >= 0 ==> 0 <= c < Count() && c * chunkSize <= t) && (c < 0 ==> t < 0) && (t < 0 ==> c <= 0)
    {
      hide ChunkCount;
      var c := Quotient(t, chunkSize);
      CutSteps(c, chunkSize, length);
      if t >= 0 {
        PositionInChunk(t, chunkSize, length);
        StartIsProduct(c, chunkSize);
      }
    }

    ghost function Now(): Moment
      reads this
    {
      Moment(offset, chunk, InStep())
    }

    /** With nothing failed so far and a store that answers, a read in step finds its chunks. */
    lemma HealthyAnswers(want: nat)
      requires Valid() && InStep() && Healthy() && offset < length
      ensures AllAnswered(chunk, rcache, Pos(), Wanted(want), {})
    {
      hide ChunkCount, CutAt, IsAt, Stores;
      forall n | Needed(n, chunk, Pos(), Wanted(want)) ensures Answered(n, rcache, Count(), {}) {
        CutSteps(n, chunkSize, length);
      }
    }

    /** One call: in step it is a step of the plain cursor, or it fails. */
    method PlayOne(op: Op, down: set<int>) returns (reply: Reply)
      requires Valid()
      modifies this`chunk, this`rcache, this`rbuf, this`offset
      ensures Valid() && StepRight(content, chunkSize, old(Now()), op, reply, Now())
      ensures old(InStep() && Healthy()) && down == {} && RefLegal(content, old(offset), op) ==> Healthy() && !reply.Failing()
    {
      hide ChunkCount, CutAt, Stores, Quotient, AllAnswered;
      Bounds();
      match op {
        case ReadOp(want) =>
          if InStep() && Healthy() && offset < length { HealthyAnswers(want); }
          var out, err, lost := Read(want, down);
          reply := Data(out, err);
        case SeekOp(off, whence) =>
          var pos, err := Seek(off, whence, down);
          reply := Moved(pos, err);
      }
    }

    lemma NowInFile()
      requires Valid()
      ensures chunkSize > 0 && (Now().inStep ==> 0 <= Now().offset <= |content|)
    {
      Bounds();
    }

    /** Any run, with any chunks unavailable at any call: every call behaves as its own step. */
    method PlayAny(ops: seq<Op>, downs: seq<set<int>>) returns (replies: seq<Reply>, ghost trace: seq<Moment>)
      requires Valid() && |downs| == |ops|
      modifies this`chunk, this`rcache, this`rbuf, this`offset
      ensures Valid() && trace != [] && trace[0] == old(Now()) && trace[|trace| - 1] == Now()
      ensures RunRight(content, chunkSize, ops, replies, trace)
    {
      hide Valid, StepRight, Now;
      replies, trace := [], [Now()];
      NowInFile();
      for i := 0 to |ops|
        invariant Valid() && |trace| == i + 1 && trace[0] == old(Now()) && trace[i] == Now()
        invariant RunRight(content, chunkSize, ops[..i], replies, trace)
      {
        var reply := PlayOne(ops[i], downs[i]);
        NowInFile();
        assert ops[..i + 1] == ops[..i] + [ops[i]];
        replies, trace := replies + [reply], trace + [Now()];
      }
      assert ops[..|ops|] == ops;
    }

    /** Over a store that answers any mix of reads and seeks gives what a plain cursor over the bytes gives. */
    method Play(ops: seq<Op>) returns (replies: seq<Reply>)
      requires Valid() && InStep() && Healthy() && 0 <= offset <= |content| && RefPlayable(content, offset, ops)
      modifies this`chunk, this`rcache, this`rbuf, this`offset
      ensures Valid() && InStep() && Healthy()
      ensures replies == RefPlay(content, old(offset), ops)
    {
      hide Valid, InStep, Healthy;
      replies := [];
      for i := 0 to |ops|
        invariant Valid() && InStep() && Healthy() && 0 <= offset <= |content| && RefPlayable(content, offset, ops[i..])
        invariant replies + RefPlay(content, offset, ops[i..]) == RefPlay(content, old(offset), ops)
      {
        assert ops[i..][0] == ops[i] && ops[i..][1..] == ops[i + 1..];
        var reply := PlayOne(ops[i], {});
        assert replies + ([reply] + RefPlay(content, offset, ops[i + 1..])) == replies + [reply] + RefPlay(content, offset, ops[i + 1..]);
        replies := replies + [reply];
      }
      assert ops[|ops|..] == [];
    }
  }

  // ------------------------------------------------- a plain cursor over the bytes

  datatype Op = ReadOp(want: nat) | SeekOp(off: int, whence: Whence)

  datatype Reply = Data(bytes: seq<Byte>, err: ReadError) | Moved(pos: int, err: ReadError) {
    predicate Failing() { err == NotFetched || err == Panicked }
  }

  function RefTarget(length: nat, pos: int, off: int, whence: Whence): int {
    match whence
    case FromStart => off
    case FromCurrent => off + pos
    case FromEnd => off + length
  }

  /** Not a seek to before the start of the file. */
  predicate RefLegal(content: seq<Byte>, pos: int, op: Op) {
    op.SeekOp? ==> RefTarget(|content|, pos, op.off, op.whence) >= 0
  }

  function RefStep(content: seq<Byte>, pos: nat, op: Op): (r: (Reply, nat))
    requires pos <= |content| && RefLegal(content, pos, op)
    ensures r.1 <= |content|
  {
    match op
    case ReadOp(want) =>
      if pos == |content| then (Data([], EndOfFile), pos)
      else
        var stop := Minimum(pos + want, |content|);
        (Data(content[pos..stop], NoError), stop)
    case SeekOp(off, whence) =>
      var t := RefTarget(|content|, pos, off, whence);
      if t > |content| then (Moved(pos, SeekPastEnd), pos) else (Moved(t, NoError), t)
  }

  predicate RefPlayable(content: seq<Byte>, pos: nat, ops: seq<Op>)
    requires pos <= |content|
    decreases |ops|
  {
    ops == [] || (RefLegal(content, pos, ops[0]) && RefPlayable(content, RefStep(content, pos, ops[0]).1, ops[1..]))
  }

  function RefPlay(content: seq<Byte>, pos: nat, ops: seq<Op>): seq<Reply>
    requires pos <= |content| && RefPlayable(content, pos, ops)
    decreases |ops|
  {
    if ops == [] then []
    else
      var (reply, next) := RefStep(content, pos, ops[0]);
      [reply] + RefPlay(content, next, ops[1..])
  }

  // ------------------------------------------------------ runs with failures

  /** What a caller could know of a reader between two calls. */
  datatype Moment = Moment(offset: int, chunk: int, inStep: bool)

  /** A seek that brings buffer and offset together whatever they were before. */
  predicate Restores(length: nat, size: nat, before: Moment, op: Op, err: ReadError)
    requires size > 0
  {
    op.SeekOp? && err == NoError &&
    var t := RefTarget(length, before.offset, op.off, op.whence);
    t == length || !(Quotient(t, size) + 1 == before.chunk && t >= before.offset)
  }

  /** In step a call that does not fail is the plain cursor's; out of step only a restoring seek helps. */
  ghost predicate StepRight(content: seq<Byte>, size: nat, before: Moment, op: Op, reply: Reply, after: Moment) {
    size > 0 &&
    if before.inStep then
      && 0 <= before.offset <= |content| && (after.inStep <==> !reply.Failing())
      && (if reply.Failing() then
            reply.Data? ==> after.offset == before.offset + |reply.bytes| && IsAt(content, before.offset, reply.bytes)
          else RefLegal(content, before.offset, op) && (reply, after.offset) == RefStep(content, before.offset, op))
    else after.inStep <==> Restores(|content|, size, before, op, reply.err)
  }

  ghost predicate RunRight(content: seq<Byte>, size: nat, ops: seq<Op>, replies: seq<Reply>, trace: seq<Moment>) {
    && size > 0 && |replies| == |ops| && |trace| == |ops| + 1
    && (forall i :: 0 <= i <= |ops| && trace[i].inStep ==> 0 <= trace[i].offset <= |content|)
    && forall i :: 0 <= i < |ops| ==> StepRight(content, size, trace[i], ops[i], replies[i], trace[i + 1])
  }

  /**
   * In any run, a stretch that starts in step and has no failing call gives what the plain
   * cursor gives from the offset it starts at.
   */
  lemma {:induction false} StretchIsCursor(
    content: seq<Byte>, size: nat, ops: seq<Op>, replies: seq<Reply>, trace: seq<Moment>, j: nat, k: nat)
    requires RunRight(content, size, ops, replies, trace) && j <= k <= |ops| && trace[j].inStep
    requires forall i :: j <= i < k ==> !replies[i].Failing()
    ensures RefPlayable(content, trace[j].offset, ops[j..k])
    ensures replies[j..k] == RefPlay(content, trace[j].offset, ops[j..k])
    ensures trace[k].inStep
    decreases k - j
  {
    if j < k {
      assert StepRight(content, size, trace[j], ops[j], replies[j], trace[j + 1]);
      StretchIsCursor(content, size, ops, replies, trace, j + 1, k);
      assert ops[j..k][0] == ops[j] && ops[j..k][1..] == ops[j + 1..k];
      assert replies[j..k] == [replies[j]] + replies[j + 1..k];
    }
  }

  /** No call failed before call k, or none has failed since the last restoring seek. */
  ghost predicate Settled(length: nat, size: nat, ops: seq<Op>, replies: seq<Reply>, trace: seq<Moment>, k: nat)
    requires size > 0 && |replies| == |ops| && |trace| == |ops| + 1 && k <= |ops|
  {
    || Calm(replies, 0, k)
    || exists r :: 0 <= r < k && Restores(length, size, trace[r], ops[r], replies[r].err) && Calm(replies, r + 1, k)
  }

  predicate Calm(replies: seq<Reply>, a: nat, b: nat)
    requires a <= b <= |replies|
  {
    forall i :: a <= i < b ==> !replies[i].Failing()
  }

  /** A run that starts in step is in step before call k exactly if it has settled by then. */
  lemma {:induction false} InStepExactly(
    content: seq<Byte>, size: nat, ops: seq<Op>, replies: seq<Reply>, trace: seq<Moment>, k: nat)
    requires RunRight(content, size, ops, replies, trace) && k <= |ops| && trace[0].inStep
    ensures trace[k].inStep <==> Settled(|content|, size, ops, replies, trace, k)
  {
    if k > 0 {
      var l := k - 1;
      InStepExactly(content, size, ops, replies, trace, l);
      assert StepRight(content, size, trace[l], ops[l], replies[l], trace[k]);
      if trace[l].inStep && !replies[l].Failing() {
        SettledOn(|content|, size, ops, replies, trace, l);
      } else if Restores(|content|, size, trace[l], ops[l], replies[l].err) {
        assert Calm(replies, l + 1, k);
      } else if Settled(|content|, size, ops, replies, trace, k) {
        SettledBefore(|content|, size, ops, replies, trace, l);
        assert false;
      }
    }
  }

  lemma SettledOn(length: nat, size: nat, ops: seq<Op>, replies: seq<Reply>, trace: seq<Moment>, l: nat)
    requires size > 0 && |replies| == |ops| && |trace| == |ops| + 1 && l < |ops|
    requires Settled(length, size, ops, replies, trace, l) && !replies[l].Failing()
    ensures Settled(length, size, ops, replies, trace, l + 1)
  {
    if !Calm(replies, 0, l) {
      var r :| 0 <= r < l && Restores(length, size, trace[r], ops[r], replies[r].err) && Calm(replies, r + 1, l);
      assert Calm(replies, r + 1, l + 1);
    }
  }

  lemma SettledBefore(length: nat, size: nat, ops: seq<Op>, replies: seq<Reply>, trace: seq<Moment>, l: nat)
    requires size > 0 && |replies| == |ops| && |trace| == |ops| + 1 && l < |ops|
    requires Settled(length, size, ops, replies, trace, l + 1) && !Restores(length, size, trace[l], ops[l], replies[l].err)
    ensures Settled(length, size, ops, replies, trace, l) && !replies[l].Failing()
  {
    if !Calm(replies, 0, l + 1) {
      var r :| 0 <= r < l + 1 && Restores(length, size, trace[r], ops[r], replies[r].err) && Calm(replies, r + 1, l + 1);
      assert Calm(replies, r + 1, l);
    }
  }

  /**
   * The chunk a failed fetch was for is skipped, so the next bytes read are not those at the
   * offset: in every file of more than one chunk, a read that misses chunk 0 makes the next
   * read return the bytes of chunk 1 at offset 0. A seek to offset 0 in between changes nothing.
   */
  method SkippedChunk(chunks: map<nat, seq<Byte>>, size: nat, content: seq<Byte>)
    returns (first: Reply, again: Reply, second: Reply)
    requires size > 0 && Stores(chunks, size, content) && |content| > size
    ensures first == Data([], NotFetched) && again == Moved(0, NoError) && second == Data([content[size]], NoError)
  {
    hide Stores, ChunkCount, CutAt, GridReader.Valid;
    ChunksOne(size, |content|);
    var r := new GridReader(chunks, size, |content|, content);
    first := MissFirst(r);
    var pos, moved := r.Seek(0, FromStart, {});
    again := Moved(pos, moved);
    assert r.chunk == 1 && r.Pos() == size && r.offset == 0;
    assert r.AllAnswered(1, r.rcache, size, 1, {}) by {
      forall n | r.Needed(n, 1, size, 1) && n >= 2 ensures false { CutGrows(2, n, size, |content|); }
    }
    var out, err, lost := r.Read(1, {});
    assert out == content[size..size + 1];
    second := Data(out, err);
  }

  /** The first read of a file, with chunk 0 unavailable. */
  method MissFirst(r: GridReader) returns (first: Reply)
    requires r.Valid() && r.chunk == r.offset == 0 && r.rbuf == [] && r.rcache == Empty && r.length > 0
    modifies r
    ensures r.Valid() && first == Data([], NotFetched) && r.chunk == 1 && r.offset == 0 && r.rbuf == [] && r.Prefetched({0})
  {
    hide Stores, ChunkCount;
    assert r.Needed(0, 0, 0, 1) && !Answered(0, Empty, r.Count(), {0});
    var out, err, lost := r.Read(1, {0});
    assert lost == 0;
    first := Data(out, err);
  }

  /** A seek into the chunk that was not answered for slices past the buffer. */
  method SlicedTooFar(chunks: map<nat, seq<Byte>>, size: nat, content: seq<Byte>) returns (first: Reply, moved: Reply)
    requires size > 1 && Stores(chunks, size, content) && |content| > 1
    ensures first == Data([], NotFetched) && moved == Moved(0, Panicked)
  {
    hide Stores, ChunkCount;
    var r := new GridReader(chunks, size, |content|, content);
    first := MissFirst(r);
    var pos, seek := r.Seek(1, FromStart, {});
    moved := Moved(pos, seek);
  }

  lemma ChunksOne(size: nat, length: nat)
    requires size > 0 && length > size
    ensures CutAt(0, size, length) == 0 && CutAt(1, size, length) == size && CutAt(2, size, length) > size
    ensures ChunkCount(length, size) >= 2
  {
    assert Start(1, size) == size && Start(2, size) == size + size;
    CutSteps(1, size, length);
  }

  /** Two bytes in chunks of one. */
  method TwoBytes() returns (first: Reply, second: Reply)
    ensures first == Data([], NotFetched) && second == Data([2], NoError)
  {
    var chunks := map[0 := [1], 1 := [2]];
    assert Stores(chunks, 1, [1, 2]) by {
      assert ChunkCount(2, 1) == 2 by { CountIsCeiling(2, 1); }
      assert Start(1, 1) == 1 && Start(2, 1) == 2;
    }
    var again;
    first, again, second := SkippedChunk(chunks, 1, [1, 2]);
  }

  // ------------------------------------------------------- writing, then reading

  function Joined(pieces: seq<seq<Byte>>): seq<Byte> {
    if pieces == [] then [] else Joined(pieces[..|pieces| - 1]) + pieces[|pieces| - 1]
  }

  /**
   * A file written in any pieces, with inserts landing, reporting back and failing in any way while
   * a write waits and between the writes: if its document was created, a reader opened on what is
   * stored gives what a plain cursor over the pieces gives.
   */
  method WriteThenRead(size: nat, pieces: seq<seq<Byte>>, reports: seq<seq<InsertReport>>, ops: seq<Op>)
    returns (created: bool, err: Failure, replies: seq<Reply>)
    requires size > 0 && |reports| == |pieces| && RefPlayable(Joined(pieces), 0, ops)
    ensures err == Ok ==> created
    ensures created ==> replies == RefPlay(Joined(pieces), 0, ops)
  {
    var w;
    w, err := WritePieces(size, pieces, reports);
    created, replies := w.doc.Doc?, [];
    if created {
      var reader := new GridReader(w.chunks, w.doc.chunkSize, w.doc.length, w.written);
      replies := reader.Play(ops);
    }
  }

  method WritePieces(size: nat, pieces: seq<seq<Byte>>, reports: seq<seq<InsertReport>>)
    returns (w: GridWriter, err: Failure)
    requires size > 0 && |reports| == |pieces|
    ensures fresh(w) && (err == Ok ==> w.doc.Doc?)
    ensures w.doc.Doc? ==>
      && w.doc == Doc(|Joined(pieces)|, size) && w.written == Joined(pieces) && Stores(w.chunks, size, Joined(pieces))
  {
    hide Stores, ChunkCount, GridWriter.Valid;
    w := new GridWriter(size);
    for i := 0 to |pieces|
      invariant w.Valid() && w.open && fresh(w) && w.chunkSize == size
      invariant w.err == Ok ==> w.written == Joined(pieces[..i])
    {
      var n, r := w.Write(pieces[i]);
      w.Report(reports[i]);
      assert pieces[..i + 1][..i] == pieces[..i];
    }
    assert pieces[..|pieces|] == pieces;
    err := w.Close();
    if w.doc.Doc? { w.Stored(); }
  }
}
