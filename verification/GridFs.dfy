/**
 * GridFS files: bytes split over numbered chunk documents, and the writer, which
 * sends full chunks to the store in the background.
 */
module GridFs {
  type Byte = x: int | 0 <= x < 256

  const MEGABYTE: int := 1024 * 1024

  /** Where chunk n starts: n times the chunk size. */
  function Start(n: nat, size: nat): (p: nat) {
    if n == 0 then 0 else Start(n - 1, size) + size
  }

  lemma {:induction false} StartIsProduct(n: nat, size: nat)
    ensures Start(n, size) == n * size
  {
    if n > 0 {
      StartIsProduct(n - 1, size);
      assert n * size == (n - 1) * size + size;
    }
  }

  /** Where chunk n starts, or the end of a file that is shorter. */
  function Cut(n: nat, size: nat, length: nat): nat {
    if Start(n, size) < length then Start(n, size) else length
  }

  /** The chunk that holds a position. */
  function ChunkOf(pos: nat, size: nat): (n: nat)
    requires size > 0
    ensures Start(n, size) <= pos < Start(n + 1, size)
  {
    var n := pos / size;
    StartIsProduct(n, size);
    assert pos == n * size + pos % size;
    n
  }

  /** The number of chunks of a file: its length over the chunk size, rounded up. */
  function ChunkCount(length: nat, size: nat): (c: nat)
    requires size > 0
    ensures Start(c, size) >= length && (c > 0 ==> Start(c - 1, size) < length)
  {
    if length == 0 then 0 else ChunkOf(length - 1, size) + 1
  }

  lemma CountIsCeiling(length: nat, size: nat)
    requires size > 0
    ensures ChunkCount(length, size) == (length + size - 1) / size
  {
    if length > 0 {
      var n := (length - 1) / size;
      assert length - 1 == n * size + (length - 1) % size;
      assert length + size - 1 == (n + 1) * size + (length - 1) % size;
      QuotientIs(length + size - 1, n + 1, (length - 1) % size, size);
    } else {
      QuotientIs(size - 1, 0, size - 1, size);
    }
  }

  lemma MulMonotone(a: nat, b: nat, size: nat)
    ensures a <= b ==> a * size <= b * size
    ensures (a + 1) * size == a * size + size && (b + 1) * size == b * size + size
  {
    if a <= b { assert b * size == a * size + (b - a) * size; }
  }

  lemma QuotientIs(x: nat, q: nat, r: nat, size: nat)
    requires r < size && x == q * size + r
    ensures x / size == q
  {
    var k := x / size;
    assert x == k * size + x % size;
    MulMonotone(k + 1, q, size);
    MulMonotone(q + 1, k, size);
    MulMonotone(k, q, size);
  }

  lemma {:induction false} StartMonotone(a: nat, b: nat, size: nat)
    requires a <= b
    ensures Start(a, size) <= Start(b, size)
    ensures a < b ==> Start(a + 1, size) <= Start(b, size)
  {
    if a < b { StartMonotone(a, b - 1, size); }
  }

  lemma CountUnique(c: nat, length: nat, size: nat)
    requires size > 0 && Start(c, size) >= length && (c > 0 ==> Start(c - 1, size) < length)
    ensures c == ChunkCount(length, size)
  {
    var d := ChunkCount(length, size);
    if c < d { StartMonotone(c, d - 1, size); } else if d < c { StartMonotone(d, c - 1, size); }
  }

  /** The stored chunks are exactly the cuts of the content, numbered from zero. */
  ghost predicate Stores(chunks: map<nat, seq<Byte>>, size: nat, content: seq<Byte>)
    requires size > 0
  {
    && (forall n: nat :: n in chunks <==> n < ChunkCount(|content|, size))
    && (forall n: nat :: n in chunks ==> ChunkIs(chunks[n], n, size, content))
  }

  ghost predicate ChunkIs(data: seq<Byte>, n: nat, size: nat, content: seq<Byte>) {
    Start(n, size) <= Cut(n + 1, size, |content|)
    && data == content[Start(n, size)..Cut(n + 1, size, |content|)]
  }

  /** Every stored chunk but the last is full and no chunk is empty. */
  lemma ChunkSizes(chunks: map<nat, seq<Byte>>, size: nat, content: seq<Byte>, n: nat)
    requires size > 0 && Stores(chunks, size, content) && n in chunks
    ensures 0 < |chunks[n]| <= size
    ensures n + 1 in chunks ==> |chunks[n]| == size
  {
    var c := ChunkCount(|content|, size);
    assert ChunkIs(chunks[n], n, size, content);
    StartMonotone(n, n + 1, size);
    StartMonotone(n, c - 1, size);
    if n + 1 in chunks { StartMonotone(n + 1, c - 1, size); }
  }

  function Concat(chunks: map<nat, seq<Byte>>, n: nat): seq<Byte>
    requires forall i: nat :: i < n ==> i in chunks
  {
    if n == 0 then [] else Concat(chunks, n - 1) + chunks[n - 1]
  }

  /** Laid end to end the first n chunks are the content up to chunk n. */
  lemma {:induction false} ConcatIsContent(chunks: map<nat, seq<Byte>>, size: nat, content: seq<Byte>, n: nat)
    requires size > 0 && Stores(chunks, size, content) && n <= ChunkCount(|content|, size)
    ensures forall i: nat :: i < n ==> i in chunks
    ensures Concat(chunks, n) == content[..Cut(n, size, |content|)]
  {
    hide ChunkCount, Stores, Start, Cut;
    if n == 0 {
      assert Cut(0, size, |content|) == 0 by { CutZero(size, |content|); }
    } else {
      ConcatIsContent(chunks, size, content, n - 1);
      ChunkAt(chunks, size, content, n - 1);
      var a, b := Start(n - 1, size), Cut(n, size, |content|);
      assert content[..a] + content[a..b] == content[..b];
    }
  }

  lemma CutZero(size: nat, length: nat)
    ensures Cut(0, size, length) == 0
  {
  }

  lemma ChunkAt(chunks: map<nat, seq<Byte>>, size: nat, content: seq<Byte>, n: nat)
    requires size > 0 && Stores(chunks, size, content) && n < ChunkCount(|content|, size)
    ensures n in chunks && Start(n, size) == Cut(n, size, |content|) <= Cut(n + 1, size, |content|) <= |content|
    ensures chunks[n] == content[Start(n, size)..Cut(n + 1, size, |content|)] && chunks[n] != []
  {
    assert ChunkIs(chunks[n], n, size, content);
    StartMonotone(n, ChunkCount(|content|, size) - 1, size);
  }

  lemma RemoveOne<T>(m: map<nat, T>, n: nat)
    requires n in m
    ensures |m - {n}| == |m| - 1
  {
    assert m.Keys == (m - {n}).Keys + {n};
  }

  /** Everything laid end to end is everything. */
  lemma AllChunks(chunks: map<nat, seq<Byte>>, size: nat, content: seq<Byte>)
    requires size > 0 && Stores(chunks, size, content)
    ensures forall i: nat :: i < ChunkCount(|content|, size) ==> i in chunks
    ensures Concat(chunks, ChunkCount(|content|, size)) == content
  {
    ConcatIsContent(chunks, size, content, ChunkCount(|content|, size));
    assert content[..|content|] == content;
  }

  // ------------------------------------------------------------------- writing

  datatype FileDoc = NoDoc | Doc(length: nat, chunkSize: nat)

  datatype Failure = Ok | Failed

  /** What a running insert can do while the lock is free. */
  datatype InsertReport = Landed(n: nat) | ReportedBack(n: nat, failed: bool)

  /** A file opened for writing, with the part of the store that carries its id. */
  class GridWriter {
    var err: Failure
    var chunk: nat
    var wbuf: seq<Byte>
    var chunkSize: nat
    var length: nat
    var open: bool

    // The store: chunk documents and the file document of this id.
    var chunks: map<nat, seq<Byte>>
    var doc: FileDoc

    // Inserts running in the background, by chunk number; wpending counts them.
    var pending: map<nat, seq<Byte>>
    var wpending: nat

    // All bytes accepted so far.
    ghost var written: seq<Byte>

    /** Chunks numbered below k have been handed to an insert, and only those. */
    ghost predicate SentBelow(k: nat)
      reads this`chunkSize, this`length, this`written, this`wpending, this`pending, this`chunks, this`err
    {
      && chunkSize > 0 && length == |written| && wpending == |pending|
      && (forall n :: n in pending ==> n < k && ChunkIs(pending[n], n, chunkSize, written))
      && (forall n :: n in chunks ==> n < k && ChunkIs(chunks[n], n, chunkSize, written))
      && (err == Ok ==> forall n: nat :: n < k ==> n in chunks || n in pending)
    }

    ghost predicate Valid()
      reads this
    {
      && SentBelow(chunk)
      && (if open then
            && doc == NoDoc && |wbuf| <= chunkSize && Start(chunk, chunkSize) + |wbuf| == |written|
            && wbuf == written[Start(chunk, chunkSize)..]
          else
            && pending == map[]
            && (doc == NoDoc || (doc == Doc(|written|, chunkSize) && Stores(chunks, chunkSize, written))))
    }

    constructor (size: nat)
      requires size > 0
      ensures Valid() && open && written == [] && chunkSize == size && err == Ok
    {
      err, chunk, wbuf, chunkSize, length, open := Ok, 0, [], size, 0, true;
      chunks, doc, pending, wpending, written := map[], NoDoc, map[], 0, [];
    }

    /** Environment: a running insert reaches the store before its goroutine reports back. */
    method InsertLands(n: nat)
      requires Valid() && n in pending
      modifies this`chunks
      ensures Valid() && chunks == old(chunks)[n := pending[n]]
    {
      chunks := chunks[n := pending[n]];
    }

    /** Environment: a goroutine reports back under the lock; a failed insert may or may not have landed. */
    method InsertDone(n: nat, failed: bool, ghost k: nat)
      requires SentBelow(k) && n in pending
      modifies this`chunks, this`pending, this`wpending, this`err
      ensures SentBelow(k) && pending == old(pending) - {n} && wpending == old(wpending) - 1
      ensures err == if failed || old(err) != Ok then Failed else Ok
    {
      hide ChunkIs;
      RemoveOne(pending, n);
      if !failed {
        chunks := chunks[n := pending[n]];
      }
      pending := pending - {n};
      wpending := wpending - 1;
      if failed && err == Ok {
        err := Failed;
      }
    }

    /**
     * Environment: while the lock is free, inserts land and goroutines report back, in any order.
     * Only what is pending can do either.
     */
    method Report(reports: seq<InsertReport>)
      requires Valid() && open
      modifies this`chunks, this`pending, this`wpending, this`err
      ensures Valid() && (old(err) != Ok ==> err != Ok)
    {
      hide ChunkIs, Start, SentBelow;
      for i := 0 to |reports|
        invariant Valid() && (old(err) != Ok ==> err != Ok)
      {
        var n := reports[i].n;
        if n in pending {
          match reports[i] {
            case Landed(_) => InsertLands(n);
            case ReportedBack(_, failed) => InsertDone(n, failed, chunk);
          }
        }
      }
    }

    /** Blocks until some goroutine broadcasts; which one, and with what result, is open. */
    method Wait(ghost k: nat)
      requires SentBelow(k) && wpending > 0
      modifies this`chunks, this`pending, this`wpending, this`err
      ensures SentBelow(k) && wpending < old(wpending) && (old(err) != Ok ==> err != Ok)
    {
      assert pending.Keys != {};
      var n :| n in pending.Keys;
      var failed: bool := *;
      InsertDone(n, failed, k);
    }

    /** Numbers a chunk and starts its insert, first waiting while a megabyte is in flight. */
    method InsertChunk(data: seq<Byte>)
      requires SentBelow(chunk) && ChunkIs(data, chunk, chunkSize, written)
      modifies this`chunk, this`chunks, this`pending, this`wpending, this`err
      ensures SentBelow(chunk) && chunk == old(chunk) + 1 && (old(err) != Ok ==> err != Ok)
    {
      hide ChunkIs;
      var n := chunk;
      chunk := chunk + 1;
      while chunkSize * wpending >= MEGABYTE
        invariant SentBelow(n) && chunk == n + 1 && (old(err) != Ok ==> err != Ok)
        decreases wpending
      {
        Wait(n);
        if err != Ok {
          return;
        }
      }
      wpending := wpending + 1;
      pending := pending[n := data];
    }

    /** A longer file keeps the full chunks it has. */
    lemma GrowthKeepsChunk(data: seq<Byte>, n: nat, more: seq<Byte>)
      requires ChunkIs(data, n, chunkSize, written) && Start(n + 1, chunkSize) <= |written|
      ensures ChunkIs(data, n, chunkSize, written + more)
    {
      assert (written + more)[Start(n, chunkSize)..Start(n + 1, chunkSize)] == written[Start(n, chunkSize)..Start(n + 1, chunkSize)];
    }

    /** Room is made in the record of written bytes; what was sent stays right. */
    lemma GrowthKeepsSent(more: seq<Byte>)
      requires SentBelow(chunk) && Start(chunk, chunkSize) <= |written|
      ensures forall i :: i in pending ==> ChunkIs(pending[i], i, chunkSize, written + more)
      ensures forall i :: i in chunks ==> ChunkIs(chunks[i], i, chunkSize, written + more)
    {
      forall i | i in pending ensures ChunkIs(pending[i], i, chunkSize, written + more) {
        StartMonotone(i, chunk, chunkSize);
        GrowthKeepsChunk(pending[i], i, more);
      }
      forall i | i in chunks ensures ChunkIs(chunks[i], i, chunkSize, written + more) {
        StartMonotone(i, chunk, chunkSize);
        GrowthKeepsChunk(chunks[i], i, more);
      }
    }

    /** What still has to be sent, with the buffer at its front. */
    ghost predicate ToSend(rest: seq<Byte>)
      reads this
    {
      Start(chunk, chunkSize) + |wbuf| + |rest| == |written| && written[Start(chunk, chunkSize)..] == wbuf + rest
    }

    /** Counts the new bytes in. */
    method Accept(data: seq<Byte>)
      requires Valid() && open
      modifies this`length, this`written
      ensures SentBelow(chunk) && ToSend(data) && written == old(written) + data
    {
      hide ChunkIs, Start;
      GrowthKeepsSent(data);
      length := length + |data|;
      written := written + data;
    }

    /** Accepts bytes: everything but an incomplete last chunk is sent off. */
    method Write(data: seq<Byte>) returns (n: nat, r: Failure)
      requires Valid() && open
      modifies this
      ensures Valid() && open && chunkSize == old(chunkSize) && r == err
      ensures old(err) != Ok ==> n == 0 && written == old(written) && err != Ok
      ensures old(err) == Ok ==> n == |data| && written == old(written) + data
    {
      hide ChunkIs, Start, SentBelow;
      if err != Ok {
        return 0, err;
      }
      n := |data|;
      Positive();
      Accept(data);
      var rest := data;
      if |wbuf| + |data| < chunkSize {
        wbuf := wbuf + data;
        return n, err;
      }
      if |wbuf| > 0 {
        rest := FlushBuffer(rest);
      }
      rest := SendFull(rest);
      wbuf := wbuf + rest;
      return n, err;
    }

    /** Sends whole chunks straight from the data while more than one is left. */
    method SendFull(data: seq<Byte>) returns (rest: seq<Byte>)
      requires SentBelow(chunk) && ToSend(data) && wbuf == []
      modifies this`chunk, this`chunks, this`pending, this`wpending, this`err
      ensures SentBelow(chunk) && ToSend(rest) && |rest| <= chunkSize
    {
      hide ChunkIs, Start;
      rest := data;
      while |rest| > chunkSize
        invariant SentBelow(chunk) && ToSend(rest)
      {
        var size := chunkSize;
        if size > |rest| {
          size := |rest|;
        }
        assert wbuf + rest == rest[..size] + rest[size..];
        CutFull(written, chunk, chunkSize, rest[..size], rest[size..]);
        InsertChunk(rest[..size]);
        rest := rest[size..];
        assert wbuf + rest == rest;
      }
    }

    /** Completes the buffered chunk from the data and sends it. */
    method FlushBuffer(data: seq<Byte>) returns (rest: seq<Byte>)
      requires SentBelow(chunk) && ToSend(data) && 0 < |wbuf| <= chunkSize <= |wbuf| + |data|
      modifies this`chunk, this`chunks, this`pending, this`wpending, this`err, this`wbuf
      ensures SentBelow(chunk) && ToSend(rest) && wbuf == []
    {
      hide ChunkIs, Start;
      var missing := chunkSize - |wbuf|;
      if missing > |data| {
        missing := |data|;
      }
      wbuf := wbuf + data[..missing];
      rest := data[missing..];
      CutFull(written, chunk, chunkSize, wbuf, rest);
      InsertChunk(wbuf);
      wbuf := [];
      assert wbuf + rest == rest;
    }

    /** Ends an open file so that it is not created. */
    method Abort()
      requires Valid() && open
      modifies this`err
      ensures Valid() && err == Failed
    {
      err := Failed;
    }

    lemma Positive()
      requires SentBelow(chunk)
      ensures chunkSize > 0
    {
    }

    /** Flushes the last chunk, waits for all inserts, then creates the file document or removes the chunks. */
    method Close() returns (r: Failure)
      requires Valid() && open
      modifies this
      ensures Valid() && !open && r == err && written == old(written) && chunkSize == old(chunkSize)
      ensures old(err) != Ok ==> doc == NoDoc
      ensures r == Ok ==> doc.Doc?
      ensures doc == NoDoc ==> r != Ok && chunks == map[]
    {
      hide ChunkIs, ChunkCount, Start, SentBelow, Stores;
      Positive();
      CutLast(written, chunk, chunkSize, wbuf);
      if |wbuf| > 0 && err == Ok {
        InsertChunk(wbuf);
        wbuf := [];
      }
      CompleteWrite();
      open := false;
      r := err;
    }

    /** A file document stands only beside all of its chunks. */
    lemma Stored()
      requires Valid() && doc.Doc?
      ensures chunkSize > 0 && doc == Doc(|written|, chunkSize) && Stores(chunks, chunkSize, written)
    {
    }

    method WaitAll()
      requires SentBelow(chunk)
      modifies this`err, this`chunks, this`pending, this`wpending
      ensures SentBelow(chunk) && pending == map[] && (old(err) != Ok ==> err != Ok)
    {
      while wpending > 0
        invariant SentBelow(chunk) && (old(err) != Ok ==> err != Ok)
        decreases wpending
      {
        Wait(chunk);
      }
      assert pending.Keys == {};
    }

    method CompleteWrite()
      requires SentBelow(chunk) && doc == NoDoc && (err == Ok ==> chunk == ChunkCount(|written|, chunkSize))
      modifies this`err, this`doc, this`chunks, this`pending, this`wpending
      ensures SentBelow(chunk) && pending == map[] && (old(err) != Ok ==> err != Ok && doc == NoDoc)
      ensures err == Ok ==> doc.Doc?
      ensures doc == NoDoc ==> err != Ok && chunks == map[]
      ensures doc.Doc? ==> doc == Doc(|written|, chunkSize) && Stores(chunks, chunkSize, written)
    {
      hide ChunkIs;
      WaitAll();
      if err == Ok {
        // Files.Insert
        var failed: bool := *;
        if failed {
          err := Failed;
        } else {
          doc := Doc(length, chunkSize);
        }
      }
      if err != Ok {
        chunks := map[];
      }
      if err == Ok {
        // EnsureIndex
        var failed: bool := *;
        if failed {
          err := Failed;
        }
      }
    }
  }

  /** The buffer left at the end is the last chunk, or there is none. */
  lemma CutLast(written: seq<Byte>, chunk: nat, size: nat, wbuf: seq<Byte>)
    requires size > 0 && |wbuf| <= size && Start(chunk, size) + |wbuf| == |written| && wbuf == written[Start(chunk, size)..]
    ensures wbuf == [] ==> chunk == ChunkCount(|written|, size)
    ensures wbuf != [] ==> ChunkIs(wbuf, chunk, size, written) && chunk + 1 == ChunkCount(|written|, size)
  {
    CountUnique(if wbuf == [] then chunk else chunk + 1, |written|, size);
    assert written[Start(chunk, size)..] == written[Start(chunk, size)..|written|];
  }

  /** A full chunk cut off the front of what is still to be sent. */
  lemma CutFull(written: seq<Byte>, chunk: nat, size: nat, head: seq<Byte>, rest: seq<Byte>)
    requires size > 0 && |head| == size
    requires Start(chunk, size) <= |written| && written[Start(chunk, size)..] == head + rest
    ensures ChunkIs(head, chunk, size, written)
    ensures Start(chunk + 1, size) + |rest| == |written| && written[Start(chunk + 1, size)..] == rest
  {
    var a := Start(chunk, size);
    assert |written| == a + size + |rest|;
    assert written[a..][..size] == head && written[a..][..size] == written[a..a + size];
    assert written[a..][size..] == rest && written[a..][size..] == written[a + size..];
  }
}
