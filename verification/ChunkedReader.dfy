/** A remote file read in chunks by byte range. */
module ChunkRanges {
  import opened Extremes

  const CHUNK_SIZE: nat := 524288

  function TotalChunks(len: nat): nat {
    (len + CHUNK_SIZE - 1) / CHUNK_SIZE
  }

  /** The bytes requested for a chunk, both ends included. Before the length is
      known it counts as 0. */
  function First(idx: nat): nat {
    idx * CHUNK_SIZE
  }

  function Last(len: nat, idx: nat): int {
    Min(Max(len, CHUNK_SIZE), (idx + 1) * CHUNK_SIZE) - 1
  }

  /** What a server answers to an inclusive byte range: a last position past the
      end is cut to the end (section 14.1.2 of RFC 9110). */
  function Served(content: seq<bv8>, first: nat, last: int): seq<bv8>
    requires first <= last && first <= |content|
  {
    content[first..Min(last + 1, |content|)]
  }

  function ChunkOf(content: seq<bv8>, idx: nat): seq<bv8>
    requires idx < TotalChunks(|content|)
  {
    Served(content, First(idx), Last(|content|, idx))
  }

  /** Every byte is in the range of exactly one chunk. */
  lemma RangesDisjoint(len: nat, k: nat, idx: nat)
    requires k < len && idx < TotalChunks(len)
    ensures First(idx) <= k <= Last(len, idx) <==> idx == k / CHUNK_SIZE
    ensures k / CHUNK_SIZE < TotalChunks(len)
  {}

  /** The request made before the length is known gets the same first chunk. */
  lemma FirstChunk(content: seq<bv8>)
    requires content != []
    ensures Served(content, First(0), Last(0, 0)) == ChunkOf(content, 0)
  {}

  function Joined(content: seq<bv8>, n: nat): seq<bv8>
    requires n <= TotalChunks(|content|)
  {
    if n == 0 then [] else Joined(content, n - 1) + ChunkOf(content, n - 1)
  }

  lemma {:induction false} JoinedIsPrefix(content: seq<bv8>, n: nat)
    requires n <= TotalChunks(|content|)
    ensures Joined(content, n) == content[..Min(n * CHUNK_SIZE, |content|)]
  {
    if n > 0 {
      JoinedIsPrefix(content, n - 1);
    }
  }

  /** The chunks put together are the file. */
  lemma ChunksAreFile(content: seq<bv8>)
    ensures Joined(content, TotalChunks(|content|)) == content
  {
    JoinedIsPrefix(content, TotalChunks(|content|));
  }
}

module ChunkedReaders {
  import opened Extremes
  import opened ChunkRanges
  import opened Words

  datatype Outcome = Done | Eof | Closed | Failed

  datatype Cached = Missing | Data(data: seq<bv8>)

  datatype Whence = SeekCurrent | SeekStart | SeekEnd

  /** A sum as a 64-bit signed number. */
  function Wrap(x: int): int {
    if x >= TWO_63 then x - 2 * TWO_63 else if x + TWO_63 < 0 then x + 2 * TWO_63 else x
  }

  function Left(content: seq<bv8>, at: nat): nat {
    Max(0, |content| - at)
  }

  /** got is what the file holds from a position on, as far as it goes. */
  ghost predicate ReadSoFar(content: seq<bv8>, at: nat, got: seq<bv8>) {
    |got| <= Left(content, at) && (got != [] ==> got == content[at..at + |got|])
  }

  /** The rest of a chunk, from an offset on. */
  function RestOf(chunk: seq<bv8>, off: nat): seq<bv8> {
    chunk[Min(off, |chunk|)..]
  }

  /** The rest of the chunk the read has got to is what comes next, and after it the
      read has got to the next chunk, or to the end. */
  lemma ReadOn(content: seq<bv8>, at: nat, got: seq<bv8>, idx: nat, off: nat, k: nat)
    requires ReadSoFar(content, at, got) && idx < TotalChunks(|content|) && off < CHUNK_SIZE
    requires at + |got| == First(idx) + off && k <= |RestOf(ChunkOf(content, idx), off)|
    ensures var c := RestOf(ChunkOf(content, idx), off);
      && ReadSoFar(content, at, got + c[..k])
      && if idx + 1 < TotalChunks(|content|) then at + |got| + |c| == First(idx + 1)
         else |got| + |c| == Left(content, at)
  {
    hide RestOf, ChunkOf, First, TotalChunks;
    var c := RestOf(ChunkOf(content, idx), off);
    RestIs(content, idx, off);
    if |got| + k > 0 && c != [] {
      Slices(content, at, |got|, k);
      assert c[..k] == content[at + |got|..at + |got| + k];
    }
    assert c == [] ==> got + c[..k] == got;
  }

  /** The rest of a chunk is the file from there up to the next chunk or the end. */
  lemma RestIs(content: seq<bv8>, idx: nat, off: nat)
    requires idx < TotalChunks(|content|) && off < CHUNK_SIZE
    ensures var from, c := First(idx) + off, RestOf(ChunkOf(content, idx), off);
      && (c != [] ==> from + |c| <= |content| && c == content[from..from + |c|])
      && if idx + 1 < TotalChunks(|content|) then from + |c| == First(idx + 1) <= |content|
         else |c| == Left(content, from)
  {}

  lemma Slices(content: seq<bv8>, at: nat, m: nat, k: nat)
    requires at + m + k <= |content|
    ensures content[at..at + m] + content[at + m..at + m + k] == content[at..at + m + k]
  {}

  lemma NothingRead(content: seq<bv8>, at: nat)
    ensures ReadSoFar(content, at, [])
  {}

  lemma WithinFile(content: seq<bv8>, at: nat, got: seq<bv8>)
    requires ReadSoFar(content, at, got)
    ensures |got| <= Left(content, at)
  {}

  lemma StartsAt(at: nat)
    ensures at == First(at / CHUNK_SIZE) + at % CHUNK_SIZE
  {}

  /** Copies as much of src as fits behind the first n bytes of p. */
  method Copy(p: array<bv8>, n: nat, src: seq<bv8>) returns (k: nat)
    requires n <= p.Length
    modifies p
    ensures k == Min(p.Length - n, |src|) && p[..n + k] == old(p[..n]) + src[..k] && p[n + k..] == old(p[n + k..])
  {
    k := 0;
    while k < |src| && n + k < p.Length
      invariant k <= |src| && n + k <= p.Length
      invariant forall i :: 0 <= i < k ==> p[n + i] == src[i]
      invariant forall i :: 0 <= i < n || n + k <= i < p.Length ==> p[i] == old(p[i])
    {
      p[n + k] := src[k];
      k := k + 1;
    }
  }

  class HttpChunkedReader {
    /** The file on the server. */
    const content: seq<bv8>
    const len: nat
    const online: bool  // no download fails
    var chunks: seq<Cached>
    var pos: nat
    var closed: bool

    ghost predicate Valid()
      reads this
    {
      && len == |content| > 0 && |chunks| == TotalChunks(len)
      && forall i :: 0 <= i < |chunks| && chunks[i].Data? ==> chunks[i].data == ChunkOf(content, i)
    }

    constructor (content: seq<bv8>, online: bool)
      requires 0 < |content|
      ensures Valid() && this.content == content && this.online == online && pos == 0 && !closed
      ensures chunks[0].Data? && forall i :: 0 < i < |chunks| ==> chunks[i].Missing?
    {
      this.content, len, this.online, pos, closed := content, |content|, online, 0, false;
      FirstChunk(content);
      var first := Served(content, First(0), Last(0, 0));
      chunks := [Data(first)] + seq(TotalChunks(|content|) - 1, _ => Missing);
    }

    /** Every chunk that n bytes from a position on lie in is there. */
    ghost predicate Cached(at: nat, n: nat)
      reads this
    {
      forall i :: 0 <= i < |chunks| && at / CHUNK_SIZE <= i && First(i) < at + n ==> chunks[i].Data?
    }

    /** What was downloaded stays. */
    twostate predicate Keeps()
      reads this
    {
      |chunks| == |old(chunks)| && forall i :: 0 <= i < |chunks| && old(chunks)[i].Data? ==> chunks[i] == old(chunks)[i]
    }

    /** The data of a chunk, downloading it unless it is there. A download may fail
        unless the reader is online. */
    method FetchChunk(idx: nat) returns (outcome: Outcome, data: seq<bv8>)
      requires Valid() && idx < |chunks|
      modifies `chunks
      ensures Valid() && !outcome.Eof? && (outcome.Done? ==> data == ChunkOf(content, idx))
      ensures outcome.Closed? <==> closed
      ensures !closed && (online || old(chunks)[idx].Data?) ==> outcome.Done?
      ensures chunks == if outcome.Done? then old(chunks)[idx := Data(data)] else old(chunks)
    {
      if closed {
        return Closed, [];
      }
      match chunks[idx] {
        case Data(there) => return Done, there;
        case Missing =>
      }
      var refused := *;
      if refused && !online {
        return Failed, [];
      }
      data := Served(content, First(idx), Last(len, idx));
      chunks := chunks[idx := Data(data)];
      outcome := Done;
    }

    /** Copies what fits of the rest of a chunk behind the first n bytes of p. */
    method Take(p: array<bv8>, ghost at: nat, n: nat, ghost idx: nat, ghost off: nat, c: seq<bv8>) returns (k: nat)
      requires Valid() && n <= p.Length && idx < |chunks| && off < CHUNK_SIZE && at + n == First(idx) + off
      requires ReadSoFar(content, at, p[..n]) && c == RestOf(ChunkOf(content, idx), off)
      modifies p
      ensures k == Min(p.Length - n, |c|) && ReadSoFar(content, at, p[..n + k]) && p[n + k..] == old(p[n + k..])
      ensures if idx + 1 < |chunks| then at + n + |c| == First(idx + 1) else n + |c| == Left(content, at)
    {
      hide ReadSoFar, ChunkOf, RestOf, First;
      ghost var got := p[..n];
      ReadOn(content, at, got, idx, off, Min(p.Length - n, |c|));
      if |c| > p.Length - n {
        k := Copy(p, n, c[..p.Length - n]);
        assert c[..p.Length - n][..k] == c[..k];
      } else {
        k := Copy(p, n, c);
      }
    }

    /** Reads at a position, filling p as far as the file goes unless a chunk cannot
        be had, which needs a download to fail. Nothing past what was read is touched. */
    method ReadAt(p: array<bv8>, at: nat) returns (n: nat, outcome: Outcome)
      requires Valid()
      modifies `chunks, p
      ensures Valid() && n <= p.Length && ReadSoFar(content, at, p[..n]) && p[n..] == old(p[n..])
      ensures outcome.Done? || outcome.Eof? ==> n == Min(p.Length, Left(content, at))
      ensures outcome.Done? || outcome.Eof? ==>
        (outcome.Eof? <==> p.Length > Left(content, at) || at / CHUNK_SIZE >= TotalChunks(len))
      ensures outcome.Closed? <==> closed
      ensures !closed && (online || old(Cached(at, p.Length))) ==> outcome.Done? || outcome.Eof?
      ensures Keeps()
    {
      hide ReadSoFar, ChunkOf, RestOf, First;
      if closed {
        NothingRead(content, at);
        return 0, Closed;
      }
      var chunkIdx: nat, off: nat := at / CHUNK_SIZE, at % CHUNK_SIZE;
      n := 0;
      NothingRead(content, at);
      if chunkIdx >= |chunks| {
        return 0, Eof;
      }
      StartsAt(at);
      while n < p.Length
        invariant Valid() && n <= p.Length && chunkIdx <= |chunks| && off < CHUNK_SIZE
        invariant ReadSoFar(content, at, p[..n]) && p[n..] == old(p[n..])
        invariant if chunkIdx < |chunks| then at + n == First(chunkIdx) + off else n == Left(content, at)
        invariant at / CHUNK_SIZE <= chunkIdx && Keeps()
        decreases |chunks| - chunkIdx
      {
        if chunkIdx >= |chunks| {
          WithinFile(content, at, p[..n]);
          return n, Eof;
        }
        var fetched, chunk := FetchChunk(chunkIdx);
        if !fetched.Done? {
          return n, fetched;
        }
        var c := RestOf(chunk, off);
        var k := Take(p, at, n, chunkIdx, off, c);
        if |c| > p.Length - n {
          WithinFile(content, at, p[..n + k]);
          return n + k, Done;
        }
        n := n + k;
        chunkIdx, off := chunkIdx + 1, 0;
      }
      WithinFile(content, at, p[..n]);
      outcome := Done;
    }

    method Close()
      modifies `closed
      ensures closed
    {
      closed := true;
    }

    /** Reads on from the current position. */
    method Read(p: array<bv8>) returns (n: nat, outcome: Outcome)
      requires Valid()
      modifies this, p
      ensures Valid() && n <= p.Length && ReadSoFar(content, old(pos), p[..n]) && p[n..] == old(p[n..])
      ensures outcome.Done? || outcome.Eof? ==> n == Min(p.Length, Left(content, old(pos)))
      ensures pos == old(pos) + n && closed == old(closed) && Keeps()
      ensures outcome.Closed? <==> closed
      ensures !closed && (online || old(Cached(pos, p.Length))) ==> outcome.Done? || outcome.Eof?
    {
      n, outcome := ReadAt(p, pos);
      pos := pos + n;
    }

    /** Moves the position, which has to stay inside the file. The sums are those of
        64-bit numbers, and still decide as if they could not overflow. */
    method Seek(offset: int, whence: Whence) returns (ok: bool)
      requires Valid() && 0 <= offset + TWO_63 < 2 * TWO_63 && pos < TWO_63 && len < TWO_63
      modifies `pos
      ensures var base := match whence { case SeekCurrent => old(pos) case SeekStart => 0 case SeekEnd => len };
        && ok == (0 <= base + offset < len)
        && pos == if ok then base + offset else old(pos)
    {
      match whence {
        case SeekCurrent =>
          if Wrap(pos + offset) < 0 || Wrap(pos + offset) >= len {
            return false;
          }
          pos := Wrap(pos + offset);
        case SeekStart =>
          if offset < 0 || offset >= len {
            return false;
          }
          pos := offset;
        case SeekEnd =>
          if Wrap(len + offset) < 0 || Wrap(len + offset) >= len {
            return false;
          }
          pos := Wrap(len + offset);
      }
      ok := true;
    }
  }
}
