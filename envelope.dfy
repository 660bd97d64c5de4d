/**
 * The response envelope handed back to the caller: either the streaming response of the primary
 * HTTP client or the fully buffered `_SimpleResponse` built by the urllib fallback, whose
 * `aiter_content` slices the body into fixed-size chunks.
 */
module Envelope {
  import opened Wrappers
  import opened Exceptions

  newtype byte = x: int | 0 <= x < 256

  datatype Response =
      /** A streaming response of the primary client; its body is read by the caller, not here. */
    | Streaming(statusCode: int, handle: nat)
      /** `_SimpleResponse`: status, lower-cased headers and the buffered body (which may be None). */
    | Simple(statusCode: int, headers: map<string, string>, content: Option<seq<byte>>)

  /** The default `chunk_size` of `aiter_content`. */
  const DefaultChunkSize: nat := 64 * 1024

  /** `self.content or b""`. */
  function Body(content: Option<seq<byte>>): seq<byte> {
    if content.Some? then content.value else []
  }

  /** The chunks `data[i:i + chunkSize]`, `data[i + chunkSize:i + 2 * chunkSize]`, ... from offset `i` to the end. */
  function ChunksFrom(data: seq<byte>, chunkSize: nat, i: nat): seq<seq<byte>>
    requires chunkSize > 0
    decreases |data| - i
  {
    if i >= |data| then []
    else if |data| - i <= chunkSize then [data[i..]]
    else [data[i..i + chunkSize]] + ChunksFrom(data, chunkSize, i + chunkSize)
  }

  /** One step of the range, after the chunks `done`: the chunk at offset `i`, then the chunks after it. */
  lemma ChunksFromStep(data: seq<byte>, chunkSize: nat, i: nat, done: seq<seq<byte>>)
    requires chunkSize > 0 && i < |data|
    ensures var end := if i + chunkSize < |data| then i + chunkSize else |data|;
      done + ChunksFrom(data, chunkSize, i) == (done + [data[i..end]]) + ChunksFrom(data, chunkSize, i + chunkSize)
  {
    var end := if i + chunkSize < |data| then i + chunkSize else |data|;
    var rest := ChunksFrom(data, chunkSize, i + chunkSize);
    if |data| - i <= chunkSize {
      assert data[i..end] == data[i..];
      assert rest == [];
    }
    assert ChunksFrom(data, chunkSize, i) == [data[i..end]] + rest;
    assert (done + [data[i..end]]) + rest == done + ([data[i..end]] + rest);
  }

  /** Past the end of the data the range yields nothing more. */
  lemma ChunksFromEnd(data: seq<byte>, chunkSize: nat, i: nat, done: seq<seq<byte>>)
    requires chunkSize > 0 && i >= |data|
    ensures done + ChunksFrom(data, chunkSize, i) == done
  {
    assert ChunksFrom(data, chunkSize, i) == [];
    assert done + [] == done;
  }

  /** The chunks `data[i:i + chunkSize]` for `i` in `range(0, len(data), chunkSize)`. */
  function Chunks(data: seq<byte>, chunkSize: nat): seq<seq<byte>>
    requires chunkSize > 0
  {
    ChunksFrom(data, chunkSize, 0)
  }

  /** What a consumer reassembles from the chunks: `b"".join(chunks)`. */
  function Concat(chunks: seq<seq<byte>>): seq<byte> {
    if chunks == [] then [] else chunks[0] + Concat(chunks[1..])
  }

  lemma {:induction false} ChunksFromRoundTrip(data: seq<byte>, chunkSize: nat, i: nat)
    requires chunkSize > 0 && i <= |data|
    ensures Concat(ChunksFrom(data, chunkSize, i)) == data[i..]
    decreases |data| - i
  {
    var chunks := ChunksFrom(data, chunkSize, i);
    if |data| - i > chunkSize {
      ChunksFromRoundTrip(data, chunkSize, i + chunkSize);
      assert chunks[0] == data[i..i + chunkSize];
      assert chunks[1..] == ChunksFrom(data, chunkSize, i + chunkSize);
      assert data[i..] == data[i..i + chunkSize] + data[i + chunkSize..];
    } else if i < |data| {
      assert chunks == [data[i..]];
      assert Concat(chunks) == data[i..] + Concat([]);
    }
  }

  /** The chunks put back together are the body, byte for byte and in order. */
  lemma ChunksRoundTrip(data: seq<byte>, chunkSize: nat)
    requires chunkSize > 0
    ensures Concat(Chunks(data, chunkSize)) == data
  {
    ChunksFromRoundTrip(data, chunkSize, 0);
  }

  /** Every chunk is non-empty and at most `chunkSize` long; all but the last are exactly that long. */
  predicate Sized(chunks: seq<seq<byte>>, chunkSize: nat) {
    forall k :: 0 <= k < |chunks| ==> 0 < |chunks[k]| <= chunkSize && (k < |chunks| - 1 ==> |chunks[k]| == chunkSize)
  }

  lemma {:induction false} ChunksFromSized(data: seq<byte>, chunkSize: nat, i: nat)
    requires chunkSize > 0
    ensures Sized(ChunksFrom(data, chunkSize, i), chunkSize)
    decreases |data| - i
  {
    if i < |data| && |data| - i > chunkSize {
      var rest := ChunksFrom(data, chunkSize, i + chunkSize);
      ChunksFromSized(data, chunkSize, i + chunkSize);
      var chunks := ChunksFrom(data, chunkSize, i);
      assert chunks == [data[i..i + chunkSize]] + rest;
      forall k | 0 <= k < |chunks|
        ensures 0 < |chunks[k]| <= chunkSize && (k < |chunks| - 1 ==> |chunks[k]| == chunkSize)
      {
        if k > 0 {
          assert chunks[k] == rest[k - 1];
        }
      }
    }
  }

  lemma ChunksSized(data: seq<byte>, chunkSize: nat)
    requires chunkSize > 0
    ensures Sized(Chunks(data, chunkSize), chunkSize)
  {
    ChunksFromSized(data, chunkSize, 0);
  }

  lemma {:induction false} ChunksFromCount(data: seq<byte>, chunkSize: nat, i: nat)
    requires chunkSize > 0 && i <= |data|
    ensures |ChunksFrom(data, chunkSize, i)| == (|data| - i + chunkSize - 1) / chunkSize
    decreases |data| - i
  {
    var n := |data| - i;
    var x := n + chunkSize - 1;
    if n > chunkSize {
      ChunksFromCount(data, chunkSize, i + chunkSize);
      assert |data| - (i + chunkSize) + chunkSize - 1 == x - chunkSize;
      DivStep(x, chunkSize);
    } else if n > 0 {
      DivUnique(x, chunkSize, 1, n - 1);
    } else {
      DivUnique(x, chunkSize, 0, chunkSize - 1);
    }
  }

  /** A body of N bytes gives ceil(N / chunkSize) chunks; an empty body gives none. */
  lemma ChunksCount(data: seq<byte>, chunkSize: nat)
    requires chunkSize > 0
    ensures |Chunks(data, chunkSize)| == (|data| + chunkSize - 1) / chunkSize
  {
    ChunksFromCount(data, chunkSize, 0);
  }

  lemma DivStep(x: nat, c: nat)
    requires c > 0 && x >= c
    ensures (x - c) / c + 1 == x / c
  {
    var q, r := (x - c) / c, (x - c) % c;
    assert x - c == q * c + r && 0 <= r < c;
    assert x == (q + 1) * c + r;
    DivUnique(x, c, q + 1, r);
  }

  lemma DivUnique(x: int, c: int, q: int, r: int)
    requires c > 0 && 0 <= r < c && x == q * c + r
    ensures x / c == q
  {
    var q', r' := x / c, x % c;
    assert x == q' * c + r' && 0 <= r' < c;
    assert (q - q') * c == r' - r;
    if q > q' {
      MulAtLeast(q - q', c);
    } else if q < q' {
      MulAtLeast(q' - q, c);
    }
  }

  lemma MulAtLeast(a: int, c: int)
    requires a >= 1 && c > 0
    ensures a * c >= c
  {
  }

  /** The generator loop of `aiter_content` for a positive chunk size: slice after slice, in order. */
  method CollectChunks(data: seq<byte>, chunkSize: int) returns (chunks: seq<seq<byte>>)
    requires chunkSize > 0
    ensures chunks == Chunks(data, chunkSize)
  {
    chunks := [];
    var i := 0;
    while i < |data|
      invariant chunks + ChunksFrom(data, chunkSize, i) == Chunks(data, chunkSize)
      decreases |data| - i
    {
      var end := if i + chunkSize < |data| then i + chunkSize else |data|;
      ChunksFromStep(data, chunkSize, i, chunks);
      chunks := chunks + [data[i..end]];
      i := i + chunkSize;
    }
    ChunksFromEnd(data, chunkSize, i, chunks);
  }

  /**
   * `aiter_content(chunk_size)`: the chunks the generator yields, collected. A chunk size of zero
   * makes `range` raise `ValueError`; a negative one yields nothing.
   */
  method AiterContent(content: Option<seq<byte>>, chunkSize: int) returns (r: Result<seq<seq<byte>>, Exc>)
    ensures r.Failure? <==> chunkSize == 0
    ensures r.Failure? ==> r.error == OtherException("ValueError", "range() arg 3 must not be zero")
    ensures chunkSize < 0 ==> r == Success([])
    ensures chunkSize > 0 ==> r == Success(Chunks(Body(content), chunkSize))
    ensures chunkSize > 0 ==> Concat(r.value) == Body(content)
    ensures chunkSize > 0 ==> |r.value| == (|Body(content)| + chunkSize - 1) / chunkSize
    ensures chunkSize > 0 ==> Sized(r.value, chunkSize)
    ensures chunkSize > 0 && Body(content) == [] ==> r.value == []
  {
    if chunkSize == 0 {
      return Failure(OtherException("ValueError", "range() arg 3 must not be zero"));
    } else if chunkSize < 0 {
      return Success([]);
    }
    var data := Body(content);
    var chunks := CollectChunks(data, chunkSize);
    ChunksRoundTrip(data, chunkSize);
    ChunksSized(data, chunkSize);
    ChunksCount(data, chunkSize);
    r := Success(chunks);
  }

  /** `aiter_content()` called without a chunk size: 64 KiB chunks. */
  method AiterContentDefault(content: Option<seq<byte>>) returns (r: Result<seq<seq<byte>>, Exc>)
    ensures r == Success(Chunks(Body(content), DefaultChunkSize))
    ensures Concat(r.value) == Body(content)
    ensures |r.value| == (|Body(content)| + DefaultChunkSize - 1) / DefaultChunkSize
    ensures Sized(r.value, DefaultChunkSize)
  {
    r := AiterContent(content, DefaultChunkSize);
  }
}
