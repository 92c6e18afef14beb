/** Chunk accumulation: the binary download grows a string one chunk at a time
    and the upload buffers chunks before concatenating them. Also the Node
    'binary' (latin-1) encoding that turns downloaded bytes into a string and
    back again. */
module Chunks {
  import opened JsValues

  /** The in-order concatenation of a sequence of chunks. */
  function Concat<T>(chunks: seq<seq<T>>): seq<T>
  {
    if chunks == [] then [] else Concat(chunks[..|chunks| - 1]) + chunks[|chunks| - 1]
  }

  /** The sum of the chunk lengths. */
  function TotalLength<T>(chunks: seq<seq<T>>): nat
  {
    if chunks == [] then 0 else TotalLength(chunks[..|chunks| - 1]) + |chunks[|chunks| - 1]|
  }

  /** Concatenation distributes over splitting the chunk sequence anywhere. */
  lemma {:induction false} ConcatAppend<T>(a: seq<seq<T>>, b: seq<seq<T>>)
    ensures Concat(a + b) == Concat(a) + Concat(b)
    decreases |b|
  {
    if b == [] {
      assert a + b == a;
    } else {
      var last := |b| - 1;
      assert (a + b)[..|a + b| - 1] == a + b[..last];
      ConcatAppend(a, b[..last]);
    }
  }

  /** No byte is lost or invented: the concatenation is exactly as long as
      all the chunks together. */
  lemma {:induction false} ConcatLength<T>(chunks: seq<seq<T>>)
    ensures |Concat(chunks)| == TotalLength(chunks)
  {
    if chunks != [] {
      ConcatLength(chunks[..|chunks| - 1]);
    }
  }

  /** Chunk `k`'s elements sit in the concatenation right after everything
      that came before chunk `k`. */
  lemma {:induction false} ConcatPlacesChunk<T>(chunks: seq<seq<T>>, k: nat)
    requires k < |chunks|
    ensures Concat(chunks[..k]) + chunks[k] <= Concat(chunks)
  {
    ConcatAppend(chunks[..k], [chunks[k]]);
    assert chunks[..k] + [chunks[k]] == chunks[..k + 1];
    ConcatAppend(chunks[..k + 1], chunks[k + 1..]);
    assert chunks[..k + 1] + chunks[k + 1..] == chunks;
    assert Concat([chunks[k]]) == chunks[k] by {
      assert [chunks[k]][..0] == [];
    }
  }

  /** Decoding bytes with Node's 'binary' encoding: byte b becomes the
      character whose code is b. */
  function Latin1(bytes: seq<byte>): (s: string)
    ensures |s| == |bytes|
    ensures forall i :: 0 <= i < |s| ==> s[i] as int == bytes[i] as int
  {
    seq(|bytes|, i requires 0 <= i < |bytes| => (bytes[i] as int) as char)
  }

  /** `Buffer.from(s, 'binary')`: each character contributes the low byte of
      its code. */
  function LowBytes(s: string): (bytes: seq<byte>)
    ensures |bytes| == |s|
  {
    seq(|s|, i requires 0 <= i < |s| => ((s[i] as int) % 256) as byte)
  }

  /** Encoding a latin-1 decoded string gives back the original bytes. */
  lemma LowBytesOfLatin1(bytes: seq<byte>)
    ensures LowBytes(Latin1(bytes)) == bytes
  {
  }

  /** Decoding chunk by chunk equals decoding the whole. */
  lemma Latin1Append(a: seq<byte>, b: seq<byte>)
    ensures Latin1(a + b) == Latin1(a) + Latin1(b)
  {
  }

  /** The binary download's `data += chunk` loop, each chunk arriving as a
      latin-1 string: the result is the decoding of every byte received, in
      the order received. */
  method AccumulateBinaryBody(chunks: seq<seq<byte>>) returns (data: string)
    ensures data == Latin1(Concat(chunks))
    ensures LowBytes(data) == Concat(chunks)
  {
    data := "";
    var i := 0;
    while i < |chunks|
      invariant 0 <= i <= |chunks|
      invariant data == Latin1(Concat(chunks[..i]))
    {
      assert chunks[..i + 1][..i] == chunks[..i];
      Latin1Append(Concat(chunks[..i]), chunks[i]);
      data := data + Latin1(chunks[i]);
      i := i + 1;
    }
    assert chunks[..i] == chunks;
    LowBytesOfLatin1(Concat(chunks));
  }

  /** The upload's buffering: every chunk read is pushed onto `bufs`, and
      `Buffer.concat(bufs)` is the body sent. */
  method BufferChunks(chunks: seq<seq<byte>>) returns (bufs: seq<seq<byte>>, body: seq<byte>)
    ensures bufs == chunks
    ensures body == Concat(chunks)
    ensures |body| == TotalLength(chunks)
  {
    bufs := [];
    var i := 0;
    while i < |chunks|
      invariant 0 <= i <= |chunks|
      invariant bufs == chunks[..i]
    {
      bufs := bufs + [chunks[i]];
      i := i + 1;
    }
    assert chunks[..i] == chunks;
    body := Concat(bufs);
    ConcatLength(chunks);
  }
}
