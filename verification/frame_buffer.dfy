/**
 The frame buffer: the ordered list of raw audio chunks the capture loop
 appends to, and the byte payload the save handler writes, which is the
 chunks joined in order.
 */
module FrameBuffer {

  newtype Byte = x: int | 0 <= x < 256

  /** One chunk as returned by one stream read. */
  type Chunk = seq<Byte>

  /** The chunks joined in order (the source's `b''.join(frames)`). */
  function Concat(fs: seq<Chunk>): seq<Byte> {
    if fs == [] then [] else fs[0] + Concat(fs[1..])
  }

  /** The number of bytes held by the chunks. */
  function TotalLength(fs: seq<Chunk>): nat {
    if fs == [] then 0 else |fs[0]| + TotalLength(fs[1..])
  }

  /** The payload holds exactly the bytes of the chunks. */
  lemma {:induction false} ConcatLength(fs: seq<Chunk>)
    ensures |Concat(fs)| == TotalLength(fs)
  {
    if fs != [] {
      ConcatLength(fs[1..]);
    }
  }

  /** Appending a chunk to the buffer appends its bytes to the payload. */
  lemma {:induction false} ConcatAppend(fs: seq<Chunk>, c: Chunk)
    ensures Concat(fs + [c]) == Concat(fs) + c
  {
    if fs == [] {
      assert [] + [c] == [c];
      assert [c][1..] == [];
    } else {
      assert (fs + [c])[1..] == fs[1..] + [c];
      ConcatAppend(fs[1..], c);
    }
  }

  /** Chunk i occupies the bytes of the payload that follow the bytes of
      the chunks before it: the payload keeps the capture order. */
  lemma {:induction false} ConcatChunkAt(fs: seq<Chunk>, i: nat)
    requires i < |fs|
    ensures TotalLength(fs[..i]) + |fs[i]| <= |Concat(fs)|
    ensures Concat(fs)[TotalLength(fs[..i])..TotalLength(fs[..i]) + |fs[i]|] == fs[i]
  {
    ConcatLength(fs);
    if i == 0 {
      assert fs[..0] == [];
    } else {
      var tail := fs[1..];
      ConcatChunkAt(tail, i - 1);
      assert fs[..i][1..] == tail[..i - 1];
      assert TotalLength(fs[..i]) == |fs[0]| + TotalLength(tail[..i - 1]);
      assert tail[i - 1] == fs[i];
      var a := TotalLength(tail[..i - 1]);
      assert Concat(fs) == fs[0] + Concat(tail);
      assert Concat(fs)[|fs[0]| + a..|fs[0]| + a + |fs[i]|] == Concat(tail)[a..a + |fs[i]|];
    }
  }

  /** When every chunk has k bytes, the payload has |fs| * k bytes. */
  lemma {:induction false} UniformPayloadLength(fs: seq<Chunk>, k: nat)
    requires forall i :: 0 <= i < |fs| ==> |fs[i]| == k
    ensures |Concat(fs)| == |fs| * k
  {
    if fs != [] {
      assert |fs[0]| == k;
      assert forall i :: 0 <= i < |fs[1..]| ==> fs[1..][i] == fs[i + 1];
      UniformPayloadLength(fs[1..], k);
      assert |fs| * k == k + (|fs| - 1) * k;
    }
  }
}
