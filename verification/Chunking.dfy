/** How a body is cut into HTTP chunks: full ones, then a last one that may be empty. */
module Chunking {
  import opened Common

  const CHUNK_SIZE: nat := 4096

  function Chunks(content: seq<Byte>): seq<seq<Byte>>
    decreases |content|
  {
    if |content| < CHUNK_SIZE then [content] else [content[..CHUNK_SIZE]] + Chunks(content[CHUNK_SIZE..])
  }

  /** The number of full chunks. */
  function FullChunks(content: seq<Byte>): nat {
    |content| / CHUNK_SIZE
  }

  /** The chunks are the content: `n / 4096` of exactly 4096 bytes, so that none but the last can be empty,
      which section 7.1 of RFC 9112 reserves for the end, then one of `n % 4096`. */
  lemma {:induction false} ChunksAreContent(content: seq<Byte>)
    ensures Concat(Chunks(content)) == content
    ensures FullChunks(content) == |content| / 4096 && |Chunks(content)| == |content| / 4096 + 1
    ensures forall k | 0 <= k < |content| / 4096 :: |Chunks(content)[k]| == 4096
    ensures |Chunks(content)[|content| / 4096]| == |content| % 4096
    decreases |content|
  {
    if |content| < CHUNK_SIZE {
      assert Chunks(content)[1..] == [];
    } else {
      var rest := content[CHUNK_SIZE..];
      ChunksAreContent(rest);
      assert Chunks(content)[1..] == Chunks(rest);
      assert content == content[..CHUNK_SIZE] + rest;
      assert forall k | 0 < k <= FullChunks(content) :: Chunks(content)[k] == Chunks(rest)[k - 1];
    }
  }

  lemma ChunksCons(full: seq<Byte>, rest: seq<Byte>)
    requires |full| == CHUNK_SIZE
    ensures Chunks(full + rest) == [full] + Chunks(rest)
  {
  }

  /** The first of `n` writes that fails, or `n`. */
  function FirstFailure(fails: nat -> bool, n: nat, from: nat := 0): (k: nat)
    requires from <= n
    ensures from <= k <= n
    ensures forall i | from <= i < k :: !fails(i)
    ensures k < n ==> fails(k)
    decreases n - from
  {
    if from == n || fails(from) then from else FirstFailure(fails, n, from + 1)
  }
}
