/**
 Cutting an upstream byte stream into SSE blocks at the blank line (section 9.2 of the HTML Living
 Standard), with the stream arriving in arbitrary chunks.
 */
module SseSplitter {
  import opened Common

  type Bytes = seq<byte>

  const LF: byte := 10

  function Flat(parts: seq<Bytes>): Bytes {
    if parts == [] then [] else Flat(parts[..|parts| - 1]) + parts[|parts| - 1]
  }

  predicate BreakAt(s: Bytes, i: int) { 0 <= i && i + 1 < |s| && s[i] == LF && s[i + 1] == LF }

  ghost predicate Unbroken(s: Bytes) { forall i :: !BreakAt(s, i) }

  /** A blank line at the very end and nowhere before. */
  ghost predicate Complete(raw: Bytes) {
    BreakAt(raw, |raw| - 2) && forall i :: i < |raw| - 2 ==> !BreakAt(raw, i)
  }

  /** What the stream is cut into: complete blocks and a tail without a separator. */
  ghost predicate IsCut(stream: Bytes, blocks: seq<Bytes>, tail: Bytes) {
    && Flat(blocks) + tail == stream
    && (forall b <- blocks :: Complete(b))
    && Unbroken(tail)
  }

  /** `bytes.strip()` removes these. */
  predicate IsSpace(b: byte) { b == 32 || 9 <= b <= 13 }

  predicate Blank(s: Bytes) { forall b <- s :: IsSpace(b) }

  function Emitted(blocks: seq<Bytes>, tail: Bytes): seq<Bytes> {
    blocks + if Blank(tail) then [] else [tail]
  }

  lemma {:induction false} FlatAppend(a: seq<Bytes>, b: seq<Bytes>)
    ensures Flat(a + b) == Flat(a) + Flat(b)
  {
    if b == [] {
      assert a + b == a;
    } else {
      var n := |b| - 1;
      assert (a + b)[..|a + b| - 1] == a + b[..n];
      FlatAppend(a, b[..n]);
    }
  }

  lemma FlatOne(x: Bytes)
    ensures Flat([x]) == x
  {
    assert [x][..0] == [];
  }

  lemma FlatHead(blocks: seq<Bytes>)
    requires blocks != []
    ensures Flat(blocks) == blocks[0] + Flat(blocks[1..])
  {
    assert [blocks[0]] + blocks[1..] == blocks;
    FlatAppend([blocks[0]], blocks[1..]);
    FlatOne(blocks[0]);
  }

  /** A complete block at the front of a stream ends at the stream's first separator. */
  lemma FrontBreak(a: Bytes, x: Bytes)
    requires Complete(a)
    ensures BreakAt(a + x, |a| - 2) && forall i :: i < |a| - 2 ==> !BreakAt(a + x, i)
  {
    assert forall i :: i < |a| - 2 && BreakAt(a + x, i) ==> BreakAt(a, i);
  }

  lemma FrontBlockIsFixed(a: Bytes, x: Bytes, b: Bytes, y: Bytes)
    requires a + x == b + y && Complete(a) && Complete(b)
    ensures a == b && x == y
  {
    FrontBreak(a, x);
    FrontBreak(b, y);
    assert |a| == |b|;
    assert a == (a + x)[..|a|] == b && x == (a + x)[|a|..] == y;
  }

  lemma EmptyIffUnbroken(stream: Bytes, blocks: seq<Bytes>, tail: Bytes)
    requires IsCut(stream, blocks, tail)
    ensures blocks == [] <==> Unbroken(stream)
    ensures blocks == [] ==> tail == stream
  {
    if blocks == [] {
      assert [] + tail == tail;
    } else {
      FlatHead(blocks);
      assert stream == blocks[0] + (Flat(blocks[1..]) + tail);
      FrontBreak(blocks[0], Flat(blocks[1..]) + tail);
    }
  }

  /** A stream has exactly one cut. */
  lemma {:induction false} CutIsUnique(stream: Bytes, b1: seq<Bytes>, t1: Bytes, b2: seq<Bytes>, t2: Bytes)
    requires IsCut(stream, b1, t1) && IsCut(stream, b2, t2)
    ensures b1 == b2 && t1 == t2
    decreases |b1|
  {
    EmptyIffUnbroken(stream, b1, t1);
    EmptyIffUnbroken(stream, b2, t2);
    if b1 != [] {
      FlatHead(b1);
      FlatHead(b2);
      var x, y := Flat(b1[1..]) + t1, Flat(b2[1..]) + t2;
      assert b1[0] + x == stream && b2[0] + y == stream;
      FrontBlockIsFixed(b1[0], x, b2[0], y);
      CutIsUnique(x, b1[1..], t1, b2[1..], t2);
      assert b1 == [b1[0]] + b1[1..] && b2 == [b2[0]] + b2[1..];
    }
  }

  /** Moving the first block from the buffer to the output keeps their concatenation. */
  lemma TakeBlock(raws: seq<Bytes>, buffer: Bytes, k: int)
    requires BreakAt(buffer, k) && forall i :: i < k ==> !BreakAt(buffer, i)
    ensures var raw := buffer[..k] + [LF, LF];
            Complete(raw) && Flat(raws + [raw]) + buffer[k + 2..] == Flat(raws) + buffer
  {
    FirstBlockIsComplete(buffer, k);
    FlatMoves(raws, buffer[..k] + [LF, LF], buffer[k + 2..]);
  }

  lemma FirstBlockIsComplete(buffer: Bytes, k: int)
    requires BreakAt(buffer, k) && forall i :: i < k ==> !BreakAt(buffer, i)
    ensures var raw := buffer[..k] + [LF, LF]; Complete(raw) && raw + buffer[k + 2..] == buffer
  {
    var raw := buffer[..k] + [LF, LF];
    assert forall i :: i < k && BreakAt(raw, i) ==> BreakAt(buffer, i);
  }

  lemma FlatMoves(raws: seq<Bytes>, raw: Bytes, rest: Bytes)
    ensures Flat(raws + [raw]) + rest == Flat(raws) + (raw + rest)
  {
    FlatAppend(raws, [raw]);
    FlatOne(raw);
  }

  /** Index of the first separator, or -1. */
  method FindBreak(s: Bytes) returns (k: int)
    ensures k == -1 ==> Unbroken(s)
    ensures k != -1 ==> BreakAt(s, k) && forall i :: i < k ==> !BreakAt(s, i)
  {
    k := 0;
    while k + 1 < |s|
      invariant 0 <= k
      invariant forall i :: i < k ==> !BreakAt(s, i)
    {
      if s[k] == LF && s[k + 1] == LF {
        return;
      }
      k := k + 1;
    }
    k := -1;
  }

  /** The relay's loop: append a chunk, take out every complete block, forward a non-blank tail. */
  method IterBlocks(chunks: seq<Bytes>)
    returns (raws: seq<Bytes>, bytesRead: nat, ghost tail: Bytes, ghost blocks: seq<Bytes>)
    ensures IsCut(Flat(chunks), blocks, tail)
    ensures raws == Emitted(blocks, tail)
    ensures bytesRead == |Flat(chunks)|
  {
    var buffer: Bytes := [];
    raws, bytesRead := [], 0;
    for n := 0 to |chunks|
      invariant IsCut(Flat(chunks[..n]), raws, buffer)
      invariant bytesRead == |Flat(chunks[..n])|
    {
      bytesRead := bytesRead + |chunks[n]|;
      assert chunks[..n + 1][..n] == chunks[..n];
      assert Flat(chunks[..n + 1]) == Flat(raws) + (buffer + chunks[n]);
      buffer := buffer + chunks[n];
      var k := FindBreak(buffer);
      while k != -1
        invariant Flat(raws) + buffer == Flat(chunks[..n + 1])
        invariant forall b <- raws :: Complete(b)
        invariant k == -1 ==> Unbroken(buffer)
        invariant k != -1 ==> BreakAt(buffer, k) && forall i :: i < k ==> !BreakAt(buffer, i)
        decreases |buffer|
      {
        var raw := buffer[..k] + [LF, LF];
        TakeBlock(raws, buffer, k);
        raws, buffer := raws + [raw], buffer[k + 2..];
        k := FindBreak(buffer);
      }
    }
    assert chunks[..|chunks|] == chunks;
    blocks, tail := raws, buffer;
    if !Blank(buffer) {
      raws := raws + [buffer];
    }
  }

  /** What is forwarded depends on the bytes alone, never on how they were cut into chunks. */
  lemma ChunkIndependence(c1: seq<Bytes>, c2: seq<Bytes>, b1: seq<Bytes>, t1: Bytes, b2: seq<Bytes>, t2: Bytes)
    requires Flat(c1) == Flat(c2) && IsCut(Flat(c1), b1, t1) && IsCut(Flat(c2), b2, t2)
    ensures Emitted(b1, t1) == Emitted(b2, t2)
  {
    CutIsUnique(Flat(c1), b1, t1, b2, t2);
  }

  /** No byte is lost or changed, except a tail made of white space only. */
  lemma NothingLost(stream: Bytes, blocks: seq<Bytes>, tail: Bytes)
    requires IsCut(stream, blocks, tail)
    ensures Flat(Emitted(blocks, tail)) + (if Blank(tail) then tail else []) == stream
  {
    if Blank(tail) {
      assert Emitted(blocks, tail) == blocks;
    } else {
      FlatAppend(blocks, [tail]);
      FlatOne(tail);
    }
  }

  /** Byte `i` is no LF, or one that ends a CR LF. */
  predicate AfterCr(s: Bytes, i: nat)
    requires i < |s|
  {
    s[i] == LF ==> i > 0 && s[i - 1] == 13
  }

  /** The standard also allows CR LF line ends; on such a stream no separator is ever recognised and
      everything is held back until the stream closes. */
  lemma CrlfStreamIsHeldBack(stream: Bytes, blocks: seq<Bytes>, tail: Bytes)
    requires IsCut(stream, blocks, tail)
    requires forall i :: 0 <= i < |stream| ==> AfterCr(stream, i)
    ensures blocks == [] && tail == stream
  {
    forall i ensures !BreakAt(stream, i) {
      if 0 <= i && i + 1 < |stream| {
        assert AfterCr(stream, i + 1);
      }
    }
    EmptyIffUnbroken(stream, blocks, tail);
  }
}
