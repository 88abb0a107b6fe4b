/**
 * How `uploadDidDocument` cuts the document into boxes and how `uploadDidBox`
 * cuts a box into chunks, as functions of the input bytes.
 */
module Partition {
  import opened Sequences
  import opened AlgoDidConstants

  /**
   * Box `i` of the document: the full box `[i * M, (i + 1) * M)` for
   * `i < floor(len / M)`, and, at `i == floor(len / M)`, the remainder
   * `[floor(len / M) * M, len)`, which is empty when `len` is a multiple of `M`.
   */
  function BoxSlice(maxBoxSize: Pos, document: seq<Byte>, i: nat): seq<Byte>
    requires i <= |document| / maxBoxSize
  {
    var numOfBoxes := |document| / maxBoxSize;
    MulLe(i, numOfBoxes, maxBoxSize);
    if i < numOfBoxes then
      MulLe(i + 1, numOfBoxes, maxBoxSize);
      document[i * maxBoxSize .. (i + 1) * maxBoxSize]
    else
      document[numOfBoxes * maxBoxSize ..]
  }

  /** The `boxData` array: `floor(len / M)` full boxes and then the (possibly empty) remainder. */
  function Boxes(maxBoxSize: Pos, document: seq<Byte>): (boxes: seq<seq<Byte>>)
    ensures |boxes| == |document| / maxBoxSize + 1
  {
    var numOfBoxes := |document| / maxBoxSize;
    seq(numOfBoxes + 1, i requires 0 <= i <= numOfBoxes => BoxSlice(maxBoxSize, document, i))
  }

  /** Box `i` starts at byte `i * M`; it is full unless it is the last one, which holds `len % M`. */
  lemma BoxSliceAt(maxBoxSize: Pos, document: seq<Byte>, i: nat)
    requires i <= |document| / maxBoxSize
    ensures var box := BoxSlice(maxBoxSize, document, i);
      SliceAt(document, i * maxBoxSize, box) &&
      |box| == (if i < |document| / maxBoxSize then maxBoxSize else |document| % maxBoxSize)
  {
    var n, m := |document| / maxBoxSize, maxBoxSize;
    var start := i * m;
    assert |document| == n * m + |document| % m;
    MulLe(i, n, m);
    if i < n {
      MulLe(i + 1, n, m);
      assert (i + 1) * m == start + m;
    }
  }

  /**
   * The partition has `floor(len / M) + 1` boxes; every box but the last holds
   * exactly `M` bytes, the last holds `len % M`, and box `i` starts at byte `i * M`.
   */
  lemma {:induction false} BoxesShape(maxBoxSize: Pos, document: seq<Byte>)
    ensures var boxes := Boxes(maxBoxSize, document);
      |boxes| == |document| / maxBoxSize + 1 &&
      (forall i :: 0 <= i < |boxes| - 1 ==> |boxes[i]| == maxBoxSize) &&
      |boxes[|boxes| - 1]| == |document| % maxBoxSize &&
      (boxes[|boxes| - 1] == [] <==> |document| % maxBoxSize == 0) &&
      (forall i :: 0 <= i < |boxes| ==> SliceAt(document, i * maxBoxSize, boxes[i]))
  {
    var boxes := Boxes(maxBoxSize, document);
    forall i | 0 <= i < |boxes|
      ensures SliceAt(document, i * maxBoxSize, boxes[i])
      ensures |boxes[i]| == (if i < |boxes| - 1 then maxBoxSize else |document| % maxBoxSize)
    {
      BoxSliceAt(maxBoxSize, document, i);
    }
  }

  /** The only box that can be empty is the last one, when `M` divides the length. */
  lemma EmptyBox(maxBoxSize: Pos, document: seq<Byte>, i: nat)
    requires i < |Boxes(maxBoxSize, document)|
    ensures Boxes(maxBoxSize, document)[i] == [] <==>
              i == |Boxes(maxBoxSize, document)| - 1 && |document| % maxBoxSize == 0
  {
    BoxesShape(maxBoxSize, document);
  }

  /** Full box `k - 1` is the document between `(k - 1) * M` and `k * M`. */
  lemma FullBoxBefore(maxBoxSize: Pos, document: seq<Byte>, k: nat)
    requires 0 < k <= |document| / maxBoxSize
    ensures (k - 1) * maxBoxSize <= k * maxBoxSize <= |document|
    ensures Boxes(maxBoxSize, document)[k - 1] == document[(k - 1) * maxBoxSize .. k * maxBoxSize]
  {
    MulLe(k, |document| / maxBoxSize, maxBoxSize);
    assert k * maxBoxSize == (k - 1) * maxBoxSize + maxBoxSize;
  }

  /** The first `k` full boxes concatenate to the first `k * M` bytes of the document. */
  lemma {:induction false} BoxesPrefix(maxBoxSize: Pos, document: seq<Byte>, k: nat)
    requires k <= |document| / maxBoxSize
    ensures k * maxBoxSize <= |document|
    ensures Flatten(Boxes(maxBoxSize, document)[..k]) == document[..k * maxBoxSize]
  {
    MulLe(k, |document| / maxBoxSize, maxBoxSize);
    if k > 0 {
      FlattenPrefixSnoc(Boxes(maxBoxSize, document), k);
      BoxesPrefix(maxBoxSize, document, k - 1);
      FullBoxBefore(maxBoxSize, document, k);
      SliceJoin(document, (k - 1) * maxBoxSize, k * maxBoxSize);
    }
  }

  /** Concatenating the boxes in order gives back the document. */
  lemma {:induction false} BoxesConcat(maxBoxSize: Pos, document: seq<Byte>)
    ensures Flatten(Boxes(maxBoxSize, document)) == document
  {
    var boxes := Boxes(maxBoxSize, document);
    var n := |document| / maxBoxSize;
    BoxesPrefix(maxBoxSize, document, n);
    assert boxes[..n + 1] == boxes;
    assert Flatten(boxes) == Flatten(boxes[..n]) + boxes[n];
    assert boxes[n] == document[n * maxBoxSize..];
    assert document[..n * maxBoxSize] + document[n * maxBoxSize..] == document;
  }

  /**
   * The chunks of a box: `ceil(|box| / B)` slices `[i * B, (i + 1) * B)`,
   * clamped to the box as `Buffer.subarray` clamps.
   */
  function Chunks(bytesPerCall: Pos, box: seq<Byte>): (chunks: seq<seq<Byte>>)
    ensures |chunks| == CeilDiv(|box|, bytesPerCall)
  {
    var numOfChunks := CeilDiv(|box|, bytesPerCall);
    seq(numOfChunks, i requires 0 <= i < numOfChunks =>
      box[Min(i * bytesPerCall, |box|) .. Min((i + 1) * bytesPerCall, |box|)])
  }

  /** Chunk `i` starts at byte `i * B`; it is non-empty, full unless it is the last one. */
  lemma {:induction false} ChunkAt(bytesPerCall: Pos, box: seq<Byte>, i: nat)
    requires i < CeilDiv(|box|, bytesPerCall)
    ensures var chunk := Chunks(bytesPerCall, box)[i];
      0 < |chunk| <= bytesPerCall &&
      (i < CeilDiv(|box|, bytesPerCall) - 1 ==> |chunk| == bytesPerCall) &&
      SliceAt(box, i * bytesPerCall, chunk)
  {
    var b, len := bytesPerCall, |box|;
    ChunkStartInBox(b, len, i);
    var lo := i * b;
    var hi := Min((i + 1) * b, len);
    assert Min(lo, len) == lo;
    assert lo < hi <= lo + b;
    var chunk := Chunks(b, box)[i];
    assert chunk == box[lo..hi];
    assert |chunk| == hi - lo;
  }

  /** Chunk `i < ceil(len / B)` starts inside the box, and every chunk but the last ends inside it. */
  lemma ChunkStartInBox(bytesPerCall: Pos, len: nat, i: nat)
    requires i < CeilDiv(len, bytesPerCall)
    ensures i * bytesPerCall < len
    ensures (i + 1) * bytesPerCall == i * bytesPerCall + bytesPerCall
    ensures i < CeilDiv(len, bytesPerCall) - 1 ==> (i + 1) * bytesPerCall < len
    ensures i == CeilDiv(len, bytesPerCall) - 1 ==> len <= (i + 1) * bytesPerCall
  {
    var n, b := CeilDiv(len, bytesPerCall), bytesPerCall;
    MulLe(i, n - 1, b);
    assert (n - 1) * b == n * b - b;
    if i < n - 1 {
      MulLe(i + 1, n - 1, b);
    }
  }

  /**
   * A box of `S` bytes yields `ceil(S / B)` non-empty chunks of at most `B` bytes,
   * all but the last exactly `B`, chunk `i` starting at byte `i * B` of the box.
   */
  lemma {:induction false} ChunksShape(bytesPerCall: Pos, box: seq<Byte>)
    ensures var chunks := Chunks(bytesPerCall, box);
      |chunks| == CeilDiv(|box|, bytesPerCall) &&
      (forall i :: 0 <= i < |chunks| ==> 0 < |chunks[i]| <= bytesPerCall) &&
      (forall i :: 0 <= i < |chunks| - 1 ==> |chunks[i]| == bytesPerCall) &&
      (forall i :: 0 <= i < |chunks| ==> SliceAt(box, i * bytesPerCall, chunks[i]))
  {
    var chunks := Chunks(bytesPerCall, box);
    forall i | 0 <= i < |chunks|
      ensures 0 < |chunks[i]| <= bytesPerCall
      ensures i < |chunks| - 1 ==> |chunks[i]| == bytesPerCall
      ensures SliceAt(box, i * bytesPerCall, chunks[i])
    {
      ChunkAt(bytesPerCall, box, i);
    }
  }

  /** Chunk `k - 1` is the box between the clamped cuts at `(k - 1) * B` and `k * B`. */
  lemma ChunkBefore(bytesPerCall: Pos, box: seq<Byte>, k: nat)
    requires 0 < k <= CeilDiv(|box|, bytesPerCall)
    ensures 0 <= Min((k - 1) * bytesPerCall, |box|) <= Min(k * bytesPerCall, |box|)
    ensures Chunks(bytesPerCall, box)[k - 1] == box[Min((k - 1) * bytesPerCall, |box|) .. Min(k * bytesPerCall, |box|)]
  {
    MulLe(0, k - 1, bytesPerCall);
    assert k * bytesPerCall == (k - 1) * bytesPerCall + bytesPerCall;
  }

  /** The first `k` chunks concatenate to the first `min(k * B, |box|)` bytes of the box. */
  lemma {:induction false} ChunksPrefix(bytesPerCall: Pos, box: seq<Byte>, k: nat)
    requires k <= CeilDiv(|box|, bytesPerCall)
    ensures Flatten(Chunks(bytesPerCall, box)[..k]) == box[..Min(k * bytesPerCall, |box|)]
  {
    var chunks := Chunks(bytesPerCall, box);
    if k == 0 {
      assert chunks[..k] == [];
    } else {
      var lo, hi := Min((k - 1) * bytesPerCall, |box|), Min(k * bytesPerCall, |box|);
      FlattenPrefixSnoc(chunks, k);
      ChunksPrefix(bytesPerCall, box, k - 1);
      ChunkBefore(bytesPerCall, box, k);
      SliceJoin(box, lo, hi);
      assert Flatten(chunks[..k]) == box[..lo] + box[lo..hi];
    }
  }

  /** Concatenating the chunks of a box in order gives back the box. */
  lemma {:induction false} ChunksConcat(bytesPerCall: Pos, box: seq<Byte>)
    ensures Flatten(Chunks(bytesPerCall, box)) == box
  {
    var chunks := Chunks(bytesPerCall, box);
    var n := |chunks|;
    ChunksPrefix(bytesPerCall, box, n);
    assert chunks[..n] == chunks;
    assert Min(n * bytesPerCall, |box|) == |box|;
    assert box[..|box|] == box;
  }
}
