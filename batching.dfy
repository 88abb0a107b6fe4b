/**
 * How `uploadDidBox` and `massUploadChunks` turn one box into upload calls:
 * the chunks of the box split into at most two atomic groups, the write offset
 * of every chunk, and the eight box references every call carries.
 */
module Batching {
  import opened Sequences
  import opened AlgoDidConstants
  import opened Partition

  /** A box name: a data box by its uint64 index, or the metadata box by the uploader's public key. */
  datatype BoxName = DataBoxIndex(index: nat) | PublicKeyName(publicKey: seq<Byte>)

  datatype BoxReference = BoxReference(appIndex: nat, name: BoxName)

  /** One call of the contract's `upload` method: its arguments and its box references. */
  datatype UploadCall = UploadCall(
    appId: nat,
    publicKey: seq<Byte>,
    boxIndex: nat,
    offset: nat,
    chunk: seq<Byte>,
    boxes: seq<BoxReference>)

  /** A transaction ID as the network returns it. */
  type TxId = string

  /** `chunks.slice(0, 8)`: a prefix of at most eight chunks, all of them when there are fewer. */
  function FirstGroup<T>(chunks: seq<T>): (first: seq<T>)
    ensures first <= chunks
    ensures |first| <= FIRST_GROUP_SIZE
    ensures |first| < FIRST_GROUP_SIZE ==> first == chunks
  {
    chunks[..Min(FIRST_GROUP_SIZE, |chunks|)]
  }

  /** `chunks.slice(8)`: the chunks the first group leaves over, in order. */
  function SecondGroup<T>(chunks: seq<T>): (rest: seq<T>)
    ensures FirstGroup(chunks) + rest == chunks
  {
    chunks[Min(FIRST_GROUP_SIZE, |chunks|)..]
  }

  /**
   * The two groups split the chunks in order; the second group stays within
   * eight calls only when there are at most sixteen chunks.
   */
  lemma GroupsSplitChunks<T>(chunks: seq<T>)
    ensures FirstGroup(chunks) + SecondGroup(chunks) == chunks
    ensures |FirstGroup(chunks)| == Min(8, |chunks|)
    ensures SecondGroup(chunks) != [] <==> |chunks| > 8
    ensures |SecondGroup(chunks)| <= 8 <==> |chunks| <= 16
  {
  }

  /** Seven references to the data box being written, then one to the metadata box. */
  function BoxReferences(appId: nat, boxIndex: nat, publicKey: seq<Byte>): (refs: seq<BoxReference>)
    ensures |refs| == DATA_BOX_REFERENCES + 1
    ensures forall k :: 0 <= k < DATA_BOX_REFERENCES ==> refs[k] == BoxReference(appId, DataBoxIndex(boxIndex))
    ensures refs[DATA_BOX_REFERENCES] == BoxReference(appId, PublicKeyName(publicKey))
    ensures forall r :: r in refs <==>
              r == BoxReference(appId, DataBoxIndex(boxIndex)) || r == BoxReference(appId, PublicKeyName(publicKey))
  {
    var dataBox := BoxReference(appId, DataBoxIndex(boxIndex));
    var refs := seq(DATA_BOX_REFERENCES, _ => dataBox) + [BoxReference(appId, PublicKeyName(publicKey))];
    assert refs[0] == dataBox;
    refs
  }

  /** The calls one `massUploadChunks` adds to its atomic group: chunk `k` at offset `B * (k + bytesOffset)`. */
  function UploadGroup(
    c: Constants, chunks: seq<seq<Byte>>, appId: nat, publicKey: seq<Byte>,
    boxIndex: nat, boxes: seq<BoxReference>, bytesOffset: nat): (group: seq<UploadCall>)
    ensures CallChunks(group) == chunks
    ensures forall call :: call in group ==>
              call.appId == appId && call.publicKey == publicKey && call.boxIndex == boxIndex && call.boxes == boxes
  {
    seq(|chunks|, k requires 0 <= k < |chunks| =>
      UploadCall(appId, publicKey, boxIndex, c.bytesPerCall * (k + bytesOffset), chunks[k], boxes))
  }

  /**
   * The atomic groups `uploadDidBox` submits for one box, in order: the first
   * eight chunks (always submitted, even when empty), then the rest if any.
   */
  function BoxGroups(c: Constants, box: seq<Byte>, appId: nat, publicKey: seq<Byte>, boxIndex: nat): (groups: seq<seq<UploadCall>>)
    ensures 1 <= |groups| <= 2
    ensures |groups| == 2 <==> |Chunks(c.bytesPerCall, box)| > FIRST_GROUP_SIZE
  {
    var chunks := Chunks(c.bytesPerCall, box);
    var boxes := BoxReferences(appId, boxIndex, publicKey);
    var first := UploadGroup(c, FirstGroup(chunks), appId, publicKey, boxIndex, boxes, 0);
    if |SecondGroup(chunks)| == 0 then [first]
    else [first, UploadGroup(c, SecondGroup(chunks), appId, publicKey, boxIndex, boxes, FIRST_GROUP_SIZE)]
  }

  /** The IDs of the submitted groups, concatenated in submission order. */
  function SubmitAll(submit: seq<UploadCall> -> seq<TxId>, groups: seq<seq<UploadCall>>): seq<TxId>
  {
    if groups == [] then [] else SubmitAll(submit, groups[..|groups| - 1]) + submit(groups[|groups| - 1])
  }

  /** The chunks carried by a group's calls, in order. */
  function CallChunks(group: seq<UploadCall>): seq<seq<Byte>>
  {
    seq(|group|, k requires 0 <= k < |group| => group[k].chunk)
  }

  /** The bytes the groups write, in submission order. */
  function WrittenBytes(groups: seq<seq<UploadCall>>): seq<Byte>
  {
    if groups == [] then [] else WrittenBytes(groups[..|groups| - 1]) + Flatten(CallChunks(groups[|groups| - 1]))
  }

  lemma {:induction false} SubmitAllAppend(submit: seq<UploadCall> -> seq<TxId>, a: seq<seq<UploadCall>>, b: seq<seq<UploadCall>>)
    ensures SubmitAll(submit, a + b) == SubmitAll(submit, a) + SubmitAll(submit, b)
  {
    if b == [] {
      assert a + b == a;
    } else {
      var b', last := b[..|b| - 1], b[|b| - 1];
      assert (a + b)[..|a + b| - 1] == a + b' && (a + b)[|a + b| - 1] == last;
      assert SubmitAll(submit, a + b) == SubmitAll(submit, a + b') + submit(last);
      assert SubmitAll(submit, b) == SubmitAll(submit, b') + submit(last);
      SubmitAllAppend(submit, a, b');
    }
  }

  lemma {:induction false} WrittenBytesAppend(a: seq<seq<UploadCall>>, b: seq<seq<UploadCall>>)
    ensures WrittenBytes(a + b) == WrittenBytes(a) + WrittenBytes(b)
  {
    if b == [] {
      assert a + b == a;
    } else {
      var b', last := b[..|b| - 1], b[|b| - 1];
      assert (a + b)[..|a + b| - 1] == a + b' && (a + b)[|a + b| - 1] == last;
      assert WrittenBytes(a + b) == WrittenBytes(a + b') + Flatten(CallChunks(last));
      assert WrittenBytes(b) == WrittenBytes(b') + Flatten(CallChunks(last));
      WrittenBytesAppend(a, b');
    }
  }

  /** A box yields one group, or two when it has more than eight chunks, the first holding `min(8, n)` calls. */
  lemma BoxGroupsShape(c: Constants, box: seq<Byte>, appId: nat, publicKey: seq<Byte>, boxIndex: nat)
    ensures var groups := BoxGroups(c, box, appId, publicKey, boxIndex);
      var n := CeilDiv(|box|, c.bytesPerCall);
      1 <= |groups| <= 2 &&
      |groups[0]| == Min(FIRST_GROUP_SIZE, n) &&
      (|groups| == 2 <==> n > FIRST_GROUP_SIZE) &&
      (|groups| == 2 ==> |groups[1]| == n - FIRST_GROUP_SIZE)
  {
  }

  /** Call `k` of group `j` of a box carries chunk `8 * j + k` at offset `B * (8 * j + k)`. */
  lemma {:induction false} GroupCallFields(
    c: Constants, box: seq<Byte>, appId: nat, publicKey: seq<Byte>, boxIndex: nat, j: nat, k: nat)
    requires j < |BoxGroups(c, box, appId, publicKey, boxIndex)|
    requires k < |BoxGroups(c, box, appId, publicKey, boxIndex)[j]|
    ensures FIRST_GROUP_SIZE * j + k < CeilDiv(|box|, c.bytesPerCall)
    ensures BoxGroups(c, box, appId, publicKey, boxIndex)[j][k] ==
              UploadCall(appId, publicKey, boxIndex, c.bytesPerCall * (FIRST_GROUP_SIZE * j + k),
                         Chunks(c.bytesPerCall, box)[FIRST_GROUP_SIZE * j + k], BoxReferences(appId, boxIndex, publicKey))
  {
    var chunks := Chunks(c.bytesPerCall, box);
    var boxes := BoxReferences(appId, boxIndex, publicKey);
    if j == 0 {
      assert FirstGroup(chunks)[k] == chunks[k];
    } else {
      assert SecondGroup(chunks)[k] == chunks[FIRST_GROUP_SIZE + k];
    }
  }

  /** Call `k` of group `j` of a box, as BoxGroupsWriteBox states it for all of them. */
  lemma {:induction false} GroupCallAt(
    c: Constants, box: seq<Byte>, appId: nat, publicKey: seq<Byte>, boxIndex: nat, j: nat, k: nat)
    requires j < |BoxGroups(c, box, appId, publicKey, boxIndex)|
    requires k < |BoxGroups(c, box, appId, publicKey, boxIndex)[j]|
    ensures var call := BoxGroups(c, box, appId, publicKey, boxIndex)[j][k];
      var p := FIRST_GROUP_SIZE * j + k;
      call.appId == appId && call.publicKey == publicKey && call.boxIndex == boxIndex &&
      call.boxes == BoxReferences(appId, boxIndex, publicKey) &&
      p < CeilDiv(|box|, c.bytesPerCall) &&
      call.offset == c.bytesPerCall * p &&
      call.chunk == Chunks(c.bytesPerCall, box)[p] &&
      0 < |call.chunk| <= c.bytesPerCall &&
      SliceAt(box, call.offset, call.chunk)
  {
    var p := FIRST_GROUP_SIZE * j + k;
    GroupCallFields(c, box, appId, publicKey, boxIndex, j, k);
    ChunkAt(c.bytesPerCall, box, p);
    assert c.bytesPerCall * p == p * c.bytesPerCall;
  }

  /**
   * Call `k` of group `j` of a box writes chunk `8 * j + k` of the box at byte
   * offset `B * (8 * j + k)`, which is where that chunk starts in the box; every
   * call targets the box's own index and carries its eight box references.
   */
  lemma {:induction false} BoxGroupsWriteBox(c: Constants, box: seq<Byte>, appId: nat, publicKey: seq<Byte>, boxIndex: nat)
    ensures var groups := BoxGroups(c, box, appId, publicKey, boxIndex);
      var n := CeilDiv(|box|, c.bytesPerCall);
      1 <= |groups| <= 2 &&
      |groups[0]| == Min(FIRST_GROUP_SIZE, n) &&
      (|groups| == 2 <==> n > FIRST_GROUP_SIZE) &&
      (|groups| == 2 ==> |groups[1]| == n - FIRST_GROUP_SIZE) &&
      forall j, k :: 0 <= j < |groups| && 0 <= k < |groups[j]| ==>
        var call := groups[j][k];
        call.appId == appId && call.publicKey == publicKey && call.boxIndex == boxIndex &&
        call.boxes == BoxReferences(appId, boxIndex, publicKey) &&
        FIRST_GROUP_SIZE * j + k < n &&
        call.offset == c.bytesPerCall * (FIRST_GROUP_SIZE * j + k) &&
        call.chunk == Chunks(c.bytesPerCall, box)[FIRST_GROUP_SIZE * j + k] &&
        0 < |call.chunk| <= c.bytesPerCall &&
        SliceAt(box, call.offset, call.chunk)
  {
    var groups: seq<seq<UploadCall>> := BoxGroups(c, box, appId, publicKey, boxIndex);
    BoxGroupsShape(c, box, appId, publicKey, boxIndex);
    forall j: int, k: int | 0 <= j < |groups| && 0 <= k < |groups[j]|
      ensures var call := groups[j][k];
        call.appId == appId && call.publicKey == publicKey && call.boxIndex == boxIndex &&
        call.boxes == BoxReferences(appId, boxIndex, publicKey) &&
        FIRST_GROUP_SIZE * j + k < CeilDiv(|box|, c.bytesPerCall) &&
        call.offset == c.bytesPerCall * (FIRST_GROUP_SIZE * j + k) &&
        call.chunk == Chunks(c.bytesPerCall, box)[FIRST_GROUP_SIZE * j + k] &&
        0 < |call.chunk| <= c.bytesPerCall &&
        SliceAt(box, call.offset, call.chunk)
    {
      GroupCallAt(c, box, appId, publicKey, boxIndex, j, k);
    }
  }

  /** A group's calls carry exactly the chunks it was built from, in order. */
  lemma CallChunksOfGroup(
    c: Constants, chunks: seq<seq<Byte>>, appId: nat, publicKey: seq<Byte>,
    boxIndex: nat, boxes: seq<BoxReference>, bytesOffset: nat)
    ensures CallChunks(UploadGroup(c, chunks, appId, publicKey, boxIndex, boxes, bytesOffset)) == chunks
  {
  }

  /** One call of one group of a box, as BoxGroupsWriteBox states it for all of them. */
  lemma {:induction false} BoxCall(
    c: Constants, box: seq<Byte>, appId: nat, publicKey: seq<Byte>, boxIndex: nat,
    g: seq<UploadCall>, call: UploadCall)
    requires g in BoxGroups(c, box, appId, publicKey, boxIndex) && call in g
    ensures call.boxIndex == boxIndex
    ensures call.boxes == BoxReferences(appId, boxIndex, publicKey)
    ensures 0 < |call.chunk| <= c.bytesPerCall
    ensures SliceAt(box, call.offset, call.chunk)
  {
    var groups := BoxGroups(c, box, appId, publicKey, boxIndex);
    BoxGroupsWriteBox(c, box, appId, publicKey, boxIndex);
    var j :| 0 <= j < |groups| && groups[j] == g;
    var k :| 0 <= k < |g| && g[k] == call;
    assert groups[j][k] == call;
  }

  lemma WrittenBytesSingle(g: seq<UploadCall>)
    ensures WrittenBytes([g]) == Flatten(CallChunks(g))
  {
    assert [g][..0] == [];
  }

  lemma WrittenBytesPair(g: seq<UploadCall>, h: seq<UploadCall>)
    ensures WrittenBytes([g, h]) == Flatten(CallChunks(g)) + Flatten(CallChunks(h))
  {
    assert [g, h][..1] == [g];
    WrittenBytesSingle(g);
  }

  /** The groups of a box write exactly the bytes of the box, in order. */
  lemma {:induction false} BoxGroupsBytes(c: Constants, box: seq<Byte>, appId: nat, publicKey: seq<Byte>, boxIndex: nat)
    ensures WrittenBytes(BoxGroups(c, box, appId, publicKey, boxIndex)) == box
  {
    var chunks := Chunks(c.bytesPerCall, box);
    var boxes := BoxReferences(appId, boxIndex, publicKey);
    var first := UploadGroup(c, FirstGroup(chunks), appId, publicKey, boxIndex, boxes, 0);
    CallChunksOfGroup(c, FirstGroup(chunks), appId, publicKey, boxIndex, boxes, 0);
    ChunksConcat(c.bytesPerCall, box);
    GroupsSplitChunks(chunks);
    FlattenAppend(FirstGroup(chunks), SecondGroup(chunks));
    if |SecondGroup(chunks)| != 0 {
      var second := UploadGroup(c, SecondGroup(chunks), appId, publicKey, boxIndex, boxes, FIRST_GROUP_SIZE);
      CallChunksOfGroup(c, SecondGroup(chunks), appId, publicKey, boxIndex, boxes, FIRST_GROUP_SIZE);
      assert BoxGroups(c, box, appId, publicKey, boxIndex) == [first, second];
      WrittenBytesPair(first, second);
    } else {
      assert BoxGroups(c, box, appId, publicKey, boxIndex) == [first];
      WrittenBytesSingle(first);
      assert chunks == FirstGroup(chunks);
    }
  }

  /** Every group of a box stays within eight calls exactly when the box has at most sixteen chunks. */
  lemma {:induction false} BoxGroupsWithinLimit(c: Constants, box: seq<Byte>, appId: nat, publicKey: seq<Byte>, boxIndex: nat)
    ensures var groups := BoxGroups(c, box, appId, publicKey, boxIndex);
      (forall j :: 0 <= j < |groups| ==> |groups[j]| <= FIRST_GROUP_SIZE)
      <==> CeilDiv(|box|, c.bytesPerCall) <= 2 * FIRST_GROUP_SIZE
  {
    BoxGroupsWriteBox(c, box, appId, publicKey, boxIndex);
  }

  /** A box submits an empty atomic group exactly when the box itself is empty. */
  lemma {:induction false} BoxGroupsEmptyGroup(c: Constants, box: seq<Byte>, appId: nat, publicKey: seq<Byte>, boxIndex: nat)
    ensures [] in BoxGroups(c, box, appId, publicKey, boxIndex) <==> box == []
  {
    var groups: seq<seq<UploadCall>> := BoxGroups(c, box, appId, publicKey, boxIndex);
    BoxGroupsWriteBox(c, box, appId, publicKey, boxIndex);
    if [] in groups {
      var j :| 0 <= j < |groups| && groups[j] == [];
    }
    if box == [] {
      assert groups[0] == [];
    }
  }

  /** A box of at most MAX_BOX_SIZE bytes has at most sixteen chunks if MAX_BOX_SIZE <= 16 * BYTES_PER_CALL; a full box needs that bound. */
  lemma ChunkCountLimit(c: Constants, size: nat)
    requires size <= c.maxBoxSize
    ensures c.maxBoxSize <= 2 * FIRST_GROUP_SIZE * c.bytesPerCall ==> CeilDiv(size, c.bytesPerCall) <= 2 * FIRST_GROUP_SIZE
    ensures size == c.maxBoxSize && CeilDiv(size, c.bytesPerCall) <= 2 * FIRST_GROUP_SIZE ==>
              c.maxBoxSize <= 2 * FIRST_GROUP_SIZE * c.bytesPerCall
  {
    var n, b := CeilDiv(size, c.bytesPerCall), c.bytesPerCall;
    if c.maxBoxSize <= 16 * b && n > 16 {
      MulLe(17, n, b);
    }
    if size == c.maxBoxSize && n <= 16 {
      MulLe(n, 16, b);
    }
  }

  /** Flat-mapping elements to groups: the IDs are each element's IDs (`images`), concatenated in order. */
  lemma {:induction false} FlatMapSubmitAll<X>(
    submit: seq<UploadCall> -> seq<TxId>, xs: seq<X>, f: (nat, X) -> seq<seq<UploadCall>>, images: seq<seq<TxId>>)
    requires |images| == |xs|
    requires forall i :: 0 <= i < |xs| ==> images[i] == SubmitAll(submit, f(i, xs[i]))
    ensures SubmitAll(submit, FlatMapIndexed(xs, f)) == Flatten(images)
  {
    if xs != [] {
      var n := |xs| - 1;
      assert forall i :: 0 <= i < n ==> xs[..n][i] == xs[i];
      FlatMapSubmitAll(submit, xs[..n], f, images[..n]);
      SubmitAllAppend(submit, FlatMapIndexed(xs[..n], f), f(n, xs[n]));
    }
  }

  /** When the groups of every element write that element, the flat map writes their concatenation. */
  lemma {:induction false} FlatMapWrittenBytes(xs: seq<seq<Byte>>, f: (nat, seq<Byte>) -> seq<seq<UploadCall>>)
    requires forall i :: 0 <= i < |xs| ==> WrittenBytes(f(i, xs[i])) == xs[i]
    ensures WrittenBytes(FlatMapIndexed(xs, f)) == Flatten(xs)
  {
    if xs != [] {
      var n := |xs| - 1;
      assert forall i :: 0 <= i < n ==> xs[..n][i] == xs[i];
      FlatMapWrittenBytes(xs[..n], f);
      WrittenBytesAppend(FlatMapIndexed(xs[..n], f), f(n, xs[n]));
    }
  }
}
