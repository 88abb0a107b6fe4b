/**
 * The upload actions of the client: `uploadDidDocument`, `uploadDidBox` and
 * `massUploadChunks`, as methods that build their arrays step by step and
 * hand each atomic group to `submit` (the composer's `execute`). Each one is
 * proved to produce exactly the plan of `DocumentPlan`.
 */
module AlgoDidActions {
  import opened Sequences
  import opened AlgoDidConstants
  import opened Partition
  import opened Batching
  import opened DocumentPlan
  import opened AlgoDidMetadata

  datatype Result<T, E> = Success(value: T) | Failure(error: E)

  /** The error `uploadDidDocument` throws when the boxes do not reassemble the document. */
  datatype UploadError = BoxDataMismatch

  /** The `boxData` loop of `uploadDidDocument`: the full boxes, then the remainder. */
  method PartitionDocument(c: Constants, document: seq<Byte>) returns (boxData: seq<seq<Byte>>)
    ensures boxData == Boxes(c.maxBoxSize, document)
    ensures |boxData| == |document| / c.maxBoxSize + 1
  {
    var numOfBoxes := |document| / c.maxBoxSize;
    boxData := [];
    for i := 0 to numOfBoxes
      invariant boxData == Boxes(c.maxBoxSize, document)[..i]
    {
      MulLe(i + 1, numOfBoxes, c.maxBoxSize);
      var box := document[i * c.maxBoxSize .. (i + 1) * c.maxBoxSize];
      assert box == Boxes(c.maxBoxSize, document)[i];
      boxData := boxData + [box];
    }
    MulLe(numOfBoxes, numOfBoxes, c.maxBoxSize);
    var lastBox := document[numOfBoxes * c.maxBoxSize ..];
    assert lastBox == Boxes(c.maxBoxSize, document)[numOfBoxes];
    boxData := boxData + [lastBox];
  }

  /** The `chunks` loop of `uploadDidBox`: `ceil(|box| / B)` slices of `B` bytes, clamped to the box. */
  method ChunkBox(bytesPerCall: Pos, box: seq<Byte>) returns (chunks: seq<seq<Byte>>)
    ensures chunks == Chunks(bytesPerCall, box)
    ensures |chunks| == CeilDiv(|box|, bytesPerCall)
  {
    var numOfChunks := CeilDiv(|box|, bytesPerCall);
    chunks := [];
    for i := 0 to numOfChunks
      invariant chunks == Chunks(bytesPerCall, box)[..i]
    {
      var chunk := box[Min(i * bytesPerCall, |box|) .. Min((i + 1) * bytesPerCall, |box|)];
      chunks := chunks + [chunk];
    }
  }

  /**
   * `massUploadChunks`: one `upload` call per chunk, chunk `index` written at
   * offset `B * (index + bytesOffset)`, all added to one composer whose group
   * is then submitted.
   */
  method MassUploadChunks(
    c: Constants, chunks: seq<seq<Byte>>, boxIndex: nat, boxes: seq<BoxReference>, appId: nat,
    publicKey: seq<Byte>, bytesOffset: nat, submit: seq<UploadCall> -> seq<TxId>)
    returns (txIds: seq<TxId>)
    ensures txIds == submit(UploadGroup(c, chunks, appId, publicKey, boxIndex, boxes, bytesOffset))
  {
    var atc: seq<UploadCall> := [];
    for index := 0 to |chunks|
      invariant |atc| == index
      invariant forall k :: 0 <= k < index ==>
                  atc[k] == UploadCall(appId, publicKey, boxIndex, c.bytesPerCall * (k + bytesOffset), chunks[k], boxes)
    {
      var call := UploadCall(appId, publicKey, boxIndex, c.bytesPerCall * (index + bytesOffset), chunks[index], boxes);
      atc := atc + [call];
    }
    assert atc == UploadGroup(c, chunks, appId, publicKey, boxIndex, boxes, bytesOffset);
    txIds := submit(atc);
  }

  /**
   * `uploadDidBox`: box `boxIndexOffset` of the document goes to index
   * `metadata.start + boxIndexOffset`; its first eight chunks form one group,
   * the rest (if any) a second one, and the IDs come back first group first.
   */
  method UploadDidBox(
    c: Constants, box: seq<Byte>, boxIndexOffset: nat, metadata: DidMetadata, appId: nat,
    publicKey: seq<Byte>, submit: seq<UploadCall> -> seq<TxId>)
    returns (txIds: seq<TxId>)
    ensures txIds == SubmitAll(submit, BoxGroups(c, box, appId, publicKey, metadata.start + boxIndexOffset))
  {
    var boxIndex := metadata.start + boxIndexOffset;
    var chunks := ChunkBox(c.bytesPerCall, box);
    var boxes := BoxReferences(appId, boxIndex, publicKey);
    var firstGroup := FirstGroup(chunks);
    var secondGroup := SecondGroup(chunks);
    ghost var groups := BoxGroups(c, box, appId, publicKey, boxIndex);
    ghost var first := UploadGroup(c, firstGroup, appId, publicKey, boxIndex, boxes, 0);
    assert SubmitAll(submit, [first]) == submit(first) by {
      assert [first][..0] == [];
    }
    var res := MassUploadChunks(c, firstGroup, boxIndex, boxes, appId, publicKey, 0, submit);
    if |secondGroup| == 0 {
      assert groups == [first];
      return res;
    }
    ghost var second := UploadGroup(c, secondGroup, appId, publicKey, boxIndex, boxes, FIRST_GROUP_SIZE);
    assert groups == [first, second];
    assert groups[..1] == [first];
    var res2 := MassUploadChunks(c, secondGroup, boxIndex, boxes, appId, publicKey, FIRST_GROUP_SIZE, submit);
    txIds := res + res2;
  }

  /**
   * `uploadDidDocument` once the metadata tuple is read: partition, check the
   * reassembly, then upload box after box, collecting the IDs in order. The
   * mismatch error cannot occur.
   */
  method UploadDidDocument(
    c: Constants, document: seq<Byte>, boxValue: seq<int>, appId: nat, publicKey: seq<Byte>,
    submit: seq<UploadCall> -> seq<TxId>)
    returns (r: Result<seq<TxId>, UploadError>)
    requires IsBoxValue(boxValue)
    ensures r == Success(SubmitAll(submit, DocumentGroups(c, document, boxValue[0], appId, publicKey)))
    ensures r.value == Flatten(PerBoxTxIds(submit, c, Boxes(c.maxBoxSize, document), boxValue[0], appId, publicKey))
  {
    var metadata := MetadataFromBoxValue(boxValue);
    var boxData := PartitionDocument(c, document);
    BoxesConcat(c.maxBoxSize, document);
    if Flatten(boxData) != document {
      r := Failure(BoxDataMismatch);
    } else {
      var txIds: seq<TxId> := [];
      for boxIndexOffset := 0 to |boxData|
        invariant txIds == SubmitAll(submit, PlanBoxes(c, boxData[..boxIndexOffset], metadata.start, appId, publicKey))
      {
        var box := boxData[boxIndexOffset];
        var newRes := UploadDidBox(c, box, boxIndexOffset, metadata, appId, publicKey, submit);
        assert boxData[..boxIndexOffset + 1] == boxData[..boxIndexOffset] + [box];
        PlanBoxesSnoc(c, boxData[..boxIndexOffset], box, metadata.start, appId, publicKey);
        SubmitAllAppend(submit, PlanBoxes(c, boxData[..boxIndexOffset], metadata.start, appId, publicKey),
                        BoxGroups(c, box, appId, publicKey, metadata.start + boxIndexOffset));
        txIds := txIds + newRes;
      }
      assert boxData[..|boxData|] == boxData;
      PlanTxIdsInBoxOrder(c, boxData, metadata.start, appId, publicKey, submit);
      r := Success(txIds);
    }
  }
}
