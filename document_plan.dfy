/**
 * The whole upload plan of `uploadDidDocument`: every box of the partition,
 * box `i` written at index `metadata.start + i`, its groups in order; and how
 * that plan relates to the rent estimate.
 */
module DocumentPlan {
  import opened Sequences
  import opened AlgoDidConstants
  import opened CostEstimator
  import opened Partition
  import opened Batching

  /** The groups of box `i` of a run of boxes, written at index `start + i`. */
  function Planner(c: Constants, start: nat, appId: nat, publicKey: seq<Byte>): (nat, seq<Byte>) -> seq<seq<UploadCall>>
  {
    (i: nat, box: seq<Byte>) => BoxGroups(c, box, appId, publicKey, start + i)
  }

  /** The groups for a run of boxes, box `i` targeting index `start + i`, in box order. */
  function PlanBoxes(c: Constants, boxes: seq<seq<Byte>>, start: nat, appId: nat, publicKey: seq<Byte>): seq<seq<UploadCall>>
  {
    FlatMapIndexed(boxes, Planner(c, start, appId, publicKey))
  }

  /** Every atomic group `uploadDidDocument` submits, in submission order. */
  function DocumentGroups(c: Constants, document: seq<Byte>, start: nat, appId: nat, publicKey: seq<Byte>): (groups: seq<seq<UploadCall>>)
    ensures |document| < c.maxBoxSize ==> groups == BoxGroups(c, document, appId, publicKey, start)
  {
    ShortDocumentPlan(c, document, start, appId, publicKey);
    PlanBoxes(c, Boxes(c.maxBoxSize, document), start, appId, publicKey)
  }

  /** A document shorter than one box is a single box, written at index `start`. */
  lemma ShortDocumentPlan(c: Constants, document: seq<Byte>, start: nat, appId: nat, publicKey: seq<Byte>)
    ensures |document| < c.maxBoxSize ==>
              PlanBoxes(c, Boxes(c.maxBoxSize, document), start, appId, publicKey) == BoxGroups(c, document, appId, publicKey, start)
  {
    if |document| < c.maxBoxSize {
      DivModUnique(|document|, c.maxBoxSize, 0, |document|);
      BoxSliceAt(c.maxBoxSize, document, 0);
      assert Boxes(c.maxBoxSize, document) == [document];
      PlanBoxesSnoc(c, [], document, start, appId, publicKey);
      assert [] + [document] == [document];
    }
  }

  /** Adding one box to the run appends that box's groups, at the next index. */
  lemma PlanBoxesSnoc(c: Constants, boxes: seq<seq<Byte>>, box: seq<Byte>, start: nat, appId: nat, publicKey: seq<Byte>)
    ensures PlanBoxes(c, boxes + [box], start, appId, publicKey)
         == PlanBoxes(c, boxes, start, appId, publicKey) + BoxGroups(c, box, appId, publicKey, start + |boxes|)
  {
    assert (boxes + [box])[..|boxes|] == boxes;
  }

  /** A group is in the plan exactly when it is one of the groups of some box `i`, written at `start + i`. */
  lemma PlanBoxesMember(
    c: Constants, boxes: seq<seq<Byte>>, start: nat, appId: nat, publicKey: seq<Byte>, g: seq<UploadCall>)
    ensures g in PlanBoxes(c, boxes, start, appId, publicKey) <==>
            exists i :: 0 <= i < |boxes| && g in BoxGroups(c, boxes[i], appId, publicKey, start + i)
  {
    FlatMapIndexedMember(boxes, Planner(c, start, appId, publicKey), g);
  }

  /** The plan for a run of boxes writes the concatenation of the boxes. */
  lemma {:induction false} PlanBoxesBytes(c: Constants, boxes: seq<seq<Byte>>, start: nat, appId: nat, publicKey: seq<Byte>)
    ensures WrittenBytes(PlanBoxes(c, boxes, start, appId, publicKey)) == Flatten(boxes)
  {
    var f := Planner(c, start, appId, publicKey);
    forall i | 0 <= i < |boxes|
      ensures WrittenBytes(f(i, boxes[i])) == boxes[i]
    {
      assert f(i, boxes[i]) == BoxGroups(c, boxes[i], appId, publicKey, start + i);
      BoxGroupsBytes(c, boxes[i], appId, publicKey, start + i);
    }
    FlatMapWrittenBytes(boxes, f);
  }

  /** The IDs returned for each box of a run, box `i` written at `start + i`. */
  function PerBoxTxIds(
    submit: seq<UploadCall> -> seq<TxId>, c: Constants, boxes: seq<seq<Byte>>, start: nat,
    appId: nat, publicKey: seq<Byte>): seq<seq<TxId>>
  {
    seq(|boxes|, i requires 0 <= i < |boxes| => SubmitAll(submit, BoxGroups(c, boxes[i], appId, publicKey, start + i)))
  }

  /** The returned IDs are the IDs of each box's groups, concatenated in box order. */
  lemma {:induction false} PlanTxIdsInBoxOrder(
    c: Constants, boxes: seq<seq<Byte>>, start: nat, appId: nat, publicKey: seq<Byte>,
    submit: seq<UploadCall> -> seq<TxId>)
    ensures SubmitAll(submit, PlanBoxes(c, boxes, start, appId, publicKey))
         == Flatten(PerBoxTxIds(submit, c, boxes, start, appId, publicKey))
  {
    var f := Planner(c, start, appId, publicKey);
    var perBox := PerBoxTxIds(submit, c, boxes, start, appId, publicKey);
    forall i | 0 <= i < |boxes|
      ensures perBox[i] == SubmitAll(submit, f(i, boxes[i]))
    {
      assert f(i, boxes[i]) == BoxGroups(c, boxes[i], appId, publicKey, start + i);
    }
    FlatMapSubmitAll(submit, boxes, f, perBox);
  }

  /** Writing every group of the plan, in order, writes the document. */
  lemma DocumentPlanReassembles(c: Constants, document: seq<Byte>, start: nat, appId: nat, publicKey: seq<Byte>)
    ensures WrittenBytes(DocumentGroups(c, document, start, appId, publicKey)) == document
  {
    PlanBoxesBytes(c, Boxes(c.maxBoxSize, document), start, appId, publicKey);
    BoxesConcat(c.maxBoxSize, document);
  }

  /**
   * The partition has one box more than the estimate exactly when the length
   * is a multiple of MAX_BOX_SIZE, and that extra last box is empty; the last
   * box always holds the estimate's `endBoxSize` bytes.
   */
  lemma {:induction false} PartitionVsEstimate(c: Constants, document: seq<Byte>)
    ensures var est := CalculateUploadCost(c, document);
      var boxes := Boxes(c.maxBoxSize, document);
      (|boxes| == est.numberOfBoxes <==> |document| % c.maxBoxSize != 0) &&
      (|document| % c.maxBoxSize == 0 ==> |boxes| == est.numberOfBoxes + 1 && boxes[|boxes| - 1] == []) &&
      |boxes[|boxes| - 1]| == est.endBoxSize
  {
    var len, m := |document|, c.maxBoxSize;
    var q, r := len / m, len % m;
    assert len == q * m + r;
    BoxesShape(m, document);
    if r == 0 {
      CeilDivUnique(len, m, q);
    } else {
      assert (q + 1) * m == q * m + m;
      CeilDivUnique(len, m, q + 1);
    }
  }

  /** Box `i` of the partition is non-empty exactly when it is one of the estimate's boxes. */
  lemma {:induction false} NonEmptyBoxesAreEstimated(c: Constants, document: seq<Byte>, i: nat)
    requires i < |Boxes(c.maxBoxSize, document)|
    ensures Boxes(c.maxBoxSize, document)[i] != [] <==> i < CalculateUploadCost(c, document).numberOfBoxes
  {
    BoxesShape(c.maxBoxSize, document);
    PartitionVsEstimate(c, document);
  }

  /** One write for box `i` of the plan, as DocumentPlanWrites states it for all of them. */
  lemma {:induction false} PlannedWrite(
    c: Constants, document: seq<Byte>, start: nat, appId: nat, publicKey: seq<Byte>,
    i: nat, g: seq<UploadCall>, call: UploadCall)
    requires i < |Boxes(c.maxBoxSize, document)|
    requires g in BoxGroups(c, Boxes(c.maxBoxSize, document)[i], appId, publicKey, start + i) && call in g
    ensures start <= call.boxIndex < start + CalculateUploadCost(c, document).numberOfBoxes
    ensures call.boxes == BoxReferences(appId, call.boxIndex, publicKey)
    ensures 0 < |call.chunk| <= c.bytesPerCall
    ensures SliceAt(document, (call.boxIndex - start) * c.maxBoxSize + call.offset, call.chunk)
  {
    var box := Boxes(c.maxBoxSize, document)[i];
    BoxCall(c, box, appId, publicKey, start + i, g, call);
    NonEmptyBoxesAreEstimated(c, document, i);
    BoxSliceAt(c.maxBoxSize, document, i);
    SliceAtTrans(document, i * c.maxBoxSize, box, call.offset, call.chunk);
  }

  /**
   * Every write of the plan targets one of the `numberOfBoxes` boxes the
   * estimate paid for, starting at `start`, carries that box's references, and
   * writes bytes of the document at position `(boxIndex - start) * M + offset`.
   */
  lemma {:induction false} DocumentPlanWrites(c: Constants, document: seq<Byte>, start: nat, appId: nat, publicKey: seq<Byte>)
    ensures var est := CalculateUploadCost(c, document);
      forall g, call :: g in DocumentGroups(c, document, start, appId, publicKey) && call in g ==>
        start <= call.boxIndex < start + est.numberOfBoxes &&
        call.boxes == BoxReferences(appId, call.boxIndex, publicKey) &&
        0 < |call.chunk| <= c.bytesPerCall &&
        SliceAt(document, (call.boxIndex - start) * c.maxBoxSize + call.offset, call.chunk)
  {
    forall g, call | g in DocumentGroups(c, document, start, appId, publicKey) && call in g
      ensures start <= call.boxIndex < start + CalculateUploadCost(c, document).numberOfBoxes
      ensures call.boxes == BoxReferences(appId, call.boxIndex, publicKey)
      ensures 0 < |call.chunk| <= c.bytesPerCall
      ensures SliceAt(document, (call.boxIndex - start) * c.maxBoxSize + call.offset, call.chunk)
    {
      var boxes := Boxes(c.maxBoxSize, document);
      PlanBoxesMember(c, boxes, start, appId, publicKey, g);
      var i :| 0 <= i < |boxes| && g in BoxGroups(c, boxes[i], appId, publicKey, start + i);
      PlannedWrite(c, document, start, appId, publicKey, i, g, call);
    }
  }

  /** Every box the estimate paid for receives a write at offset 0. */
  lemma {:induction false} EstimatedBoxesAreWritten(
    c: Constants, document: seq<Byte>, start: nat, appId: nat, publicKey: seq<Byte>, i: nat)
    requires i < CalculateUploadCost(c, document).numberOfBoxes
    ensures exists g, call :: g in DocumentGroups(c, document, start, appId, publicKey) && call in g &&
                              call.boxIndex == start + i && call.offset == 0
  {
    var boxes := Boxes(c.maxBoxSize, document);
    PartitionVsEstimate(c, document);
    NonEmptyBoxesAreEstimated(c, document, i);
    var groups := BoxGroups(c, boxes[i], appId, publicKey, start + i);
    BoxGroupsWriteBox(c, boxes[i], appId, publicKey, start + i);
    ChunksShape(c.bytesPerCall, boxes[i]);
    assert groups[0] in groups;
    PlanBoxesMember(c, boxes, start, appId, publicKey, groups[0]);
    var call := groups[0][0];
    assert call in groups[0];
    assert call.offset == 0;
  }

  /**
   * The plan submits an empty atomic group exactly when the length is a
   * multiple of MAX_BOX_SIZE (the empty last box).
   */
  lemma {:induction false} DocumentPlanEmptyGroup(c: Constants, document: seq<Byte>, start: nat, appId: nat, publicKey: seq<Byte>)
    ensures [] in DocumentGroups(c, document, start, appId, publicKey) <==> |document| % c.maxBoxSize == 0
  {
    var boxes := Boxes(c.maxBoxSize, document);
    PlanBoxesMember(c, boxes, start, appId, publicKey, []);
    if [] in DocumentGroups(c, document, start, appId, publicKey) {
      var i :| 0 <= i < |boxes| && [] in BoxGroups(c, boxes[i], appId, publicKey, start + i);
      BoxGroupsEmptyGroup(c, boxes[i], appId, publicKey, start + i);
      EmptyBox(c.maxBoxSize, document, i);
    }
    if |document| % c.maxBoxSize == 0 {
      var n := |boxes| - 1;
      EmptyBox(c.maxBoxSize, document, n);
      BoxGroupsEmptyGroup(c, boxes[n], appId, publicKey, start + n);
    }
  }

  /** A box of the partition never holds more than MAX_BOX_SIZE bytes. */
  lemma BoxWithinMax(c: Constants, document: seq<Byte>, i: nat)
    requires i < |Boxes(c.maxBoxSize, document)|
    ensures |Boxes(c.maxBoxSize, document)[i]| <= c.maxBoxSize
  {
    BoxesShape(c.maxBoxSize, document);
  }

  /** The first box of a document of at least MAX_BOX_SIZE bytes is full. */
  lemma FirstBoxFull(c: Constants, document: seq<Byte>)
    requires |document| >= c.maxBoxSize
    ensures |Boxes(c.maxBoxSize, document)| > 1 && |Boxes(c.maxBoxSize, document)[0]| == c.maxBoxSize
  {
    DivModUnique(c.maxBoxSize, c.maxBoxSize, 1, 0);
    assert |document| / c.maxBoxSize >= 1;
    BoxesShape(c.maxBoxSize, document);
  }

  /** With MAX_BOX_SIZE <= 16 * BYTES_PER_CALL every group of the plan holds at most eight calls. */
  lemma {:induction false} PlanGroupsBounded(c: Constants, document: seq<Byte>, start: nat, appId: nat, publicKey: seq<Byte>)
    requires c.maxBoxSize <= 2 * FIRST_GROUP_SIZE * c.bytesPerCall
    ensures forall g :: g in DocumentGroups(c, document, start, appId, publicKey) ==> |g| <= FIRST_GROUP_SIZE
  {
    var boxes := Boxes(c.maxBoxSize, document);
    forall g | g in DocumentGroups(c, document, start, appId, publicKey)
      ensures |g| <= FIRST_GROUP_SIZE
    {
      PlanBoxesMember(c, boxes, start, appId, publicKey, g);
      var i :| 0 <= i < |boxes| && g in BoxGroups(c, boxes[i], appId, publicKey, start + i);
      BoxWithinMax(c, document, i);
      ChunkCountLimit(c, |boxes[i]|);
      BoxGroupsWithinLimit(c, boxes[i], appId, publicKey, start + i);
    }
  }

  /** If a document of at least one full box has no group above eight calls, MAX_BOX_SIZE <= 16 * BYTES_PER_CALL. */
  lemma {:induction false} BoundFromPlanGroups(c: Constants, document: seq<Byte>, start: nat, appId: nat, publicKey: seq<Byte>)
    requires |document| >= c.maxBoxSize
    requires forall g :: g in DocumentGroups(c, document, start, appId, publicKey) ==> |g| <= FIRST_GROUP_SIZE
    ensures c.maxBoxSize <= 2 * FIRST_GROUP_SIZE * c.bytesPerCall
  {
    var boxes := Boxes(c.maxBoxSize, document);
    FirstBoxFull(c, document);
    var groups := BoxGroups(c, boxes[0], appId, publicKey, start);
    forall j | 0 <= j < |groups|
      ensures |groups[j]| <= FIRST_GROUP_SIZE
    {
      assert groups[j] in groups;
      PlanBoxesMember(c, boxes, start, appId, publicKey, groups[j]);
    }
    BoxGroupsWithinLimit(c, boxes[0], appId, publicKey, start);
    ChunkCountLimit(c, |boxes[0]|);
  }

  /**
   * Every atomic group holds at most eight calls when MAX_BOX_SIZE <= 16 * BYTES_PER_CALL,
   * and for a document of at least one full box only then.
   */
  lemma {:induction false} DocumentPlanWithinLimit(c: Constants, document: seq<Byte>, start: nat, appId: nat, publicKey: seq<Byte>)
    ensures c.maxBoxSize <= 2 * FIRST_GROUP_SIZE * c.bytesPerCall ==>
              forall g :: g in DocumentGroups(c, document, start, appId, publicKey) ==> |g| <= FIRST_GROUP_SIZE
    ensures |document| >= c.maxBoxSize &&
            (forall g :: g in DocumentGroups(c, document, start, appId, publicKey) ==> |g| <= FIRST_GROUP_SIZE) ==>
              c.maxBoxSize <= 2 * FIRST_GROUP_SIZE * c.bytesPerCall
  {
    if c.maxBoxSize <= 2 * FIRST_GROUP_SIZE * c.bytesPerCall {
      PlanGroupsBounded(c, document, start, appId, publicKey);
    }
    if |document| >= c.maxBoxSize &&
       (forall g :: g in DocumentGroups(c, document, start, appId, publicKey) ==> |g| <= FIRST_GROUP_SIZE) {
      BoundFromPlanGroups(c, document, start, appId, publicKey);
    }
  }
}
