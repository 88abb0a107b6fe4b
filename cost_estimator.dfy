/**
 * The rent estimate the client pays before an upload starts
 * (`calculateTotalCostOfUploadingDidDocument`). The estimate is exact integer
 * arithmetic and may be negative for an empty document.
 */
module CostEstimator {
  import opened Sequences
  import opened AlgoDidConstants

  datatype CostEstimate = CostEstimate(totalCost: int, numberOfBoxes: nat, endBoxSize: nat)

  /**
   * Rent for the data boxes, their bytes, their 8-byte keys, and one metadata
   * box. Only the length of the document is used.
   */
  function CalculateUploadCost(c: Constants, documentBuffer: seq<Byte>): (r: CostEstimate)
    ensures r.numberOfBoxes * c.maxBoxSize - c.maxBoxSize < |documentBuffer| <= r.numberOfBoxes * c.maxBoxSize
    ensures r.numberOfBoxes == 0 <==> |documentBuffer| == 0
    ensures r.endBoxSize < c.maxBoxSize
    ensures |documentBuffer| == (|documentBuffer| / c.maxBoxSize) * c.maxBoxSize + r.endBoxSize
  {
    var byteLength := |documentBuffer|;
    var ceilBoxes := CeilDiv(byteLength, c.maxBoxSize);
    var endBoxSize := byteLength % c.maxBoxSize;
    var totalCost :=
      ceilBoxes * c.costPerBox                                  // data boxes
      + (ceilBoxes - 1) * c.maxBoxSize * c.costPerByte          // bytes of the full data boxes
      + ceilBoxes * 8 * c.costPerByte                           // keys of the data boxes
      + endBoxSize * c.costPerByte                              // bytes of the last data box
      + c.costPerBox + METADATA_RECORD_WIDTH * c.costPerByte;   // metadata box
    CostEstimate(totalCost, ceilBoxes, endBoxSize)
  }

  /** The part of the estimate charged per data byte: the full boxes and the end box. */
  function DataBytesCharged(c: Constants, r: CostEstimate): int
  {
    (r.numberOfBoxes - 1) * c.maxBoxSize + r.endBoxSize
  }

  /** The estimate is box rent, key bytes, metadata and the data bytes it charges for. */
  lemma {:induction false} CostDecomposition(c: Constants, documentBuffer: seq<Byte>)
    ensures var r := CalculateUploadCost(c, documentBuffer);
      r.totalCost == (r.numberOfBoxes + 1) * c.costPerBox
                     + (DataBytesCharged(c, r) + 8 * r.numberOfBoxes + 65) * c.costPerByte
  {
    var r := CalculateUploadCost(c, documentBuffer);
    var n, m, b := r.numberOfBoxes, c.maxBoxSize, c.costPerByte;
    assert (n - 1) * m * b + n * 8 * b + r.endBoxSize * b + 65 * b
        == ((n - 1) * m + r.endBoxSize + 8 * n + 65) * b;
  }

  /** Every byte of the document is charged when its length is not a multiple of the box size. */
  lemma {:induction false} ChargeExactWhenNotMultiple(c: Constants, documentBuffer: seq<Byte>)
    requires |documentBuffer| % c.maxBoxSize != 0
    ensures var r := CalculateUploadCost(c, documentBuffer);
      DataBytesCharged(c, r) == |documentBuffer| &&
      r.totalCost == (r.numberOfBoxes + 1) * c.costPerBox
                     + (|documentBuffer| + 8 * r.numberOfBoxes + 65) * c.costPerByte
  {
    var r := CalculateUploadCost(c, documentBuffer);
    var len, m := |documentBuffer|, c.maxBoxSize;
    assert r.numberOfBoxes == len / m + 1;
    assert len == (len / m) * m + len % m;
    CostDecomposition(c, documentBuffer);
  }

  /**
   * When the length is a positive multiple of the box size the end box size is 0
   * and the last full box's bytes are not charged.
   */
  lemma {:induction false} ChargeShortWhenMultiple(c: Constants, documentBuffer: seq<Byte>)
    requires |documentBuffer| > 0 && |documentBuffer| % c.maxBoxSize == 0
    ensures var r := CalculateUploadCost(c, documentBuffer);
      r.endBoxSize == 0 &&
      DataBytesCharged(c, r) == |documentBuffer| - c.maxBoxSize &&
      r.totalCost == (r.numberOfBoxes + 1) * c.costPerBox
                     + (|documentBuffer| - c.maxBoxSize + 8 * r.numberOfBoxes + 65) * c.costPerByte
  {
    var r := CalculateUploadCost(c, documentBuffer);
    var len, m := |documentBuffer|, c.maxBoxSize;
    assert r.numberOfBoxes == len / m;
    assert len == (len / m) * m;
    CostDecomposition(c, documentBuffer);
  }

  /**
   * An empty document needs no data box, and the `(ceilBoxes - 1)` term then
   * subtracts a whole box of bytes.
   */
  lemma {:induction false} EmptyDocumentCost(c: Constants, documentBuffer: seq<Byte>)
    requires |documentBuffer| == 0
    ensures var r := CalculateUploadCost(c, documentBuffer);
      r.numberOfBoxes == 0 && r.endBoxSize == 0 &&
      r.totalCost == c.costPerBox + (65 - c.maxBoxSize) * c.costPerByte
  {
    var r := CalculateUploadCost(c, documentBuffer);
    CostDecomposition(c, documentBuffer);
    assert DataBytesCharged(c, r) == -(c.maxBoxSize as int);
  }

  /**
   * The estimate is not monotone in the length: one byte short of k full boxes
   * costs (MAX_BOX_SIZE - 1) bytes of rent more than exactly k full boxes.
   */
  lemma {:induction false} CostNotMonotone(c: Constants, shorter: seq<Byte>, longer: seq<Byte>, k: nat)
    requires k >= 1 && c.maxBoxSize >= 2
    requires |longer| == k * c.maxBoxSize && |shorter| == |longer| - 1
    ensures CalculateUploadCost(c, shorter).totalCost
         == CalculateUploadCost(c, longer).totalCost + (c.maxBoxSize - 1) * c.costPerByte
    ensures CalculateUploadCost(c, shorter).totalCost > CalculateUploadCost(c, longer).totalCost
  {
    var m, b := c.maxBoxSize, c.costPerByte;
    var rs, rl := CalculateUploadCost(c, shorter), CalculateUploadCost(c, longer);
    CeilDivUnique(|shorter|, m, k);
    CeilDivUnique(|longer|, m, k);
    DivModUnique(|shorter|, m, k - 1, m - 1);
    DivModUnique(|longer|, m, k, 0);
    CostDecomposition(c, shorter);
    CostDecomposition(c, longer);
    var x := (k - 1) * m + 8 * k + 65;
    assert DataBytesCharged(c, rs) + 8 * k + 65 == x + (m - 1);
    assert DataBytesCharged(c, rl) + 8 * k + 65 == x;
    assert (x + (m - 1)) * b == x * b + (m - 1) * b;
    MulLe(1, m - 1, b);
  }

  /** The estimate depends on the document only through its byte length. */
  lemma CostDependsOnlyOnLength(c: Constants, a: seq<Byte>, b: seq<Byte>)
    requires |a| == |b|
    ensures CalculateUploadCost(c, a) == CalculateUploadCost(c, b)
  {
  }
}
