/**
 * The deployment constants shared by the client and the AlgoDID contract, and
 * the integer ceiling that the client computes with `Math.ceil(a / b)`.
 */
module AlgoDidConstants {

  type Pos = x: int | x > 0 witness 1

  /**
   * MAX_BOX_SIZE, BYTES_PER_CALL, COST_PER_BOX and COST_PER_BYTE. Their values
   * live in a constants file that is not part of this model, so they are parameters.
   */
  datatype Constants = Constants(maxBoxSize: Pos, bytesPerCall: Pos, costPerBox: Pos, costPerByte: Pos)

  /** `chunks.slice(0, 8)`: the number of chunks in the first atomic group of a box. */
  const FIRST_GROUP_SIZE: nat := 8

  /** The copies of the data box reference carried by every upload call. */
  const DATA_BOX_REFERENCES: nat := 7

  /** The bytes charged for the metadata box: the sum `8 + 8 + 1 + 8 + 32 + 8` of the estimator. */
  const METADATA_RECORD_WIDTH: nat := 8 + 8 + 1 + 8 + 32 + 8

  /** `Math.ceil(a / b)` for a non-negative integer `a`: the least `q` with `a <= q * b`. */
  function CeilDiv(a: nat, b: Pos): (q: nat)
    ensures q * b - b < a <= q * b
    ensures q == 0 <==> a == 0
  {
    if a % b == 0 then a / b else a / b + 1
  }

  /** The two bounds in CeilDiv's contract determine the quotient. */
  lemma CeilDivUnique(a: nat, b: Pos, q: int)
    requires q * b - b < a <= q * b
    ensures q == CeilDiv(a, b)
  {
    var r := CeilDiv(a, b);
    if q < r {
      MulLe(q + 1, r, b);
    } else if r < q {
      MulLe(r + 1, q, b);
    }
  }

  lemma MulLe(x: int, y: int, m: nat)
    requires x <= y
    ensures x * m <= y * m
  {
    assert y * m - x * m == (y - x) * m;
  }

  /** Euclidean division is determined by its quotient/remainder decomposition. */
  lemma DivModUnique(a: nat, b: Pos, q: nat, r: nat)
    requires a == q * b + r && r < b
    ensures a / b == q && a % b == r
  {
    var q', r' := a / b, a % b;
    assert a == q' * b + r';
    if q' < q {
      MulLe(q' + 1, q, b);
    } else if q < q' {
      MulLe(q + 1, q', b);
    }
  }
}
