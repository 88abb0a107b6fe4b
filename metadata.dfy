/**
 * The metadata box of an uploader, as the client reads it: the contract
 * stores a `(uint64,uint64,uint8,uint64,uint64)` tuple under the uploader's
 * public key, and the client keeps its first four fields.
 */
module AlgoDidMetadata {
  const UINT64_BOUND: int := 0x1_0000_0000_0000_0000
  const UINT8_BOUND: int := 0x100

  /** A decoded `(uint64,uint64,uint8,uint64,uint64)` tuple. */
  predicate IsBoxValue(v: seq<int>)
  {
    |v| == 5 &&
    (forall k :: 0 <= k < |v| ==> 0 <= v[k] < UINT64_BOUND) &&
    v[2] < UINT8_BOUND
  }

  /** The client's view of the metadata box: `{ start, end, status, endSize }`. */
  datatype DidMetadata = DidMetadata(start: nat, end: nat, status: nat, endSize: nat)

  /** Field widths of the tuple: three uint64 fields and the uint8 status. */
  predicate ValidMetadata(m: DidMetadata)
  {
    m.start < UINT64_BOUND && m.end < UINT64_BOUND && m.status < UINT8_BOUND && m.endSize < UINT64_BOUND
  }

  /** The projection of both `uploadDidDocument` and `getDidMetaData`: fields 0 to 3, the fifth dropped. */
  function MetadataFromBoxValue(v: seq<int>): (m: DidMetadata)
    requires IsBoxValue(v)
    ensures ValidMetadata(m)
    ensures m.start == v[0] && m.end == v[1] && m.status == v[2] && m.endSize == v[3]
  {
    DidMetadata(v[0], v[1], v[2], v[3])
  }

  /** The tuple a metadata record is stored as, with `extra` in the fifth field. */
  function BoxValueOf(m: DidMetadata, extra: nat): (v: seq<int>)
    requires ValidMetadata(m) && extra < UINT64_BOUND
    ensures IsBoxValue(v)
    ensures v[4] == extra
  {
    [m.start, m.end, m.status, m.endSize, extra]
  }

  /** Reading back a stored record yields the record, whatever the fifth field holds. */
  lemma MetadataRoundTrip(m: DidMetadata, extra: nat)
    requires ValidMetadata(m) && extra < UINT64_BOUND
    ensures MetadataFromBoxValue(BoxValueOf(m, extra)) == m
  {
  }

  /** The projection loses only the fifth field: storing it back with that field gives the tuple. */
  lemma BoxValueRoundTrip(v: seq<int>)
    requires IsBoxValue(v)
    ensures BoxValueOf(MetadataFromBoxValue(v), v[4]) == v
  {
  }

  /** Two tuples give the same metadata exactly when their first four fields agree. */
  lemma MetadataIgnoresFifthField(v: seq<int>, w: seq<int>)
    requires IsBoxValue(v) && IsBoxValue(w)
    ensures MetadataFromBoxValue(v) == MetadataFromBoxValue(w) <==> v[..4] == w[..4]
  {
    if v[..4] == w[..4] {
      assert v[0] == v[..4][0] && v[1] == v[..4][1] && v[2] == v[..4][2] && v[3] == v[..4][3];
      assert w[0] == w[..4][0] && w[1] == w[..4][1] && w[2] == w[..4][2] && w[3] == w[..4][3];
    }
  }
}
