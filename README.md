# AlgoDID upload planner

This project models the client side of an AlgoDID upload. A DID document is
stored in the boxes of an Algorand application. The model covers:

- the cost estimate that pays the box rent up front;
- how the document bytes are cut into boxes, and each box into chunks of `BYTES_PER_CALL` bytes;
- how the chunks are grouped into atomic groups of `upload` calls, with their write offsets and box references;
- the order in which the transaction IDs come back;
- the projection of the on-chain metadata tuple;
- the `did:algo:<network>:app:<appId>:<hex>` identifier and the document skeleton built from it.

The constants `MAX_BOX_SIZE`, `BYTES_PER_CALL`, `COST_PER_BOX` and
`COST_PER_BYTE` come from a file that is not part of this model. They are
modelled as positive parameters, in `AlgoDidConstants.Constants`.

The upload actions of `AlgoDidActions` (`uploadDidDocument`, `uploadDidBox` and `massUploadChunks`) are methods with loops, proved equal to the plan functions of `DocumentPlan`, which also holds the lemmas about that plan. Network submission (`atc.execute`) is a function parameter `submit` from an atomic group to its transaction IDs.

The estimator, the grouping, the metadata projection and the DID assembly are pure functions.

The estimate and the partition disagree when the document length is a multiple of `MAX_BOX_SIZE`:

- The estimator counts `ceil(len / M)` boxes.
- The partition always produces `floor(len / M) + 1` boxes.
- So at an exact multiple, the partition has one extra box, and it is empty.
- That box is still handed to `uploadDidBox`, which then submits an empty atomic group (`DocumentPlan.DocumentPlanEmptyGroup`).
- In that same case the estimate does not charge the bytes of the last full box (`CostEstimator.ChargeShortWhenMultiple`), so the cost is not monotone in the length (`CostEstimator.CostNotMonotone`).
- Despite this, every write lands in one of the `numberOfBoxes` boxes the estimate paid for (`DocumentPlan.DocumentPlanWrites`), and every paid box receives a write (`DocumentPlan.EstimatedBoxesAreWritten`).

An empty atomic group therefore reaches `atc.execute` for the empty document and for every exact multiple of `M` (index.tsx:238-247 and 284). The composer's code is not part of this model, so whether it accepts an empty group is not known here. `AlgoDidActions.UploadDidDocument` returns `Success` on those inputs only because `submit` is a total function.

The model states this behaviour as the code has it. It does not guess which side is intended.

Two facts about `uploadDidDocument` that the model keeps:

- It uploads every box of the partition, `boxData.length` of them, and does not restrict itself to the metadata's `[start, end)` range (index.tsx:198).
- It never reads `metadata.status`.

The reassembly check compares the hex encodings of the two buffers. Hex encoding is injective, so the model compares the bytes directly. `AlgoDidActions.UploadDidDocument` proves that this check always passes.

## Model

| member | source | states |
|---|---|---|
| AlgoDidConstants.CeilDiv | src/utils/algo-did-utils.ts:10 | `Math.ceil(a / b)` on integers: the least `q` with `a <= q * b`, and `q` is zero exactly for `a == 0` |
| CostEstimator.CalculateUploadCost | src/utils/algo-did-utils.ts:9-22 | `(numberOfBoxes - 1) * M < len <= numberOfBoxes * M`; no boxes exactly for the empty document; `endBoxSize < M` and `len == floor(len / M) * M + endBoxSize` |
| CostEstimator.CostDecomposition | src/utils/algo-did-utils.ts:14-20 | the total is `(n + 1)` box rents plus, per byte, the charged data bytes, `8n` key bytes and the 65 bytes charged for the metadata box |
| CostEstimator.ChargeExactWhenNotMultiple | src/utils/algo-did-utils.ts:16-18 | when `len % M != 0` the data-byte charge is exactly `len * COST_PER_BYTE` |
| CostEstimator.ChargeShortWhenMultiple | src/utils/algo-did-utils.ts:12-18 | when `len > 0` is a multiple of `M` the data bytes charged are `len - M`: the last full box is not charged |
| CostEstimator.EmptyDocumentCost | src/utils/algo-did-utils.ts:10-20 | for the empty document there are no boxes and the total is `COST_PER_BOX + (65 - M) * COST_PER_BYTE`, negative `(n - 1)` term included |
| CostEstimator.CostNotMonotone | src/utils/algo-did-utils.ts:10-20 | a document one byte shorter than `k * M` costs `(M - 1) * COST_PER_BYTE` more than one of exactly `k * M` bytes |
| CostEstimator.CostDependsOnlyOnLength | src/utils/algo-did-utils.ts:9-22 | two documents of the same length get the same estimate |
| Partition.Boxes | src/actions/algo-did/index.tsx:181-190 | the `boxData` array has `floor(len / M) + 1` boxes |
| Partition.Chunks | src/actions/algo-did/index.tsx:223-229 | a box of `S` bytes has `ceil(S / B)` chunks, none when it is empty |
| Partition.BoxesShape | src/actions/algo-did/index.tsx:181-190 | `floor(len / M) + 1` boxes; all but the last hold `M` bytes, the last holds `len % M` and is empty exactly when `M` divides `len`; box `i` is the document's bytes from `i * M` |
| Partition.BoxesPrefix | src/actions/algo-did/index.tsx:184-187 | the first `k` full boxes concatenate to the first `k * M` bytes of the document |
| Partition.EmptyBox | src/actions/algo-did/index.tsx:184-190 | box `i` is empty iff it is the last box and `M` divides the length |
| Partition.BoxesConcat | src/actions/algo-did/index.tsx:192-194 | the boxes concatenated in order are the document |
| Partition.ChunkAt | src/actions/algo-did/index.tsx:227-228 | chunk `i` is non-empty, at most `B` bytes, full unless last, and is the box's bytes from `i * B` |
| Partition.ChunksShape | src/actions/algo-did/index.tsx:223-229 | `ceil(S / B)` chunks for a box of `S` bytes, each the slice at `i * B`, of size in `(0, B]`, all but the last exactly `B` |
| Partition.ChunksPrefix | src/actions/algo-did/index.tsx:227-229 | the first `k` chunks concatenate to the first `min(k * B, S)` bytes of a box of `S` bytes |
| Partition.ChunksConcat | src/actions/algo-did/index.tsx:223-229 | the chunks concatenated in order are the box |
| Batching.FirstGroup | src/actions/algo-did/index.tsx:235 | the first group is a prefix of the chunks with at most 8 of them, and all of them when there are fewer than 8 |
| Batching.SecondGroup | src/actions/algo-did/index.tsx:236 | the second group is what follows the first group in the chunks |
| Batching.UploadGroup | src/actions/algo-did/index.tsx:272-282 | the calls carry the group's chunks in order, and every call has the group's app id, public key, box index and box references |
| Batching.BoxGroups | src/actions/algo-did/index.tsx:235-262 | a box yields one or two groups, two exactly when it has more than 8 chunks |
| Batching.GroupsSplitChunks | src/actions/algo-did/index.tsx:235-236 | the two groups concatenate to the chunks, the first has `min(8, n)`; the second is non-empty iff `n > 8` and has at most 8 iff `n <= 16` |
| Batching.BoxReferences | src/actions/algo-did/index.tsx:231-233 | eight references: seven to the data box at `boxIndex`, then the uploader's public-key box, and no other |
| Batching.BoxGroupsShape | src/actions/algo-did/index.tsx:235-262 | one group, or two exactly when there are more than eight chunks; the first holds `min(8, n)` calls, the second `n - 8` |
| Batching.BoxGroupsWriteBox | src/actions/algo-did/index.tsx:235-262 | call `k` of group `j` writes chunk `8j + k` at offset `B * (8j + k)`, which is where that chunk sits in the box; one or two groups, the first holding `min(8, n)` calls |
| Batching.GroupCallAt | src/actions/algo-did/index.tsx:272-275 | call `k` of group `j` targets the box with its references, writes chunk `8j + k` at offset `B * (8j + k)`, 1 to `B` bytes found there in the box |
| Batching.BoxCall | src/actions/algo-did/index.tsx:219-263 | every call of a box's groups targets that box, carries its eight references and writes 1 to `B` bytes of the box at its own offset |
| Batching.BoxGroupsBytes | src/actions/algo-did/index.tsx:219-263 | the bytes the box's groups write, in order, are the box |
| Batching.BoxGroupsWithinLimit | src/actions/algo-did/index.tsx:235-260 | every group of a box has at most 8 calls iff the box has at most 16 chunks |
| Batching.BoxGroupsEmptyGroup | src/actions/algo-did/index.tsx:235-249 | a box's groups include an empty group iff the box is empty |
| Batching.ChunkCountLimit | src/actions/algo-did/index.tsx:223 | `M <= 16 * B` bounds every box to 16 chunks, and a full box has at most 16 chunks only when `M <= 16 * B` |
| DocumentPlan.DocumentGroups | src/actions/algo-did/index.tsx:198-212 | a document shorter than one box is submitted as the groups of that one box at index `start` |
| DocumentPlan.ShortDocumentPlan | src/actions/algo-did/index.tsx:181-212 | the plan of a document shorter than one box is the groups of the single box at index `start` |
| DocumentPlan.PlanBoxesMember | src/actions/algo-did/index.tsx:198-212 | a group is submitted iff it is a group of some box `i` written at index `start + i` |
| DocumentPlan.PlanBoxesBytes | src/actions/algo-did/index.tsx:198-212 | the plan for a run of boxes writes their concatenation |
| DocumentPlan.PlanTxIdsInBoxOrder | src/actions/algo-did/index.tsx:196-214 | the returned IDs are each box's IDs concatenated in box order |
| DocumentPlan.DocumentPlanReassembles | src/actions/algo-did/index.tsx:181-214 | writing every submitted call in order writes the whole document |
| DocumentPlan.PartitionVsEstimate | src/actions/algo-did/index.tsx:181-190 | the partition has `numberOfBoxes` boxes iff `len % M != 0`, otherwise one more, which is empty; the last box holds `endBoxSize` bytes |
| DocumentPlan.NonEmptyBoxesAreEstimated | src/actions/algo-did/index.tsx:181-190 | box `i` is non-empty iff `i < numberOfBoxes` |
| DocumentPlan.PlannedWrite | src/actions/algo-did/index.tsx:198-209 | a call for box `i` targets an index in `[start, start + numberOfBoxes)`, carries that box's references, and writes 1 to `B` document bytes at `(boxIndex - start) * M + offset` |
| DocumentPlan.DocumentPlanWrites | src/actions/algo-did/index.tsx:198-212 | every submitted call stays within the paid boxes and writes the document's own bytes at its position |
| DocumentPlan.EstimatedBoxesAreWritten | src/actions/algo-did/index.tsx:198-212 | every box the estimate paid for receives a write at offset 0 |
| DocumentPlan.DocumentPlanEmptyGroup | src/actions/algo-did/index.tsx:181-212 | an empty atomic group is submitted iff `len` is a multiple of `M` |
| DocumentPlan.DocumentPlanWithinLimit | src/actions/algo-did/index.tsx:235-260 | every group holds at most 8 calls if `M <= 16 * B`, and for a document of at least one full box only then |
| DocumentPlan.PlanGroupsBounded | src/actions/algo-did/index.tsx:235-260 | with `M <= 16 * B` no submitted group holds more than eight calls |
| DocumentPlan.BoundFromPlanGroups | src/actions/algo-did/index.tsx:235-260 | a document of at least one full box with no group above eight calls forces `M <= 16 * B` |
| AlgoDidActions.PartitionDocument | src/actions/algo-did/index.tsx:181-190 | the `boxData` loop builds exactly the partition, `floor(len / M) + 1` boxes |
| AlgoDidActions.ChunkBox | src/actions/algo-did/index.tsx:223-229 | the `chunks` loop builds exactly the `ceil(S / B)` chunks of a box of `S` bytes |
| AlgoDidActions.MassUploadChunks | src/actions/algo-did/index.tsx:265-285 | the composer loop builds the group with chunk `index` at offset `B * (index + bytesOffset)` and returns the IDs of submitting it |
| AlgoDidActions.UploadDidBox | src/actions/algo-did/index.tsx:219-263 | returns the IDs of the box's first group, then of its second group when there is one, for index `metadata.start + boxIndexOffset` |
| AlgoDidActions.UploadDidDocument | src/actions/algo-did/index.tsx:174-214 | never fails the reassembly check, and returns the IDs of the whole plan for `start == metadata.start`, box by box in order |
| AlgoDidMetadata.MetadataFromBoxValue | src/actions/algo-did/index.tsx:309-314 | the metadata is the first four fields of the tuple, within their uint64/uint8 widths |
| AlgoDidMetadata.BoxValueOf | src/actions/algo-did/index.tsx:304-307 | a record stored as a well-formed `(uint64,uint64,uint8,uint64,uint64)` tuple |
| AlgoDidMetadata.MetadataRoundTrip | src/actions/algo-did/index.tsx:304-314 | reading back a stored record gives the record |
| AlgoDidMetadata.BoxValueRoundTrip | src/actions/algo-did/index.tsx:304-314 | the projection loses only the fifth field |
| AlgoDidMetadata.MetadataIgnoresFifthField | src/actions/algo-did/index.tsx:174-179 | two tuples give the same metadata iff their first four fields agree |
| DidIdentifier.Did | src/actions/algo-did/index.tsx:56-57 | the identifier starts with `did:algo:` and has the length of its parts plus the fixed separators |
| DidIdentifier.MasterKeyId | src/actions/algo-did/index.tsx:68 | the key id is the identifier followed by `#master` |
| DidIdentifier.CreateDidDocument | src/actions/algo-did/index.tsx:59-73 | the document's id is the identifier, under the three contexts, with one Ed25519 verification method controlled by the identifier, whose `#master` id is the one authentication entry |
| DidIdentifier.ParseDid | src/actions/algo-did/index.tsx:56-57 | the parts recovered from an identifier have no colon |
| DidIdentifier.ParseDidOfDid | src/actions/algo-did/index.tsx:56-57 | parsing the identifier of colon-free parts recovers the parts |
| DidIdentifier.DidOfParseDid | src/actions/algo-did/index.tsx:56-57 | an identifier that parses is the one built from its parts |
| DidIdentifier.CreatedDocumentIdParses | src/actions/algo-did/index.tsx:52-65 | for a colon-free network name and app id and a hex key, the document id parses back to those inputs |

## Left out

- Wallet access and the "No wallet connected" guards: ambient React state. The uploader's public key is a parameter.
- `AlgoDidClient` and `algosdk` network calls (`AtomicTransactionComposer.execute`, `getTransactionParams`, `getAppReference`, `getBoxValueFromABIType`, payment construction): these are network I/O. Submission is the parameter `submit`, and the metadata tuple is a parameter of `UploadDidDocument`.
- `deploySmartContract`, `startDidDocumentUpload` and `finishDidDocumentUpload`: each is a single network call. Only `startDidDocumentUpload` sends an estimate, and that estimate is `CalculateUploadCost` (index.tsx:113-130).
- `algosdk.decodeAddress`, `encodeUint64`, `Buffer.toString('hex')` and `JSON.stringify`: library encodings whose code is not part of this model. A data box is named by its index, and the document bytes and the public-key hex are inputs.
- The on-chain NotStarted/Started/Finished state machine: the contract code is not part of this model. The client only reads the status number.
- The hard-coded `service` entries of `createDidDocument`: fixed literal data.
- The UI under src/features and the type declarations in src/interface: presentation and types only.
- `Number()` on uint64 values above 2^53, and `Math.ceil` and `Math.floor` on doubles (algo-did-utils.ts:10, index.tsx:181 and 223): the model uses exact integers.
- Concurrency and failure of submission: `submit` is total, and the calls happen in sequence as the code awaits them.
- DidIdentifier.ParseDid: this parser is not in the source. It exists as the inverse that the round-trip lemmas use.
- AlgoDidMetadata.BoxValueOf: the source never builds the metadata tuple; it only decodes one (index.tsx:304-307). This encoder exists as the inverse that the metadata round-trip lemmas use.
