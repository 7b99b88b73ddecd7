/** The byte layout of an UltraPlonk proof as the Barretenberg backend for Noir hands it
    out: the engine returns `[flattened public inputs][proof]`, where the proof part has
    a fixed length, and the backend splits it into a `ProofData` and joins it back. */
module ProofLayout {

  newtype byte = x: int | 0 <= x < 256

  /** The number of bytes in an UltraPlonk proof without its public inputs. */
  const NumBytesInProofWithoutPublicInputs: nat := 2144

  /** `Uint8Array.prototype.slice` resolves a relative index against the length:
      a negative index counts from the end, and the result is clamped to `[0, len]`. */
  function RelativeIndex(relative: int, len: nat): (k: nat)
    ensures k <= len
    ensures 0 <= relative <= len ==> k == relative
    ensures relative < 0 <= len + relative ==> k == len + relative
    ensures len + relative < 0 ==> k == 0
    ensures len < relative ==> k == len
  {
    if relative < 0 then (if len + relative < 0 then 0 else len + relative)
    else if relative < len then relative
    else len
  }

  /** `a.slice(start, end)`: the bytes between the two resolved indices, or none when
      the end resolves before the start. */
  function Slice(a: seq<byte>, start: int, end: int): (r: seq<byte>)
    ensures |r| <= |a|
  {
    var k := RelativeIndex(start, |a|);
    var f := RelativeIndex(end, |a|);
    if k <= f then a[k..f] else []
  }

  /** `a.slice(start)`: from the resolved start to the end. */
  function SliceFrom(a: seq<byte>, start: int): (r: seq<byte>)
    ensures r == a[RelativeIndex(start, |a|)..]
  {
    Slice(a, start, |a|)
  }

  /** Both halves of a blob cut where the public inputs end. */
  datatype SplitBlob = SplitBlob(publicInputsConcatenated: seq<byte>, proof: seq<byte>)

  /** The split in `generateProof`. It is not guarded: a blob shorter than the proof
      length makes `splitIndex` negative, which `slice` reads as counting from the end,
      so the parts still join to the blob but the proof part is not 2144 bytes. */
  function SplitProofWithPublicInputs(proofWithPublicInputs: seq<byte>): (r: SplitBlob)
    ensures r.publicInputsConcatenated + r.proof == proofWithPublicInputs
    ensures |proofWithPublicInputs| >= NumBytesInProofWithoutPublicInputs ==>
              var splitIndex := |proofWithPublicInputs| - NumBytesInProofWithoutPublicInputs;
              |r.proof| == NumBytesInProofWithoutPublicInputs &&
              r.proof == proofWithPublicInputs[splitIndex..] &&
              r.publicInputsConcatenated == proofWithPublicInputs[..splitIndex]
    ensures |proofWithPublicInputs| < NumBytesInProofWithoutPublicInputs ==>
              |r.proof| < NumBytesInProofWithoutPublicInputs
  {
    var splitIndex := |proofWithPublicInputs| - NumBytesInProofWithoutPublicInputs;
    SplitBlob(Slice(proofWithPublicInputs, 0, splitIndex), SliceFrom(proofWithPublicInputs, splitIndex))
  }

  /** Public inputs as `deflattenPublicInputs` returns them; their shape is not modelled. */
  type PublicInputs = seq<seq<byte>>

  /** The circuit's ABI. Its structure is read only by `deflattenPublicInputs`, which
      is not part of this model, so it is kept as its serialised text. */
  datatype Abi = Abi(json: string)

  /** `flattenPublicInputsAsArray` and `deflattenPublicInputs`, whose definitions are
      not part of this model. */
  datatype PublicInputCodec = PublicInputCodec(
    flattenAsArray: PublicInputs -> seq<byte>,
    deflatten: (seq<byte>, Abi) -> PublicInputs)

  /** The round-trip law the two are meant to satisfy for the inputs at hand. */
  predicate DeflattenInvertsFlatten(codec: PublicInputCodec, abi: Abi, publicInputs: PublicInputs) {
    codec.deflatten(codec.flattenAsArray(publicInputs), abi) == publicInputs
  }

  datatype ProofData = ProofData(proof: seq<byte>, publicInputs: PublicInputs)

  /** The proof data `generateProof` builds from the engine's blob. */
  function ProofDataFromBlob(codec: PublicInputCodec, abi: Abi, proofWithPublicInputs: seq<byte>): (d: ProofData)
    ensures |proofWithPublicInputs| >= NumBytesInProofWithoutPublicInputs ==>
              |d.proof| == NumBytesInProofWithoutPublicInputs &&
              d.proof == proofWithPublicInputs[|proofWithPublicInputs| - NumBytesInProofWithoutPublicInputs..] &&
              d.publicInputs == codec.deflatten(
                proofWithPublicInputs[..|proofWithPublicInputs| - NumBytesInProofWithoutPublicInputs], abi)
  {
    var parts := SplitProofWithPublicInputs(proofWithPublicInputs);
    ProofData(parts.proof, codec.deflatten(parts.publicInputsConcatenated, abi))
  }

  /** `reconstructProofWithPublicInputs`: the flattened public inputs come first, then
      the proof, and nothing else. */
  function ReconstructProofWithPublicInputs(codec: PublicInputCodec, proofData: ProofData): (blob: seq<byte>)
    ensures var flat := codec.flattenAsArray(proofData.publicInputs);
            |blob| == |flat| + |proofData.proof| &&
            blob[..|flat|] == flat && blob[|flat|..] == proofData.proof
  {
    codec.flattenAsArray(proofData.publicInputs) + proofData.proof
  }

  /** `slice` with indices already inside the bounds is ordinary subsequence. */
  lemma SliceWithinBounds(a: seq<byte>, start: int, end: int)
    requires 0 <= start <= end <= |a|
    ensures Slice(a, start, end) == a[start..end]
  {
  }

  /** Splitting a reconstructed blob whose proof has the fixed length gives back the
      flattened public inputs and the proof, byte for byte. */
  lemma SplitAfterReconstruct(codec: PublicInputCodec, proofData: ProofData)
    requires |proofData.proof| == NumBytesInProofWithoutPublicInputs
    ensures SplitProofWithPublicInputs(ReconstructProofWithPublicInputs(codec, proofData)) ==
            SplitBlob(codec.flattenAsArray(proofData.publicInputs), proofData.proof)
  {
    var blob := ReconstructProofWithPublicInputs(codec, proofData);
    var flat := codec.flattenAsArray(proofData.publicInputs);
    assert |blob| - NumBytesInProofWithoutPublicInputs == |flat|;
  }

  /** Verifying or exporting a proof reconstructs exactly the blob it was split from,
      given the round-trip law for the public inputs that were decoded. */
  lemma ProofDataRoundTrip(codec: PublicInputCodec, abi: Abi, proofData: ProofData)
    requires |proofData.proof| == NumBytesInProofWithoutPublicInputs
    requires DeflattenInvertsFlatten(codec, abi, proofData.publicInputs)
    ensures ProofDataFromBlob(codec, abi, ReconstructProofWithPublicInputs(codec, proofData)) == proofData
  {
    SplitAfterReconstruct(codec, proofData);
  }

  /** The other direction: reconstructing the proof data of an engine blob gives back
      the blob, when flattening undoes deflattening on its public-input prefix. */
  lemma ReconstructAfterProofDataFromBlob(codec: PublicInputCodec, abi: Abi, proofWithPublicInputs: seq<byte>)
    requires |proofWithPublicInputs| >= NumBytesInProofWithoutPublicInputs
    requires var prefix := proofWithPublicInputs[..|proofWithPublicInputs| - NumBytesInProofWithoutPublicInputs];
             codec.flattenAsArray(codec.deflatten(prefix, abi)) == prefix
    ensures ReconstructProofWithPublicInputs(codec, ProofDataFromBlob(codec, abi, proofWithPublicInputs)) ==
            proofWithPublicInputs
  {
    var parts := SplitProofWithPublicInputs(proofWithPublicInputs);
    assert parts.publicInputsConcatenated + parts.proof == proofWithPublicInputs;
  }

  /** A blob shorter than the proof length still splits without error, but into
      something that is not a proof; a length check would reject such a blob. */
  lemma ShortBlobSplitsIntoShortProof(proofWithPublicInputs: seq<byte>)
    requires |proofWithPublicInputs| < NumBytesInProofWithoutPublicInputs
    ensures var parts := SplitProofWithPublicInputs(proofWithPublicInputs);
            var n := |proofWithPublicInputs|;
            var cut := if 2 * n < NumBytesInProofWithoutPublicInputs then 0 else 2 * n - NumBytesInProofWithoutPublicInputs;
            parts.publicInputsConcatenated == proofWithPublicInputs[..cut] &&
            parts.proof == proofWithPublicInputs[cut..]
  {
  }
}
