/** The Barretenberg backend for Noir: a session that lazily connects to the proving
    engine, proves and verifies through it, and exports recursion artifacts.

    The engine and the decoding libraries are injected capabilities: total functions
    whose definitions are not part of this model. The session records, in order, every
    call it makes into the engine (`trace`), which is how the lifecycle properties are
    stated. */
module Backend {
  import opened ProofLayout

  datatype Option<T> = None | Some(value: T)

  datatype BackendOptions = BackendOptions(threads: nat)

  /** The options used when the caller gives none. */
  const DefaultOptions: BackendOptions := BackendOptions(1)

  datatype CompiledCircuit = CompiledCircuit(bytecode: string, abi: Abi)

  /** `acirGetCircuitSizes`: the exact gate count, the total size and the subgroup size. */
  datatype CircuitSizes = CircuitSizes(exact: nat, total: nat, subgroupSize: nat)

  /** A field element of the proof system. */
  type Fr = nat

  /** The engine's answers, as functions of what the session passes it. The engine
      is bound to the one circuit of its session, so its keys are not arguments. */
  datatype Engine = Engine(
    acirGetCircuitSizes: seq<byte> -> CircuitSizes,
    acirCreateProof: (seq<byte>, seq<byte>, bool) -> seq<byte>,
    acirSerializeProofIntoFields: (seq<byte>, nat) -> seq<Fr>,
    acirSerializeVerificationKeyIntoFields: (seq<Fr>, Fr),
    acirVerifyProof: (seq<byte>, bool) -> bool,
    frToString: Fr -> string)

  /** Decoding of the base64 bytecode, gzip decompression of witnesses, and the
      public-input flattening. */
  datatype Codecs = Codecs(
    acirToUint8Array: string -> seq<byte>,
    gunzip: seq<byte> -> seq<byte>,
    publicInputs: PublicInputCodec)

  /** Opaque handles, identified by what created them. */
  datatype Api = Api(threads: nat)
  datatype AcirComposer = AcirComposer(subgroupSize: nat)

  datatype EngineCall =
    | BarretenbergNew(threads: nat)
    | AcirGetCircuitSizes
    | CrsNew(numPoints: nat)
    | CommonInitSlabAllocator(subgroupSize: nat)
    | SrsInitSrs(numPoints: nat)
    | AcirNewAcirComposer(subgroupSize: nat)
    | AcirInitProvingKey
    | AcirCreateProof(decompressedWitness: seq<byte>, makeEasyToVerifyInCircuit: bool)
    | AcirSerializeProofIntoFields(proof: seq<byte>, numOfPublicInputs: nat)
    | AcirInitVerificationKey
    | AcirSerializeVerificationKeyIntoFields
    | AcirVerifyProof(proof: seq<byte>, makeEasyToVerifyInCircuit: bool)
    | ApiDestroy

  /** The calls that belong to setting the engine up. */
  predicate IsSetupCall(c: EngineCall) {
    c.BarretenbergNew? || c.AcirGetCircuitSizes? || c.CrsNew? || c.CommonInitSlabAllocator? ||
    c.SrsInitSrs? || c.AcirNewAcirComposer? || c.AcirInitProvingKey?
  }

  /** The calls a first `instantiate` makes, in order: the reference string holds one
      point more than the subgroup size, the allocator and the composer are sized to
      the subgroup, and the proving key comes last. */
  function InstantiationCalls(threads: nat, sizes: CircuitSizes): (calls: seq<EngineCall>)
    ensures |calls| == 7 && calls[6] == AcirInitProvingKey
    ensures forall i :: 0 <= i < |calls| ==> IsSetupCall(calls[i])
  {
    [BarretenbergNew(threads), AcirGetCircuitSizes, CrsNew(sizes.subgroupSize + 1),
     CommonInitSlabAllocator(sizes.subgroupSize), SrsInitSrs(sizes.subgroupSize + 1),
     AcirNewAcirComposer(sizes.subgroupSize), AcirInitProvingKey]
  }

  /** What the session holds: the engine handle once instantiated, the composer, and
      the engine calls made so far. */
  datatype Session = Session(api: Option<Api>, acirComposer: Option<AcirComposer>, trace: seq<EngineCall>)

  /** The session after `instantiate`. */
  function Instantiated(s: Session, threads: nat, sizes: CircuitSizes): (r: Session)
    ensures r.api.Some?
  {
    if s.api.None? then
      Session(Some(Api(threads)), Some(AcirComposer(sizes.subgroupSize)),
              s.trace + InstantiationCalls(threads, sizes))
    else s
  }

  /** The session after `destroy`. The handle is not cleared afterwards. */
  function Destroyed(s: Session): (r: Session)
    ensures r.api == s.api && r.acirComposer == s.acirComposer
  {
    if s.api.None? then s else s.(trace := s.trace + [ApiDestroy])
  }

  /** A session that was never instantiated has made no engine call; an instantiated
      one began with exactly the setup calls and made none of them again. */
  predicate WellFormed(s: Session, threads: nat, sizes: CircuitSizes) {
    if s.api.None? then s.acirComposer.None? && s.trace == []
    else
      s.api == Some(Api(threads)) && s.acirComposer == Some(AcirComposer(sizes.subgroupSize)) &&
      7 <= |s.trace| && s.trace[..7] == InstantiationCalls(threads, sizes) &&
      forall i :: 7 <= i < |s.trace| ==> !IsSetupCall(s.trace[i])
  }

  /** `instantiate` is idempotent: a second call changes nothing. */
  lemma InstantiateIdempotent(s: Session, threads: nat, sizes: CircuitSizes)
    ensures Instantiated(Instantiated(s, threads, sizes), threads, sizes) == Instantiated(s, threads, sizes)
  {
  }

  /** `instantiate` on a well-formed session gives a well-formed, instantiated one,
      and it adds engine calls only when none had been made. */
  lemma InstantiatedWellFormed(s: Session, threads: nat, sizes: CircuitSizes)
    requires WellFormed(s, threads, sizes)
    ensures var r := Instantiated(s, threads, sizes);
            WellFormed(r, threads, sizes) && r.api.Some? &&
            (s.api.None? ==> r.trace == InstantiationCalls(threads, sizes)) &&
            (s.api.Some? ==> r == s)
  {
    if s.api.None? {
      var r := Instantiated(s, threads, sizes);
      assert r.trace == InstantiationCalls(threads, sizes);
      assert r.trace[..7] == r.trace;
    }
  }

  /** Making non-setup calls on an instantiated session keeps it well-formed. */
  lemma {:induction false} CallsKeepWellFormed(s: Session, threads: nat, sizes: CircuitSizes, calls: seq<EngineCall>)
    requires WellFormed(s, threads, sizes) && s.api.Some?
    requires forall i :: 0 <= i < |calls| ==> !IsSetupCall(calls[i])
    ensures WellFormed(s.(trace := s.trace + calls), threads, sizes)
  {
    var t := s.trace + calls;
    assert t[..7] == s.trace[..7];
    forall i | 7 <= i < |t| ensures !IsSetupCall(t[i]) {
      if i < |s.trace| {
        assert t[i] == s.trace[i];
      } else {
        assert t[i] == calls[i - |s.trace|];
      }
    }
  }

  /** Every engine call other than setup comes after the proving key was initialised,
      and so after the one complete instantiation. */
  lemma {:induction false} EngineUseFollowsInstantiation(s: Session, threads: nat, sizes: CircuitSizes, i: nat)
    requires WellFormed(s, threads, sizes)
    requires i < |s.trace| && !IsSetupCall(s.trace[i])
    ensures s.api.Some? && 7 <= i
    ensures s.trace[..7] == InstantiationCalls(threads, sizes) && s.trace[6] == AcirInitProvingKey
  {
    assert forall k :: 0 <= k < 7 ==> s.trace[k] == s.trace[..7][k];
  }

  /** `destroy` on a never-instantiated session makes no engine call; otherwise it
      makes exactly one, and the session stays well-formed either way. */
  lemma DestroyedWellFormed(s: Session, threads: nat, sizes: CircuitSizes)
    requires WellFormed(s, threads, sizes)
    ensures WellFormed(Destroyed(s), threads, sizes)
    ensures s.api.None? ==> Destroyed(s) == s
    ensures s.api.Some? ==> Destroyed(s).trace == s.trace + [ApiDestroy]
  {
    if s.api.Some? {
      CallsKeepWellFormed(s, threads, sizes, [ApiDestroy]);
    }
  }

  /** How many of the calls in `t` set the engine up. */
  function CountSetupCalls(t: seq<EngineCall>): (n: nat)
    ensures n <= |t|
  {
    if t == [] then 0 else (if IsSetupCall(t[0]) then 1 else 0) + CountSetupCalls(t[1..])
  }

  lemma {:induction false} CountSetupCallsAppend(a: seq<EngineCall>, b: seq<EngineCall>)
    ensures CountSetupCalls(a + b) == CountSetupCalls(a) + CountSetupCalls(b)
  {
    if a != [] {
      assert (a + b)[1..] == a[1..] + b;
      CountSetupCallsAppend(a[1..], b);
    } else {
      assert a + b == b;
    }
  }

  lemma {:induction false} CountSetupCallsAll(t: seq<EngineCall>)
    requires forall i :: 0 <= i < |t| ==> IsSetupCall(t[i])
    ensures CountSetupCalls(t) == |t|
  {
    if t != [] {
      CountSetupCallsAll(t[1..]);
    }
  }

  lemma {:induction false} CountSetupCallsNone(t: seq<EngineCall>)
    requires forall i :: 0 <= i < |t| ==> !IsSetupCall(t[i])
    ensures CountSetupCalls(t) == 0
  {
    if t != [] {
      CountSetupCallsNone(t[1..]);
    }
  }

  /** The engine is set up at most once per session: a well-formed session has made
      the seven setup calls exactly once if instantiated, and none otherwise. */
  lemma SetupHappensAtMostOnce(s: Session, threads: nat, sizes: CircuitSizes)
    requires WellFormed(s, threads, sizes)
    ensures CountSetupCalls(s.trace) == if s.api.Some? then |InstantiationCalls(threads, sizes)| else 0
  {
    if s.api.Some? {
      var t := s.trace;
      assert t == t[..7] + t[7..];
      CountSetupCallsAppend(t[..7], t[7..]);
      CountSetupCallsAll(t[..7]);
      forall i | 0 <= i < |t[7..]| ensures !IsSetupCall(t[7..][i]) {
        assert t[7..][i] == t[i + 7];
      }
      CountSetupCallsNone(t[7..]);
    }
  }

  /** The artifacts handed to a circuit that verifies a proof recursively. */
  datatype Artifacts = Artifacts(proofAsFields: seq<string>, vkAsFields: seq<string>, vkHash: string)

  /** `fields.map((p) => p.toString())`. */
  function FieldsToStrings(engine: Engine, fields: seq<Fr>): seq<string>
  {
    seq(|fields|, i requires 0 <= i < |fields| => engine.frToString(fields[i]))
  }

  class BarretenbergBackend {
    const acirCircuit: CompiledCircuit
    const options: BackendOptions
    const engine: Engine
    const codecs: Codecs
    const acirUncompressedBytecode: seq<byte>

    var api: Option<Api>
    var acirComposer: Option<AcirComposer>
    ghost var trace: seq<EngineCall>

    ghost function State(): Session
      reads this
    {
      Session(api, acirComposer, trace)
    }

    /** The sizes the engine reports for this circuit. */
    function Sizes(): CircuitSizes {
      engine.acirGetCircuitSizes(acirUncompressedBytecode)
    }

    ghost predicate Valid()
      reads this
    {
      WellFormed(State(), options.threads, Sizes())
    }

    /** Decodes the bytecode once; makes no engine call. */
    constructor (acirCircuit: CompiledCircuit, options: BackendOptions, engine: Engine, codecs: Codecs)
      ensures Valid()
      ensures this.acirCircuit == acirCircuit && this.options == options
      ensures this.engine == engine && this.codecs == codecs
      ensures acirUncompressedBytecode == codecs.acirToUint8Array(acirCircuit.bytecode)
      ensures api.None? && acirComposer.None? && trace == []
    {
      this.acirCircuit := acirCircuit;
      this.options := options;
      this.engine := engine;
      this.codecs := codecs;
      this.acirUncompressedBytecode := codecs.acirToUint8Array(acirCircuit.bytecode);
      api, acirComposer, trace := None, None, [];
    }

    /** The constructor called without options, which default to one thread. */
    constructor WithDefaultOptions(acirCircuit: CompiledCircuit, engine: Engine, codecs: Codecs)
      ensures Valid()
      ensures this.acirCircuit == acirCircuit && this.options == DefaultOptions && options.threads == 1
      ensures this.engine == engine && this.codecs == codecs
      ensures acirUncompressedBytecode == codecs.acirToUint8Array(acirCircuit.bytecode)
      ensures api.None? && acirComposer.None? && trace == []
    {
      this.acirCircuit := acirCircuit;
      this.options := DefaultOptions;
      this.engine := engine;
      this.codecs := codecs;
      this.acirUncompressedBytecode := codecs.acirToUint8Array(acirCircuit.bytecode);
      api, acirComposer, trace := None, None, [];
    }

    /** Sets the engine up on the first call only; later calls change nothing. */
    method Instantiate()
      requires Valid()
      modifies this
      ensures Valid() && api.Some?
      ensures State() == Instantiated(old(State()), options.threads, Sizes())
      ensures old(api).Some? ==> State() == old(State())
    {
      if api.None? {
        var newApi := Api(options.threads);
        trace := trace + [BarretenbergNew(options.threads)];
        var sizes := engine.acirGetCircuitSizes(acirUncompressedBytecode);
        trace := trace + [AcirGetCircuitSizes];
        var subgroupSize := sizes.subgroupSize;
        var crsNumPoints := subgroupSize + 1;
        trace := trace + [CrsNew(crsNumPoints)];
        trace := trace + [CommonInitSlabAllocator(subgroupSize)];
        trace := trace + [SrsInitSrs(crsNumPoints)];
        acirComposer := Some(AcirComposer(subgroupSize));
        trace := trace + [AcirNewAcirComposer(subgroupSize)];
        trace := trace + [AcirInitProvingKey];
        api := Some(newApi);
      }
      InstantiatedWellFormed(old(State()), options.threads, Sizes());
    }

    /** A final proof: the standard proof representation. */
    method GenerateFinalProof(decompressedWitness: seq<byte>) returns (proofData: ProofData)
      requires Valid()
      modifies this
      ensures Valid() && api.Some?
      ensures trace == Instantiated(old(State()), options.threads, Sizes()).trace +
                       [AcirCreateProof(codecs.gunzip(decompressedWitness), false)]
      ensures proofData == ProofDataFromBlob(codecs.publicInputs, acirCircuit.abi,
                 engine.acirCreateProof(acirUncompressedBytecode, codecs.gunzip(decompressedWitness), false))
    {
      var makeEasyToVerifyInCircuit := false;
      proofData := GenerateProof(decompressedWitness, makeEasyToVerifyInCircuit);
    }

    /** An intermediate proof: the representation that is cheap to verify in a circuit. */
    method GenerateIntermediateProof(compressedWitness: seq<byte>) returns (proofData: ProofData)
      requires Valid()
      modifies this
      ensures Valid() && api.Some?
      ensures trace == Instantiated(old(State()), options.threads, Sizes()).trace +
                       [AcirCreateProof(codecs.gunzip(compressedWitness), true)]
      ensures proofData == ProofDataFromBlob(codecs.publicInputs, acirCircuit.abi,
                 engine.acirCreateProof(acirUncompressedBytecode, codecs.gunzip(compressedWitness), true))
    {
      var makeEasyToVerifyInCircuit := true;
      proofData := GenerateProof(compressedWitness, makeEasyToVerifyInCircuit);
    }

    /** Instantiates, asks the engine for a proof with public inputs of the decompressed
        witness, and splits the answer. */
    method GenerateProof(compressedWitness: seq<byte>, makeEasyToVerifyInCircuit: bool) returns (proofData: ProofData)
      requires Valid()
      modifies this
      ensures Valid() && api.Some?
      ensures trace == Instantiated(old(State()), options.threads, Sizes()).trace +
                       [AcirCreateProof(codecs.gunzip(compressedWitness), makeEasyToVerifyInCircuit)]
      ensures acirComposer == Instantiated(old(State()), options.threads, Sizes()).acirComposer
      ensures proofData == ProofDataFromBlob(codecs.publicInputs, acirCircuit.abi,
                 engine.acirCreateProof(acirUncompressedBytecode, codecs.gunzip(compressedWitness), makeEasyToVerifyInCircuit))
      ensures var blob := engine.acirCreateProof(acirUncompressedBytecode, codecs.gunzip(compressedWitness), makeEasyToVerifyInCircuit);
              |blob| >= NumBytesInProofWithoutPublicInputs ==> |proofData.proof| == NumBytesInProofWithoutPublicInputs
    {
      Instantiate();
      var decompressed := codecs.gunzip(compressedWitness);
      var proofWithPublicInputs := engine.acirCreateProof(acirUncompressedBytecode, decompressed, makeEasyToVerifyInCircuit);
      CallsKeepWellFormed(State(), options.threads, Sizes(), [AcirCreateProof(decompressed, makeEasyToVerifyInCircuit)]);
      trace := trace + [AcirCreateProof(decompressed, makeEasyToVerifyInCircuit)];

      var splitIndex := |proofWithPublicInputs| - NumBytesInProofWithoutPublicInputs;
      var publicInputsConcatenated := Slice(proofWithPublicInputs, 0, splitIndex);
      var proof := SliceFrom(proofWithPublicInputs, splitIndex);
      var publicInputs := codecs.publicInputs.deflatten(publicInputsConcatenated, acirCircuit.abi);
      proofData := ProofData(proof, publicInputs);
    }

    /** Reassembles the blob, serialises the proof into fields, initialises the
        verification key and serialises it with its hash. */
    method GenerateIntermediateProofArtifacts(proofData: ProofData, numOfPublicInputs: nat) returns (artifacts: Artifacts)
      requires Valid()
      modifies this
      ensures Valid() && api.Some?
      ensures var proof := ReconstructProofWithPublicInputs(codecs.publicInputs, proofData);
              trace == Instantiated(old(State()), options.threads, Sizes()).trace +
                       [AcirSerializeProofIntoFields(proof, numOfPublicInputs), AcirInitVerificationKey,
                        AcirSerializeVerificationKeyIntoFields] &&
              artifacts.proofAsFields == FieldsToStrings(engine, engine.acirSerializeProofIntoFields(proof, numOfPublicInputs))
      ensures artifacts.vkAsFields == FieldsToStrings(engine, engine.acirSerializeVerificationKeyIntoFields.0)
      ensures artifacts.vkHash == engine.frToString(engine.acirSerializeVerificationKeyIntoFields.1)
    {
      Instantiate();
      var proof := ReconstructProofWithPublicInputs(codecs.publicInputs, proofData);
      var proofAsFields := engine.acirSerializeProofIntoFields(proof, numOfPublicInputs);
      var calls := [AcirSerializeProofIntoFields(proof, numOfPublicInputs), AcirInitVerificationKey,
                    AcirSerializeVerificationKeyIntoFields];
      CallsKeepWellFormed(State(), options.threads, Sizes(), calls);
      trace := trace + calls;
      var vk := engine.acirSerializeVerificationKeyIntoFields;
      artifacts := Artifacts(FieldsToStrings(engine, proofAsFields), FieldsToStrings(engine, vk.0), engine.frToString(vk.1));
    }

    /** Verifies a final proof: the standard representation. */
    method VerifyFinalProof(proofData: ProofData) returns (verified: bool)
      requires Valid()
      modifies this
      ensures Valid() && api.Some?
      ensures var proof := ReconstructProofWithPublicInputs(codecs.publicInputs, proofData);
              trace == Instantiated(old(State()), options.threads, Sizes()).trace +
                       [AcirInitVerificationKey, AcirVerifyProof(proof, false)] &&
              verified == engine.acirVerifyProof(proof, false)
    {
      var proof := ReconstructProofWithPublicInputs(codecs.publicInputs, proofData);
      var makeEasyToVerifyInCircuit := false;
      verified := VerifyProof(proof, makeEasyToVerifyInCircuit);
    }

    /** Verifies an intermediate proof: the representation cheap to verify in a circuit. */
    method VerifyIntermediateProof(proofData: ProofData) returns (verified: bool)
      requires Valid()
      modifies this
      ensures Valid() && api.Some?
      ensures var proof := ReconstructProofWithPublicInputs(codecs.publicInputs, proofData);
              trace == Instantiated(old(State()), options.threads, Sizes()).trace +
                       [AcirInitVerificationKey, AcirVerifyProof(proof, true)] &&
              verified == engine.acirVerifyProof(proof, true)
    {
      var proof := ReconstructProofWithPublicInputs(codecs.publicInputs, proofData);
      var makeEasyToVerifyInCircuit := true;
      verified := VerifyProof(proof, makeEasyToVerifyInCircuit);
    }

    /** Instantiates, initialises the verification key and returns the engine's verdict. */
    method VerifyProof(proof: seq<byte>, makeEasyToVerifyInCircuit: bool) returns (verified: bool)
      requires Valid()
      modifies this
      ensures Valid() && api.Some?
      ensures trace == Instantiated(old(State()), options.threads, Sizes()).trace +
                       [AcirInitVerificationKey, AcirVerifyProof(proof, makeEasyToVerifyInCircuit)]
      ensures acirComposer == Instantiated(old(State()), options.threads, Sizes()).acirComposer
      ensures verified == engine.acirVerifyProof(proof, makeEasyToVerifyInCircuit)
    {
      Instantiate();
      var calls := [AcirInitVerificationKey, AcirVerifyProof(proof, makeEasyToVerifyInCircuit)];
      CallsKeepWellFormed(State(), options.threads, Sizes(), calls);
      trace := trace + calls;
      verified := engine.acirVerifyProof(proof, makeEasyToVerifyInCircuit);
    }

    /** Releases the engine if it was ever set up; otherwise does nothing. */
    method Destroy()
      requires Valid()
      modifies this
      ensures Valid()
      ensures State() == Destroyed(old(State()))
      ensures old(api).None? ==> State() == old(State())
    {
      DestroyedWellFormed(State(), options.threads, Sizes());
      if api.None? {
        return;
      }
      trace := trace + [ApiDestroy];
    }
  }
}
