/**
  The mock zero-knowledge prover of the BAAI node (`ZKMLProver`): it pulls five fields out of
  an engagement record, commits to them with a SHA-256 hash, publishes the engagement type and
  the timestamp as public inputs and attaches fixed metadata.
*/
module ZkmlProver {
  import opened Wrappers
  import opened Python
  import opened Platform

  const MODEL_VERSION := "1.0"
  const CIRCUIT_TYPE := "engagement_verification"

  /** The `ProofInput` dataclass. Nothing checks the field types, so each is an arbitrary value. */
  datatype ProofInput = ProofInput(
    engagementType: Value,
    confidence: Value,
    duration: Value,
    intensity: Value,
    timestamp: Value)
  {
    /** The fields in the order the mock proof hashes them. */
    function Fields(): seq<Value> {
      [engagementType, confidence, duration, intensity, timestamp]
    }
  }

  /** The `ProofOutput` dataclass. */
  datatype ProofOutput = ProofOutput(
    proof: string,
    publicInputs: seq<Value>,
    verificationKey: string,
    metadata: map<string, Value>)

  /** The record carries every field `generate_proof` reads. */
  predicate HasProofFields(data: Value) {
    && data.PyDict?
    && "engagement_type" in data.entries && "metrics" in data.entries && "timestamp" in data.entries
    && data.entries["metrics"].PyDict?
    && "confidence" in data.entries["metrics"].entries
    && "duration" in data.entries["metrics"].entries
    && "intensity" in data.entries["metrics"].entries
  }

  function Metric(data: Value, name: string): Value
    requires HasProofFields(data) && name in {"confidence", "duration", "intensity"}
  {
    data.entries["metrics"].entries[name]
  }

  /** The proof input read straight off a record that has every field. */
  function InputOf(data: Value): ProofInput
    requires HasProofFields(data)
  {
    ProofInput(
      data.entries["engagement_type"],
      Metric(data, "confidence"),
      Metric(data, "duration"),
      Metric(data, "intensity"),
      data.entries["timestamp"])
  }

  /**
    `ProofInput(engagement_type=data["engagement_type"], confidence=data["metrics"]["confidence"], ...)`:
    it raises unless `data` is a dict with all five fields, `metrics` itself being a dict.
  */
  function ExtractInput(data: Value): (r: Result<ProofInput, Exception>)
    ensures r.Ok? <==> HasProofFields(data)
    ensures r.Ok? ==> r.value == InputOf(data)
  {
    var engagementType :- GetItem(data, "engagement_type");
    var metrics :- GetItem(data, "metrics");
    var confidence :- GetItem(metrics, "confidence");
    var duration :- GetItem(metrics, "duration");
    var intensity :- GetItem(metrics, "intensity");
    var timestamp :- GetItem(data, "timestamp");
    Ok(ProofInput(engagementType, confidence, duration, intensity, timestamp))
  }

  function Rendered(repr: Repr, vs: seq<Value>): (r: seq<string>)
    ensures |r| == |vs|
  {
    seq(|vs|, i requires 0 <= i < |vs| => ToStr(repr, vs[i]))
  }

  /**
    `f"{engagement_type}:{confidence}:{duration}:{intensity}:{timestamp}"`. It starts with the
    rendered engagement type, and when no field renders with a ':' it holds exactly the four
    separating ones.
  */
  function Preimage(repr: Repr, input: ProofInput): (r: string)
    ensures var head := ToStr(repr, input.engagementType);
            |head| <= |r| && r[..|head|] == head
    ensures ColonFreeFields(repr, input) ==> Occurrences(':', r) == 4
  {
    var parts := Rendered(repr, input.Fields());
    if ColonFreeFields(repr, input) then
      JoinOccurrences(':', parts);
      Join(":", parts)
    else
      Join(":", parts)
  }

  /** `_generate_mock_proof`. */
  function MockProof(host: Host, input: ProofInput): string {
    host.sha256Hex(Preimage(host.repr, input))
  }

  /**
    `_get_public_inputs`: two inputs, the engagement type as given and the text of the
    timestamp, from which an integer timestamp reads back.
  */
  function PublicInputs(repr: Repr, input: ProofInput): (r: seq<Value>)
    ensures |r| == 2 && r[0] == input.engagementType && r[1].PyStr?
    ensures input.timestamp.PyInt? ==> ParseInt(r[1].s) == Some(input.timestamp.i)
  {
    [input.engagementType, PyStr(ToStr(repr, input.timestamp))]
  }

  /** The metadata of `generate_proof`: exactly model version, circuit type and the input's timestamp. */
  function ProofMetadata(input: ProofInput): (r: map<string, Value>)
    ensures r.Keys == {"model_version", "circuit_type", "timestamp"}
    ensures r["model_version"] == PyStr("1.0") && r["circuit_type"] == PyStr("engagement_verification")
    ensures r["timestamp"] == input.timestamp
  {
    map["model_version" := PyStr(MODEL_VERSION),
        "circuit_type" := PyStr(CIRCUIT_TYPE),
        "timestamp" := input.timestamp]
  }

  /**
    `generate_proof`. `verificationKey` is what `_generate_verification_key` drew from
    `os.urandom`; any exception while reading the record yields None.
  */
  function GenerateProof(host: Host, data: Value, verificationKey: string): (r: Option<ProofOutput>)
    ensures r.Some? <==> HasProofFields(data)
    ensures r.Some? ==>
      && r.value.publicInputs == [data.entries["engagement_type"], PyStr(ToStr(host.repr, data.entries["timestamp"]))]
      && r.value.metadata == map["model_version" := PyStr("1.0"),
                                 "circuit_type" := PyStr("engagement_verification"),
                                 "timestamp" := data.entries["timestamp"]]
      && r.value.verificationKey == verificationKey
      && r.value.proof == host.sha256Hex(Join(":", Rendered(host.repr, InputOf(data).Fields())))
  {
    match ExtractInput(data)
    case Err(_) => None
    case Ok(input) =>
      Some(ProofOutput(MockProof(host, input), PublicInputs(host.repr, input), verificationKey, ProofMetadata(input)))
  }

  /** Records that agree on the five proof fields get the same proof, public inputs and metadata. */
  lemma ProofIsDeterministic(host: Host, d1: Value, d2: Value, verificationKey: string)
    requires HasProofFields(d1) && HasProofFields(d2)
    requires InputOf(d1) == InputOf(d2)
    ensures GenerateProof(host, d1, verificationKey) == GenerateProof(host, d2, verificationKey)
  {
    assert d1.entries["timestamp"] == InputOf(d1).timestamp;
    assert d2.entries["timestamp"] == InputOf(d2).timestamp;
  }

  /** Keys other than the three the prover reads (`user_id`, say) change nothing in the output. */
  lemma ExtraKeysIgnored(host: Host, data: Value, key: string, v: Value, verificationKey: string)
    requires data.PyDict?
    requires key !in {"engagement_type", "metrics", "timestamp"}
    ensures GenerateProof(host, PyDict(data.entries[key := v]), verificationKey)
         == GenerateProof(host, data, verificationKey)
  {
    var data' := PyDict(data.entries[key := v]);
    assert HasProofFields(data') <==> HasProofFields(data);
    if HasProofFields(data) {
      ProofIsDeterministic(host, data', data, verificationKey);
    }
  }

  /** The same holds for keys inside `metrics` other than the three metrics. */
  lemma ExtraMetricKeysIgnored(host: Host, data: Value, metrics: map<string, Value>, key: string, v: Value,
                               verificationKey: string)
    requires data.PyDict? && "metrics" in data.entries && data.entries["metrics"] == PyDict(metrics)
    requires key !in {"confidence", "duration", "intensity"}
    ensures GenerateProof(host, PyDict(data.entries["metrics" := PyDict(metrics[key := v])]), verificationKey)
         == GenerateProof(host, data, verificationKey)
  {
    var data' := PyDict(data.entries["metrics" := PyDict(metrics[key := v])]);
    assert HasProofFields(data') <==> HasProofFields(data);
    if HasProofFields(data) {
      ProofIsDeterministic(host, data', data, verificationKey);
    }
  }

  /** The second public input is `str` of the timestamp the metadata records. */
  lemma PublicTimestampMatchesMetadata(host: Host, data: Value, verificationKey: string)
    requires GenerateProof(host, data, verificationKey).Some?
    ensures var out := GenerateProof(host, data, verificationKey).value;
            |out.publicInputs| == 2 && "timestamp" in out.metadata
            && out.publicInputs[1] == PyStr(ToStr(host.repr, out.metadata["timestamp"]))
  {
  }

  /** An integer timestamp can be read back from the public inputs alone. */
  lemma TimestampRecoverable(host: Host, data: Value, verificationKey: string, t: int)
    requires HasProofFields(data) && data.entries["timestamp"] == PyInt(t)
    ensures var out := GenerateProof(host, data, verificationKey).value;
            |out.publicInputs| == 2 && out.publicInputs[1].PyStr?
            && ParseInt(out.publicInputs[1].s) == Some(t)
  {
  }

  /** No rendered field contains the ':' that separates the fields in the preimage. */
  predicate ColonFreeFields(repr: Repr, input: ProofInput) {
    forall i :: 0 <= i < 5 ==> ':' !in ToStr(repr, input.Fields()[i])
  }

  /** A record whose type is a string without ':' and whose metrics and timestamp are numbers is colon free. */
  lemma NumericRecordIsColonFree(repr: Repr, input: ProofInput)
    requires FloatReprColonFree(repr)
    requires input.engagementType.PyStr? && ':' !in input.engagementType.s
    requires input.confidence.PyFloat? || input.confidence.PyInt?
    requires input.duration.PyFloat? || input.duration.PyInt?
    requires input.intensity.PyFloat? || input.intensity.PyInt?
    requires input.timestamp.PyInt?
    ensures ColonFreeFields(repr, input)
  {
    forall i | 1 <= i < 5
      ensures ':' !in ToStr(repr, input.Fields()[i])
    {
      ScalarRenderingColonFree(repr, input.Fields()[i]);
    }
  }

  /**
    With a collision-free hash, two colon-free inputs that get the same mock proof render all
    five fields identically.
  */
  lemma MockProofBindsFields(host: Host, a: ProofInput, b: ProofInput)
    requires CollisionFree(host)
    requires ColonFreeFields(host.repr, a) && ColonFreeFields(host.repr, b)
    requires MockProof(host, a) == MockProof(host, b)
    ensures Rendered(host.repr, a.Fields()) == Rendered(host.repr, b.Fields())
  {
    var xs := Rendered(host.repr, a.Fields());
    var ys := Rendered(host.repr, b.Fields());
    assert Join([':'], xs) == Join([':'], ys);
    JoinInjective(':', xs, ys);
  }

  /**
    The proof commits to every field, the private metrics included: with a collision-free hash,
    two colon-free records with the same proof render all five fields identically.
  */
  lemma ProofBindsAllFields(host: Host, d1: Value, d2: Value, vk1: string, vk2: string)
    requires CollisionFree(host)
    requires HasProofFields(d1) && HasProofFields(d2)
    requires ColonFreeFields(host.repr, InputOf(d1)) && ColonFreeFields(host.repr, InputOf(d2))
    requires GenerateProof(host, d1, vk1).value.proof == GenerateProof(host, d2, vk2).value.proof
    ensures Rendered(host.repr, InputOf(d1).Fields()) == Rendered(host.repr, InputOf(d2).Fields())
    ensures ToStr(host.repr, Metric(d1, "confidence")) == ToStr(host.repr, Metric(d2, "confidence"))
    ensures ToStr(host.repr, Metric(d1, "duration")) == ToStr(host.repr, Metric(d2, "duration"))
    ensures ToStr(host.repr, Metric(d1, "intensity")) == ToStr(host.repr, Metric(d2, "intensity"))
  {
    MockProofBindsFields(host, InputOf(d1), InputOf(d2));
    var xs := Rendered(host.repr, InputOf(d1).Fields());
    var ys := Rendered(host.repr, InputOf(d2).Fields());
    assert xs[1] == ys[1] && xs[2] == ys[2] && xs[3] == ys[3];
  }
}
