/**
  `BAAINodeService`: the packaged node, which proves an engagement record with `ZKMLProver` and
  then stores record and proof through a `LighthouseManager`. Proof generation comes first; any
  failure of either step turns into None.
*/
module NodeService {
  import opened Wrappers
  import opened Python
  import opened Platform
  import opened ZkmlProver
  import opened LighthouseStorage
  import opened BaaiNode

  /** The prover's `ProofOutput` as the dict of its four fields, the form the store serialises. */
  function ProofValue(p: ProofOutput): (v: Value)
    ensures v.PyDict? && v.entries.Keys == {"proof", "public_inputs", "verification_key", "metadata"}
    ensures v.entries["proof"] == PyStr(p.proof) && v.entries["public_inputs"] == PyList(p.publicInputs)
    ensures v.entries["verification_key"] == PyStr(p.verificationKey) && v.entries["metadata"] == PyDict(p.metadata)
  {
    PyDict(map[
      "proof" := PyStr(p.proof),
      "public_inputs" := PyList(p.publicInputs),
      "verification_key" := PyStr(p.verificationKey),
      "metadata" := PyDict(p.metadata)])
  }

  /** No two prover outputs become the same dict, so the stored proof determines the prover output. */
  lemma ProofValueInjective(p: ProofOutput, q: ProofOutput)
    requires ProofValue(p) == ProofValue(q)
    ensures p == q
  {
    assert PyStr(p.proof) == ProofValue(p).entries["proof"];
    assert PyStr(p.verificationKey) == ProofValue(p).entries["verification_key"];
    assert PyList(p.publicInputs) == ProofValue(p).entries["public_inputs"];
    assert PyDict(p.metadata) == ProofValue(p).entries["metadata"];
  }

  class BAAINodeService {
    const config: NodeConfig
    const lighthouse: LighthouseManager
    const host: Host

    /** The storage manager connects with the configured API key and seals under the configured key. */
    constructor (config: NodeConfig, connect: string -> Backend, host: Host)
      ensures this.config == config && this.host == host && fresh(lighthouse)
      ensures && lighthouse.lighthouse == connect(config.lighthouseApiKey)
              && lighthouse.encryptionKey == config.storageEncryptionKey
              && lighthouse.host == host
    {
      this.config := config;
      this.host := host;
      lighthouse := new LighthouseManager(config.lighthouseApiKey, connect, host, config.storageEncryptionKey);
    }

    /**
      `process_engagement`. `verificationKey` is the key the prover draws for this call. When the
      prover yields nothing the store is not reached, so the result is None whatever the backend does.
    */
    function ProcessEngagement(data: Value, verificationKey: string, nonce: Nonce): (r: Option<Value>)
      ensures !HasProofFields(data) ==> r == None
      ensures r.Some? <==>
                && HasProofFields(data)
                && lighthouse.StoreEngagementData(data, ProofValue(GenerateProof(host, data, verificationKey).value), nonce).Ok?
      ensures r.Some? ==>
                r.value == lighthouse.StoreEngagementData(data, ProofValue(GenerateProof(host, data, verificationKey).value), nonce).value
    {
      match GenerateProof(host, data, verificationKey)
      case None => None
      case Some(proof) => lighthouse.StoreEngagementData(data, ProofValue(proof), nonce).ToOption()
    }
  }

  /**
    End to end: when Lighthouse serves back what it stored, the CID that `process_engagement`
    returned retrieves the caller's record unchanged together with the prover's output.
  */
  lemma ProcessedRecordRetrievable(s: BAAINodeService, data: Value, verificationKey: string, nonce: Nonce, cid: string)
    requires Authenticated(s.lighthouse.host) && JsonRoundTrips(s.lighthouse.host) && ServesUploads(s.lighthouse.lighthouse)
    requires s.ProcessEngagement(data, verificationKey, nonce) == Some(PyStr(cid))
    ensures HasProofFields(data)
    ensures var got := s.lighthouse.RetrieveData(cid);
            && got.Some? && got.value.PyDict?
            && got.value.entries["engagement_data"] == data
            && got.value.entries["proof"] == ProofValue(GenerateProof(s.host, data, verificationKey).value)
  {
    var proof := ProofValue(GenerateProof(s.host, data, verificationKey).value);
    RetrieveAfterStore(s.lighthouse, data, proof, nonce, cid);
  }

  /** The stored proof publishes the record's type and timestamp and commits to its private metrics. */
  lemma StoredProofCommitsToRecord(s: BAAINodeService, data: Value, verificationKey: string, nonce: Nonce, cid: Value)
    requires s.ProcessEngagement(data, verificationKey, nonce) == Some(cid)
    ensures HasProofFields(data)
    ensures var stored := ProofValue(GenerateProof(s.host, data, verificationKey).value);
            && stored.entries["public_inputs"]
               == PyList([data.entries["engagement_type"], PyStr(ToStr(s.host.repr, data.entries["timestamp"]))])
            && stored.entries["proof"] == PyStr(s.host.sha256Hex(Preimage(s.host.repr, InputOf(data))))
  {
  }
}
