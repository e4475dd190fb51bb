/**
  The standalone `BAAINode`: it reads its configuration from the environment, attaches a mock
  proof to an engagement record, seals record, proof and node metadata with Fernet under the
  configured key, and uploads the token to Lighthouse.
*/
module BaaiNode {
  import opened Wrappers
  import opened Python
  import opened Platform

  /** The `NodeConfig` dataclass. */
  datatype NodeConfig = NodeConfig(nodeId: string, lighthouseApiKey: string, storageEncryptionKey: string)

  /** The process environment after `load_dotenv()`. */
  type Environment = map<string, string>

  const REQUIRED_VARS: seq<string> := ["LIGHTHOUSE_API_KEY", "NODE_ID", "STORAGE_ENCRYPTION_KEY"]
  const MISSING_VARS_MESSAGE := "Missing required environment variables: "
  /** The message `Fernet(key)` raises `ValueError` with on a malformed key. */
  const INVALID_KEY_MESSAGE := "Fernet key must be 32 url-safe base64-encoded bytes."

  /** `os.getenv(name)` is truthy: the variable is set and not empty. */
  predicate IsSet(env: Environment, name: string) {
    name in env && env[name] != ""
  }

  /** `[var for var in names if not os.getenv(var)]`. */
  function MissingVars(env: Environment, names: seq<string>): (missing: seq<string>)
    ensures forall v :: v in missing <==> v in names && !IsSet(env, v)
    ensures |missing| <= |names|
  {
    if |names| == 0 then []
    else (if IsSet(env, names[0]) then [] else [names[0]]) + MissingVars(env, names[1..])
  }

  /** The missing variables come out in the order the required list gives them. */
  lemma MissingVarsInOrder(env: Environment)
    ensures MissingVars(env, REQUIRED_VARS)
         == (if IsSet(env, "LIGHTHOUSE_API_KEY") then [] else ["LIGHTHOUSE_API_KEY"])
          + (if IsSet(env, "NODE_ID") then [] else ["NODE_ID"])
          + (if IsSet(env, "STORAGE_ENCRYPTION_KEY") then [] else ["STORAGE_ENCRYPTION_KEY"])
  {
    var last := ["STORAGE_ENCRYPTION_KEY"];
    assert last[1..] == [];
    assert MissingVars(env, last) == (if IsSet(env, last[0]) then [] else last);
    assert REQUIRED_VARS[1..][1..] == last;
  }

  /** `_load_config`: it fails exactly when a required variable is unset or empty, and names all of those. */
  function LoadConfig(env: Environment): (r: Result<NodeConfig, Exception>)
    ensures r.Ok? <==> forall v :: v in REQUIRED_VARS ==> IsSet(env, v)
    ensures r.Ok? ==> && IsSet(env, "NODE_ID") && IsSet(env, "LIGHTHOUSE_API_KEY") && IsSet(env, "STORAGE_ENCRYPTION_KEY")
                      && r.value == NodeConfig(env["NODE_ID"], env["LIGHTHOUSE_API_KEY"], env["STORAGE_ENCRYPTION_KEY"])
    ensures r.Err? ==> && MissingVars(env, REQUIRED_VARS) != []
                       && r.error == ValueError(MISSING_VARS_MESSAGE + Join(", ", MissingVars(env, REQUIRED_VARS)))
  {
    var missing := MissingVars(env, REQUIRED_VARS);
    if |missing| > 0 then
      assert missing[0] in missing;
      Err(ValueError(MISSING_VARS_MESSAGE + Join(", ", missing)))
    else
      assert "NODE_ID" !in missing && "LIGHTHOUSE_API_KEY" !in missing && "STORAGE_ENCRYPTION_KEY" !in missing;
      Ok(NodeConfig(env["NODE_ID"], env["LIGHTHOUSE_API_KEY"], env["STORAGE_ENCRYPTION_KEY"]))
  }

  /** The `storage_package` that `_store_data` seals. */
  function NodeStoragePackage(data: Value, proof: Value, nodeId: string): (package: Value)
    ensures package.PyDict? && package.entries.Keys == {"engagement_data", "proof", "metadata"}
    ensures package.entries["engagement_data"] == data && package.entries["proof"] == proof
    ensures package.entries["metadata"]
         == PyDict(map["node_id" := PyStr(nodeId), "version" := PyStr("1.0"), "type" := PyStr("BAAI_ENGAGEMENT")])
  {
    PyDict(map[
      "engagement_data" := data,
      "proof" := proof,
      "metadata" := PyDict(map[
        "node_id" := PyStr(nodeId),
        "version" := PyStr("1.0"),
        "type" := PyStr("BAAI_ENGAGEMENT")])])
  }

  class BAAINode {
    const config: NodeConfig
    const lighthouse: Backend
    const host: Host

    constructor (config: NodeConfig, connect: string -> Backend, host: Host)
      ensures this.config == config && lighthouse == connect(config.lighthouseApiKey) && this.host == host
    {
      this.config := config;
      lighthouse := connect(config.lighthouseApiKey);
      this.host := host;
    }

    /**
      `BAAINode()`: load the configuration, connect to Lighthouse with its API key, and build the
      Fernet cipher from its key, which raises when the key is malformed.
    */
    static method Create(env: Environment, connect: string -> Backend, host: Host) returns (r: Result<BAAINode, Exception>)
      ensures LoadConfig(env).Err? ==> r == Err(LoadConfig(env).error)
      ensures LoadConfig(env).Ok? && !host.validKey(LoadConfig(env).value.storageEncryptionKey)
              ==> r == Err(ValueError(INVALID_KEY_MESSAGE))
      ensures r.Ok? <==> LoadConfig(env).Ok? && host.validKey(LoadConfig(env).value.storageEncryptionKey)
      ensures r.Ok? ==> && fresh(r.value) && r.value.config == LoadConfig(env).value && r.value.host == host
                        && r.value.lighthouse == connect(LoadConfig(env).value.lighthouseApiKey)
    {
      var config := LoadConfig(env);
      if config.Err? {
        return Err(config.error);
      }
      if !host.validKey(config.value.storageEncryptionKey) {
        return Err(ValueError(INVALID_KEY_MESSAGE));
      }
      var node := new BAAINode(config.value, connect, host);
      return Ok(node);
    }

    /**
      `_generate_proof`: a fixed mock proof whose public inputs are `data.get("engagement_type")`
      and `str(data.get("timestamp"))`. Absent keys read as `None`; only a non-dict record fails.
    */
    function GenerateProof(data: Value): (r: Option<Value>)
      ensures r.Some? <==> data.PyDict?
      ensures r.Some? ==> && r.value.PyDict? && r.value.entries.Keys == {"proof", "public_inputs", "verification_key"}
                          && r.value.entries["proof"] == PyStr("mock_proof")
                          && r.value.entries["verification_key"] == PyStr("mock_key")
                          && r.value.entries["public_inputs"]
                             == PyList([Get(data, "engagement_type").value, PyStr(ToStr(host.repr, Get(data, "timestamp").value))])
    {
      match Get(data, "engagement_type")
      case Err(_) => None    // `.get` on anything but a dict raises AttributeError
      case Ok(engagementType) =>
        var timestamp := Get(data, "timestamp").value;
        Some(PyDict(map[
          "proof" := PyStr("mock_proof"),
          "public_inputs" := PyList([engagementType, PyStr(ToStr(host.repr, timestamp))]),
          "verification_key" := PyStr("mock_key")]))
    }

    /** `_encrypt_data`: the token opens under the configured key to the JSON of `data`. */
    function EncryptData(data: Value, nonce: Nonce): (token: Bytes)
      ensures Authenticated(host) ==> host.decrypt(config.storageEncryptionKey, token) == Some(host.dumps(data))
      ensures Authenticated(host) && JsonRoundTrips(host)
              ==> host.loads(host.decrypt(config.storageEncryptionKey, token).value) == Some(data)
    {
      host.encrypt(config.storageEncryptionKey, nonce, host.dumps(data))
    }

    /** The response Lighthouse gives to the upload that `_store_data` makes. */
    function UploadResponse(data: Value, proof: Value, nonce: Nonce): Result<Value, Exception> {
      lighthouse.upload(EncryptData(NodeStoragePackage(data, proof, config.nodeId), nonce), true)
    }

    /**
      `_store_data`: it uploads the sealed package with `encryption=True` and returns
      `result["data"]["Hash"]`; it raises when the upload raises or the response lacks that hash.
    */
    function StoreData(data: Value, proof: Value, nonce: Nonce): (r: Result<Value, Exception>)
      ensures r.Ok? <==> && UploadResponse(data, proof, nonce).Ok?
                         && var result := UploadResponse(data, proof, nonce).value;
                            && result.PyDict? && "data" in result.entries
                            && result.entries["data"].PyDict? && "Hash" in result.entries["data"].entries
      ensures r.Ok? ==> r.value == UploadResponse(data, proof, nonce).value.entries["data"].entries["Hash"]
    {
      var package := NodeStoragePackage(data, proof, config.nodeId);
      var encrypted := EncryptData(package, nonce);
      var result :- lighthouse.upload(encrypted, true);
      UploadedHash(result)
    }

    /**
      `process_engagement`: the CID of the stored record, or None when the proof or the storage
      step raises. The mock proof is a non-empty dict, so `if not proof` never fires.
    */
    function ProcessEngagement(data: Value, nonce: Nonce): (r: Option<Value>)
      ensures r.Some? <==> data.PyDict? && StoreData(data, GenerateProof(data).value, nonce).Ok?
      ensures r.Some? ==> r.value == StoreData(data, GenerateProof(data).value, nonce).value
    {
      match GenerateProof(data)
      case None => None
      case Some(proof) => StoreData(data, proof, nonce).ToOption()
    }
  }

  /**
    What a successful `process_engagement` put on Lighthouse: the token uploaded under the
    returned CID opens, under the configured key, to the record, its proof and the node metadata.
  */
  lemma ProcessedRecordIsSealed(node: BAAINode, data: Value, nonce: Nonce, cid: Value)
    requires Authenticated(node.host) && JsonRoundTrips(node.host)
    requires node.ProcessEngagement(data, nonce) == Some(cid)
    ensures data.PyDict?
    ensures var package := NodeStoragePackage(data, node.GenerateProof(data).value, node.config.nodeId);
            var token := node.EncryptData(package, nonce);
            && node.lighthouse.upload(token, true).Ok?
            && UploadedHash(node.lighthouse.upload(token, true).value) == Ok(cid)
            && node.host.decrypt(node.config.storageEncryptionKey, token).Some?
            && node.host.loads(node.host.decrypt(node.config.storageEncryptionKey, token).value) == Some(package)
  {
  }

  /** The package opened from the token holds the record unchanged and the node's own id. */
  lemma SealedPackageContents(node: BAAINode, data: Value, proof: Value, nonce: Nonce)
    requires Authenticated(node.host) && JsonRoundTrips(node.host)
    ensures var token := node.EncryptData(NodeStoragePackage(data, proof, node.config.nodeId), nonce);
            var got := node.host.loads(node.host.decrypt(node.config.storageEncryptionKey, token).value);
            && got.Some? && got.value.PyDict?
            && got.value.entries["engagement_data"] == data && got.value.entries["proof"] == proof
            && got.value.entries["metadata"].PyDict?
            && got.value.entries["metadata"].entries["node_id"] == PyStr(node.config.nodeId)
  {
  }
}
