/**
  `LighthouseManager`: seals an engagement record and its proof with Fernet under a key drawn
  once when the manager is built, uploads the token to Lighthouse, and reverses the process
  on retrieval.
*/
module LighthouseStorage {
  import opened Wrappers
  import opened Python
  import opened Platform

  /** The `storage_package` that `store_engagement_data` seals. */
  function StoragePackage(data: Value, proof: Value): (package: Value)
    ensures package.PyDict? && package.entries.Keys == {"engagement_data", "proof", "metadata"}
    ensures package.entries["engagement_data"] == data && package.entries["proof"] == proof
    ensures package.entries["metadata"]
         == PyDict(map["version" := PyStr("1.0"), "type" := PyStr("BAAI_ENGAGEMENT"), "encryption" := PyStr("fernet")])
  {
    PyDict(map[
      "engagement_data" := data,
      "proof" := proof,
      "metadata" := PyDict(map[
        "version" := PyStr("1.0"),
        "type" := PyStr("BAAI_ENGAGEMENT"),
        "encryption" := PyStr("fernet")])])
  }

  class LighthouseManager {
    const lighthouse: Backend
    const encryptionKey: Key
    const host: Host

    /** `generatedKey` is what `Fernet.generate_key()` returned; no member reassigns it. */
    constructor (apiKey: string, connect: string -> Backend, host: Host, generatedKey: Key)
      ensures lighthouse == connect(apiKey) && encryptionKey == generatedKey && this.host == host
    {
      lighthouse := connect(apiKey);
      encryptionKey := generatedKey;
      this.host := host;
    }

    /** `fernet.decrypt(token)` followed by `json.loads`, None if either raises. */
    function Open(token: Bytes): (r: Option<Value>)
      ensures r.Some? ==> host.decrypt(encryptionKey, token).Some?
    {
      match host.decrypt(encryptionKey, token)
      case None => None
      case Some(plain) => host.loads(plain)
    }

    /** `encrypt_data`: the token opens, under this manager's key, to `data` again. */
    function EncryptData(data: Value, nonce: Nonce): (token: Bytes)
      ensures Authenticated(host) && JsonRoundTrips(host) ==> Open(token) == Some(data)
    {
      host.encrypt(encryptionKey, nonce, host.dumps(data))
    }

    /** The response Lighthouse gives to the upload that `store_engagement_data` makes. */
    function UploadResponse(data: Value, proof: Value, nonce: Nonce): Result<Value, Exception> {
      lighthouse.upload(EncryptData(StoragePackage(data, proof), nonce), true)
    }

    /**
      `store_engagement_data`: it uploads the sealed package with `encryption=True` and returns
      `result["data"]["Hash"]`; it raises when the upload raises or the response lacks that hash.
    */
    function StoreEngagementData(data: Value, proof: Value, nonce: Nonce): (r: Result<Value, Exception>)
      ensures r.Ok? <==> && UploadResponse(data, proof, nonce).Ok?
                         && var result := UploadResponse(data, proof, nonce).value;
                            && result.PyDict? && "data" in result.entries
                            && result.entries["data"].PyDict? && "Hash" in result.entries["data"].entries
      ensures r.Ok? ==> r.value == UploadResponse(data, proof, nonce).value.entries["data"].entries["Hash"]
    {
      var package := StoragePackage(data, proof);
      var encrypted := EncryptData(package, nonce);
      var result :- lighthouse.upload(encrypted, true);
      UploadedHash(result)
    }

    /** `retrieve_data`: the decoded record, or None when the download, the decryption or the parse fails. */
    function RetrieveData(cid: string): (r: Option<Value>)
      ensures r.Some? <==> && lighthouse.download(cid).Ok?
                           && host.decrypt(encryptionKey, lighthouse.download(cid).value).Some?
                           && host.loads(host.decrypt(encryptionKey, lighthouse.download(cid).value).value).Some?
    {
      match lighthouse.download(cid)
      case Err(_) => None
      case Ok(response) => Open(response)
    }
  }

  /**
    Round trip: when Lighthouse serves back what it stored, retrieving the CID that a store
    returned yields the package that was stored.
  */
  lemma RetrieveAfterStore(m: LighthouseManager, data: Value, proof: Value, nonce: Nonce, cid: string)
    requires Authenticated(m.host) && JsonRoundTrips(m.host) && ServesUploads(m.lighthouse)
    requires m.StoreEngagementData(data, proof, nonce) == Ok(PyStr(cid))
    ensures m.RetrieveData(cid) == Some(StoragePackage(data, proof))
  {
    var token := m.EncryptData(StoragePackage(data, proof), nonce);
    var result := m.lighthouse.upload(token, true).value;
    assert UploadedHash(result) == Ok(PyStr(cid));
    assert m.lighthouse.download(cid) == Ok(token);
  }

  /** A token sealed by another manager (another key) is refused, not opened to different data. */
  lemma ForeignTokenRefused(m: LighthouseManager, other: LighthouseManager, data: Value, nonce: Nonce, cid: string)
    requires Authenticated(m.host) && other.host == m.host
    requires other.encryptionKey != m.encryptionKey
    requires m.lighthouse.download(cid) == Ok(other.EncryptData(data, nonce))
    ensures m.RetrieveData(cid) == None
  {
  }

  /** Fernet tokens cannot be forged: whatever opens under a key was sealed under that key. */
  ghost predicate Unforgeable(host: Host) {
    forall k, token, p :: host.decrypt(k, token) == Some(p) ==> exists n :: token == host.encrypt(k, n, p)
  }

  /** With unforgeable tokens, any record retrieval returns was sealed under this manager's key. */
  lemma RetrievedWasSealedHere(m: LighthouseManager, cid: string)
    requires Unforgeable(m.host)
    requires m.RetrieveData(cid).Some?
    ensures exists n, plain :: && m.lighthouse.download(cid) == Ok(m.host.encrypt(m.encryptionKey, n, plain))
                               && m.host.loads(plain) == m.RetrieveData(cid)
  {
    var token := m.lighthouse.download(cid).value;
    var plain := m.host.decrypt(m.encryptionKey, token).value;
    var n :| token == m.host.encrypt(m.encryptionKey, n, plain);
    assert m.lighthouse.download(cid) == Ok(m.host.encrypt(m.encryptionKey, n, plain));
  }
}
