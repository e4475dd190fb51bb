/**
  The libraries and services the BAAI node calls but whose internals are not modelled:
  hashlib's SHA-256, Python's float/container `repr`, the `json` module, Fernet from
  `cryptography`, and the Lighthouse storage client. Each is a function-typed field; what
  the node relies on them for is stated as a law (a ghost predicate) that lemmas assume.
*/
module Platform {
  import opened Wrappers
  import opened Python

  /** A Fernet key (the url-safe base64 text of 32 random bytes). */
  type Key = string

  /** The fresh randomness of one Fernet encryption: its timestamp and 128-bit IV. */
  datatype Nonce = Nonce(time: int, iv: Bytes)

  datatype Host = Host(
    repr: Repr,                               // str() of floats, lists and dicts
    sha256Hex: string -> string,              // hashlib.sha256(s.encode()).hexdigest()
    dumps: Value -> Bytes,                    // json.dumps(v).encode()
    loads: Bytes -> Option<Value>,            // json.loads(b), None on JSONDecodeError
    encrypt: (Key, Nonce, Bytes) -> Bytes,    // Fernet(key).encrypt(b)
    decrypt: (Key, Bytes) -> Option<Bytes>,   // Fernet(key).decrypt(token), None on InvalidToken
    validKey: Key -> bool)                    // Fernet(key) accepts the key: 32 url-safe base64 bytes

  /** `json.loads(json.dumps(v)) == v` for every JSON value. */
  ghost predicate JsonRoundTrips(host: Host) {
    forall v :: host.loads(host.dumps(v)) == Some(v)
  }

  /**
    Fernet is authenticated encryption: a token opens under the key that sealed it, to the
    sealed bytes, and under any other key it is rejected rather than opened to other bytes.
  */
  ghost predicate Authenticated(host: Host) {
    && (forall k, n, p :: host.decrypt(k, host.encrypt(k, n, p)) == Some(p))
    && (forall k, k', n, p :: k != k' ==> host.decrypt(k', host.encrypt(k, n, p)) == None)
  }

  /** SHA-256 idealised as collision free. */
  ghost predicate CollisionFree(host: Host) {
    forall x, y :: host.sha256Hex(x) == host.sha256Hex(y) ==> x == y
  }

  /** The Lighthouse client: `upload(source, encryption)` and `download(cid)`, each of which may raise. */
  datatype Backend = Backend(
    upload: (Bytes, bool) -> Result<Value, Exception>,
    download: string -> Result<Bytes, Exception>)

  /** Lighthouse serves what it stored: the hash an upload reports downloads the uploaded bytes. */
  ghost predicate ServesUploads(backend: Backend) {
    forall source, encryption, result ::
      && backend.upload(source, encryption) == Ok(result)
      && UploadedHash(result).Ok? && UploadedHash(result).value.PyStr?
      ==> backend.download(UploadedHash(result).value.s) == Ok(source)
  }

  const UPLOAD_FAILED := "Failed to upload to Lighthouse"

  /**
    `if 'data' in result and 'Hash' in result['data']: return result['data']['Hash']`,
    otherwise `raise Exception("Failed to upload to Lighthouse")`, with Python's `in` and `[]`.
  */
  function UploadedHash(result: Value): (r: Result<Value, Exception>)
    ensures r.Ok? <==> && result.PyDict? && "data" in result.entries
                       && result.entries["data"].PyDict? && "Hash" in result.entries["data"].entries
    ensures r.Ok? ==> r.value == result.entries["data"].entries["Hash"]
    ensures result.PyDict? && "data" !in result.entries ==> r == Err(Raised(UPLOAD_FAILED))
  {
    var hasData :- Contains(result, "data");
    if !hasData then Err(Raised(UPLOAD_FAILED))
    else
      var data :- GetItem(result, "data");
      var hasHash :- Contains(data, "Hash");
      if !hasHash then Err(Raised(UPLOAD_FAILED))
      else GetItem(data, "Hash")    // `result['data']` again: the same value as `data`
  }
}
