# BAAI engagement attestation and sealed storage, in Dafny

This project models the core of the BrainAlive BAAI system. It has two halves.

The Python node takes an engagement record (an engagement type, three metrics and a
timestamp). It attaches a proof to the record: a SHA-256 commitment from `ZKMLProver`, or the
fixed mock dict of the standalone `BAAINode`. It then serialises record, proof and metadata to
JSON, seals them with Fernet, uploads the token to Lighthouse and returns the CID. The
`LighthouseManager` also retrieves a CID and opens it again.

The two Solana programs are the other half. `baai_token` records the reward and licence mints,
mints one licence token per node and distributes rewards to verified nodes. `focii_verifier`
checks submitted data and the caller's licence before it mints reward tokens.

Files:

- `wrappers.dfy`: `Option`, `Result` and byte strings.
- `python.dfy`: the Python values the node passes around (JSON-shaped: None, bool, int, float
  bits, str, list, dict with string keys). Also the built-ins the node applies to them, with
  their exception cases: `in`, `[]`, `.get`, `str`, `str.join`. It holds the decimal and join
  lemmas the prover's properties rest on.
- `platform.dfy`: the libraries and services the node calls, as function-typed fields:
  - SHA-256, float and container `repr`, `json.dumps`/`json.loads` and Fernet, in `Host`;
  - the Lighthouse client, in `Backend`.

  What the node relies on them for is stated as a law (a ghost predicate):
  - the JSON round trip;
  - authenticated encryption;
  - a collision-free hash;
  - a backend that serves what it stored.

  Lemmas take these laws as preconditions.
- `zkml_prover.dfy`: `ZKMLProver.generate_proof` and its helpers.
- `lighthouse_storage.dfy`: `LighthouseManager`, a class whose key is fixed when it is built.
- `baai_node.dfy`: `BAAINode`, including `_load_config`.
- `node_service.dfy`: `BAAINodeService.process_engagement`, prove then store.
- `solana.dfy`: u64, public keys, mint and token accounts, and SPL `mint_to`.
- `baai_token.dfy`, `focii_verifier.dfy`: the two Anchor programs. Accounts are classes. Each
  instruction is a method proved against a pure specification function, and the lemmas are
  stated about those functions.

The model follows the code, which does none of the following:

- The code validates no record: no engagement-type enum, no metric ranges, no normalisation.
  `generate_proof` only requires the five fields to be present.
- No verification of a proof exists anywhere in the node.
- Every failure becomes `None`: a missing field, an upload error, a wrong key or a tampered
  token all look alike to the caller. The code has no typed errors, no stage tags and no
  retries.
- A retrieval under a wrong key returns `None`; it raises no decryption error.
- An upload response whose `Hash` is JSON null makes `process_engagement` return `None`, the
  same value as a failure. The model returns `Some(PyNone)` there, which stands for that `None`.

## Model

| member | source | states |
|---|---|---|
| Python.Contains | baai-node/src/lighthouse_storage.py:40 | `key in x` succeeds exactly on dicts, strings and lists; on a dict it is key membership |
| Python.GetItem | baai-node/src/zkml_prover.py:37-41 | `x[key]` succeeds exactly when `x` is a dict holding `key`, and yields the stored value |
| Python.Get | baai-node/baai_node.py:73-74 | `x.get(key)` succeeds exactly on dicts and yields the value or `None` |
| Python.IntToDecimal | baai-node/src/zkml_prover.py:72 | `int(str(i)) == i` for every integer `str` renders, so a decimal timestamp determines the timestamp (the 4300-digit limit is under Left out) |
| Python.ToStr | baai-node/src/zkml_prover.py:65 | `str(v)`, as the f-string renders each field: a string renders as itself, an integer as decimal text that `int()` reads back |
| Python.Join | baai-node/src/zkml_prover.py:65 | `sep.join(parts)`: empty for no parts, otherwise it starts with the first part; `JoinInjective` and `JoinOccurrences` state the rest |
| Python.JoinOccurrences | baai-node/src/zkml_prover.py:65 | a one-character separator that no part contains occurs exactly once between each two parts |
| Python.JoinInjective | baai-node/src/zkml_prover.py:65 | joining parts with a one-character separator that no part contains is injective |
| Python.ScalarRenderingColonFree | baai-node/src/zkml_prover.py:65 | `str` of None, a bool, an int or a float never contains ':' |
| Platform.UploadedHash | baai-node/src/lighthouse_storage.py:40-42 | succeeds exactly when the response is a dict whose `data` is a dict with `Hash`, yielding that hash; a dict without `data` raises "Failed to upload to Lighthouse" |
| ZkmlProver.ExtractInput | baai-node/src/zkml_prover.py:36-42 | building `ProofInput` succeeds exactly when the record has `engagement_type`, `timestamp` and a `metrics` dict with the three metrics, and takes exactly those values |
| ZkmlProver.Preimage | baai-node/src/zkml_prover.py:65 | the ':'-joined text starts with the rendered engagement type and, when no field renders with ':', holds exactly the four separating colons |
| ZkmlProver.MockProof | baai-node/src/zkml_prover.py:62-66 | SHA-256 of `Preimage`; that it binds the fields is `MockProofBindsFields`, that it is deterministic is `ProofIsDeterministic` |
| ZkmlProver.MockProofBindsFields | baai-node/src/zkml_prover.py:62-66 | with a collision-free hash, colon-free inputs with equal mock proofs render all five fields alike |
| ZkmlProver.PublicInputs | baai-node/src/zkml_prover.py:68-73 | exactly two inputs: the engagement type as given, and a string from which an integer timestamp parses back |
| ZkmlProver.ProofMetadata | baai-node/src/zkml_prover.py:52-56 | exactly the keys `model_version` = "1.0", `circuit_type` = "engagement_verification" and `timestamp` = the input's timestamp |
| ZkmlProver.GenerateProof | baai-node/src/zkml_prover.py:32-60 | Some exactly when all five fields are present, else None; public inputs are `[engagement_type, str(timestamp)]`; metadata is exactly model version "1.0", circuit type "engagement_verification" and the timestamp; the proof is SHA-256 of the ':'-joined five fields |
| ZkmlProver.ProofIsDeterministic | baai-node/src/zkml_prover.py:62-66 | records that agree on the five fields get equal proofs, public inputs and metadata |
| ZkmlProver.ExtraKeysIgnored | baai-node/src/zkml_prover.py:36-42 | adding or changing a top-level key other than the three read (e.g. `user_id`) changes nothing in the output |
| ZkmlProver.ExtraMetricKeysIgnored | baai-node/src/zkml_prover.py:38-40 | the same for keys inside `metrics` other than the three metrics |
| ZkmlProver.PublicTimestampMatchesMetadata | baai-node/src/zkml_prover.py:50-55 | the output has two public inputs, and the second is `str` of `metadata["timestamp"]` |
| ZkmlProver.TimestampRecoverable | baai-node/src/zkml_prover.py:68-73 | an integer timestamp parses back from the second public input |
| ZkmlProver.NumericRecordIsColonFree | baai-node/src/zkml_prover.py:12-18 | a record with the declared field types (':'-free type string, numeric metrics, integer timestamp) renders every field without ':' |
| ZkmlProver.ProofBindsAllFields | baai-node/src/zkml_prover.py:62-66 | with a collision-free hash, two ':'-free records with equal proofs render all five fields alike, including the private metrics |
| LighthouseStorage.StoragePackage | baai-node/src/lighthouse_storage.py:21-29 | the package has exactly the keys `engagement_data` (the data unchanged), `proof` (unchanged) and `metadata` = {version "1.0", type "BAAI_ENGAGEMENT", encryption "fernet"} |
| LighthouseStorage.LighthouseManager.constructor | baai-node/src/lighthouse_storage.py:13-16 | connects with the API key and fixes the generated key; the key is a `const`, so every later call uses it |
| LighthouseStorage.LighthouseManager.Open | baai-node/src/lighthouse_storage.py:53-54 | a token opens only if Fernet accepts it under the manager's key |
| LighthouseStorage.LighthouseManager.EncryptData | baai-node/src/lighthouse_storage.py:44-47 | under the cipher and JSON laws, the token opens under the manager's key to the data again |
| LighthouseStorage.LighthouseManager.UploadResponse | baai-node/src/lighthouse_storage.py:35-38 | the `upload` call on the sealed package with `encryption=True`; `StoreEngagementData` states how its response is read, `RetrieveAfterStore` what the backend must serve back |
| LighthouseStorage.LighthouseManager.StoreEngagementData | baai-node/src/lighthouse_storage.py:18-42 | the upload is of the sealed package with `encryption=True`; the result is `result["data"]["Hash"]` exactly when the upload succeeds and both keys are present, an error otherwise |
| LighthouseStorage.LighthouseManager.RetrieveData | baai-node/src/lighthouse_storage.py:49-57 | Some exactly when the download, the decryption and the JSON parse all succeed |
| LighthouseStorage.RetrieveAfterStore | baai-node/src/lighthouse_storage.py:44-54 | round trip: retrieving the CID a store returned yields the stored package, given the cipher and JSON laws and a backend that serves its uploads |
| LighthouseStorage.ForeignTokenRefused | baai-node/src/lighthouse_storage.py:53-57 | a token sealed by a manager with another key gives None, never altered data |
| LighthouseStorage.RetrievedWasSealedHere | baai-node/src/lighthouse_storage.py:49-54 | with unforgeable tokens, whatever retrieval returns was sealed under this manager's key |
| BaaiNode.MissingVars | baai-node/baai_node.py:38 | the list holds exactly the names that are unset or empty |
| BaaiNode.MissingVarsInOrder | baai-node/baai_node.py:32-38 | the missing names come in the order LIGHTHOUSE_API_KEY, NODE_ID, STORAGE_ENCRYPTION_KEY |
| BaaiNode.LoadConfig | baai-node/baai_node.py:28-46 | fails exactly when some required variable is unset or empty, with "Missing required environment variables: " and the missing names joined by ", "; otherwise the three fields equal the variables |
| BaaiNode.NodeStoragePackage | baai-node/baai_node.py:85-93 | exactly the keys `engagement_data` (unchanged), `proof` (unchanged) and `metadata` = {node_id, version "1.0", type "BAAI_ENGAGEMENT"} |
| BaaiNode.BAAINode.constructor | baai-node/baai_node.py:22-25 | connects to Lighthouse with the configured API key |
| BaaiNode.BAAINode.Create | baai-node/baai_node.py:22-46 | fails with the configuration error, or with Fernet's error on a malformed key; otherwise a new node holding the loaded configuration |
| BaaiNode.BAAINode.GenerateProof | baai-node/baai_node.py:65-81 | never fails on a dict, missing keys included: proof "mock_proof", key "mock_key", public inputs `[data.get("engagement_type"), str(data.get("timestamp"))]`; None only for a non-dict |
| BaaiNode.BAAINode.EncryptData | baai-node/baai_node.py:108-111 | the token opens under the configured key to the JSON of the data, and parses back to the data |
| BaaiNode.BAAINode.UploadResponse | baai-node/baai_node.py:99-102 | the `upload` call on the sealed package with `encryption=True`; `StoreData` states how its response is read, `ProcessedRecordIsSealed` what it carried |
| BaaiNode.BAAINode.StoreData | baai-node/baai_node.py:83-106 | uploads the sealed package with `encryption=True`; returns `result["data"]["Hash"]` exactly when present, fails otherwise |
| BaaiNode.BAAINode.ProcessEngagement | baai-node/baai_node.py:48-63 | the CID exactly when the record is a dict and the store succeeds, None otherwise |
| BaaiNode.ProcessedRecordIsSealed | baai-node/baai_node.py:48-63 | after a successful call, the upload that produced the CID carried a token that opens under the configured key to the package of record, proof and node id |
| BaaiNode.SealedPackageContents | baai-node/baai_node.py:85-111 | the opened package holds the record unchanged, the proof, and the configured node id |
| NodeService.ProofValue | baai-node/src/node_service.py:36-39 | the proof handed to the store is the dict of exactly the four `ProofOutput` fields, each unchanged |
| NodeService.ProofValueInjective | baai-node/src/node_service.py:36-39 | distinct prover outputs give distinct dicts, so the stored proof determines the prover output |
| NodeService.BAAINodeService.constructor | baai-node/src/node_service.py:19-25 | the storage manager connects with the configured API key and seals under the configured key |
| NodeService.BAAINodeService.ProcessEngagement | baai-node/src/node_service.py:27-44 | None when the prover yields nothing, whatever the backend; else the CID exactly when the store succeeds, the store receiving the record unchanged and the prover's output |
| NodeService.ProcessedRecordRetrievable | baai-node/src/node_service.py:31-41 | end to end: the returned CID retrieves the caller's record unchanged and the prover output |
| NodeService.StoredProofCommitsToRecord | baai-node/src/node_service.py:31-39 | the stored proof's public inputs are the record's type and `str` of its timestamp, and its hash is over the five fields |
| Solana.MintToSpec | programs/baai-token/src/lib.rs:63-73 | `mint_to` succeeds exactly when the account belongs to the mint and neither balance nor supply passes u64::MAX; then both rise by exactly `amount` |
| Solana.MintTo | programs/focii-verifier/src/lib.rs:53 | the accounts end as `MintToSpec` says; on failure neither changes |
| BaaiToken.ProgramState.constructor | programs/baai-token/src/lib.rs:169-175 | a new state account is zero-filled |
| BaaiToken.Node.constructor | programs/baai-token/src/lib.rs:177-184 | a new node account is zero-filled |
| BaaiToken.Initialize | programs/baai-token/src/lib.rs:11-19 | the state records the authority and both mints, and `total_nodes` is 0 |
| BaaiToken.CreateNodeLicenseSpec | programs/baai-token/src/lib.rs:21-51 | succeeds exactly when the token account belongs to the licence mint and the owner, the mint does not overflow, `total_nodes < u64::MAX` and the node fits its space; then `total_nodes` +1, one licence token minted, and node = (owner, node_id, 0 rewards, 0 verifications, token account); at `u64::MAX` it panics |
| BaaiToken.CreateNodeLicense | programs/baai-token/src/lib.rs:21-51 | the accounts and the new node end as `CreateNodeLicenseSpec` says; a failure leaves every account unchanged |
| BaaiToken.DistributeRewardsSpec | programs/baai-token/src/lib.rs:53-80 | succeeds exactly when the account constraints hold, `verification_count > 0` and nothing overflows; with 0 verifications it fails with `NoVerifications`; on success `rewards_earned` rises by exactly `amount`, `amount` tokens are minted, other node fields unchanged |
| BaaiToken.DistributeRewards | programs/baai-token/src/lib.rs:53-80 | the accounts end as `DistributeRewardsSpec` says; the program state is not written; a failure changes nothing |
| BaaiToken.UnverifiedNodeNeverRewarded | programs/baai-token/src/lib.rs:57-60 | any sequence of `distribute_rewards` calls leaves a node with no verifications unchanged |
| BaaiToken.LicensedNodeNeverRewarded | programs/baai-token/src/lib.rs:39-48 | a node made by `create_node_license` starts with 0 verifications and 0 rewards, and no sequence of distributions changes it |
| FociiVerifier.Verifier.constructor | programs/focii-verifier/src/lib.rs:97-103 | a new verifier account is zero-filled, `bump` = 0 |
| FociiVerifier.InitializeSpec | programs/focii-verifier/src/lib.rs:10-16 | as written: records the authority and both mints; `bump` keeps its previous value |
| FociiVerifier.Initialize | programs/focii-verifier/src/lib.rs:10-16 | the account ends as `InitializeSpec` says |
| FociiVerifier.InitializeStoringBumpSpec | programs/focii-verifier/src/lib.rs:61-67 | as intended: records the authority, both mints and the canonical bump the `init` constraint found |
| FociiVerifier.InitializeStoringBump | programs/focii-verifier/src/lib.rs:61-67 | the account ends as `InitializeStoringBumpSpec` says |
| FociiVerifier.VerifyFociiData | programs/focii-verifier/src/lib.rs:113-116 | accepts every byte string |
| FociiVerifier.VerifyAndMintSpec | programs/focii-verifier/src/lib.rs:18-56 | a stored bump other than the canonical one fails first with `ConstraintSeeds`; succeeds exactly when the bump is canonical, both `has_one` checks hold, the licence account is the signer's, and the mint succeeds; a foreign licence gives `InvalidNodeLicense`; on success exactly `amount` is minted to the rewards account |
| FociiVerifier.VerifyAndMint | programs/focii-verifier/src/lib.rs:18-56 | only the reward mint and the rewards account change, as `VerifyAndMintSpec` says; the verifier is never written |
| FociiVerifier.VerificationFailedUnreachable | programs/focii-verifier/src/lib.rs:24-26 | no input makes the instruction fail with `VerificationFailed` |
| FociiVerifier.LicenseCheckIgnoresMintAndAmount | programs/focii-verifier/src/lib.rs:29-32 | the outcome is the same whatever mint and balance the licence account has |
| FociiVerifier.FreshRewardsAccountHoldsAmount | tests/baai-focii.ts:78-95 | an empty rewards account of the reward mint holds exactly `amount` after a call that passes the checks (the stored bump being the canonical one) |
| FociiVerifier.InitializedVerifierAlwaysRejected | programs/focii-verifier/src/lib.rs:76-84 | a verifier set up by `initialize` as written keeps bump 0, so with any non-zero canonical bump every `verify_and_mint` fails with `ConstraintSeeds` |
| FociiVerifier.VerifierStoringBumpAccepted | programs/focii-verifier/src/lib.rs:76-84 | a verifier that stored its bump passes the seeds check, and `verify_and_mint` succeeds exactly when the licence is the signer's and the rewards account can take `amount` more |

## Findings

| source | as written | input that shows it | evidently intended | confidence | as-written member | corrected member |
|---|---|---|---|---|---|---|
| programs/focii-verifier/src/lib.rs:10-16 | `initialize` never writes `verifier.bump`, so the account keeps 0; `verify_and_mint` re-derives the address with `seeds = [b"verifier"], bump = verifier.bump` (lines 78-80) | any deployment whose canonical bump for `[b"verifier"]` is not 0, i.e. all but a negligible fraction of program IDs: every `verify_and_mint` then fails at the seeds constraint and no reward is ever minted | `initialize` stores the bump the `init` constraint found | high; not executed | FociiVerifier.InitializedVerifierAlwaysRejected | FociiVerifier.InitializeStoringBump |

## Left out

- `BAAINode.run` and `main`, an idle async loop, and every `print`. The node's methods are
  modelled as sequential calls, without `async`.
- `load_dotenv()` reading the `.env` file. The environment after loading is a parameter.
- The randomness, all of it a parameter:
  - `Fernet.generate_key()`;
  - each encryption's timestamp and IV (`Nonce`);
  - the `os.urandom` behind `_generate_verification_key`.
- The internals of SHA-256, `json`, Fernet, float and container `repr`, and the Lighthouse
  network client. They are function fields of `Host` and `Backend`. Their laws are
  preconditions of the lemmas that need them, not proved facts.
- Non-JSON values (a dataclass, bytes, a dict with non-string keys) are outside the `Value`
  domain, so `json.dumps` failing on them is not modelled.
- Three kinds of value behave differently in Python than in the model:
  - Integers of more than 4300 digits. On these `str()` and `json.dumps` raise `ValueError`
    (CPython 3.11 and later):
    - If such an integer is one of the five fields `ZKMLProver` renders, `generate_proof`
      returns None.
    - If it is the timestamp, `BAAINode._generate_proof` returns None (baai-node/baai_node.py:74).
    - Anywhere else in a record, the store's `json.dumps` raises (baai-node/baai_node.py:110,
      baai-node/src/lighthouse_storage.py:46).

    In every case, both `process_engagement`s return None. The model renders every integer
    and its `dumps` is total, so it yields a proof and goes on to the upload. The
    `JsonRoundTrips` law that the storage lemmas assume is false of the real `json` on such
    records.
  - Strings with lone surrogates. They cannot be represented, because a Dafny `char` is a
    Unicode scalar value, so the model says nothing about records that hold them. In Python:
    - If the string is one of the five fields `ZKMLProver` renders, `.encode()` raises
      (baai-node/src/zkml_prover.py:66). `generate_proof` and the service's
      `process_engagement` then return None.
    - Anywhere else, and always in `BAAINode`, `json.dumps` escapes the string and
      processing succeeds.
  - NaN floats. These render (`nan`) and serialise (`NaN`), so `generate_proof` and both
    `process_engagement`s succeed on them, as in the model. But `json.loads` reads every NaN
    back as the canonical one. So for a NaN with any other payload, the bitwise
    `JsonRoundTrips` law is false of the real `json`, and the storage lemmas that assume it
    say nothing about such records.
- The text of float `str()`. It is an abstract rendering, with the single law that it contains
  no ':'.
- `ZKMLProver.__init__`'s model and circuit paths, which nothing reads.
- `node_service.py` does not run as written:
  - it imports `.lighthouse_manager`, but the module is `lighthouse_storage`;
  - it passes `encryption_key=` to `LighthouseManager.__init__`, which takes only `api_key`;
  - it hands the `ProofOutput` dataclass to `json.dumps`, which raises `TypeError`.

  The model wires the service as intended. The manager seals under the configured key, and
  `ProofValue` turns the prover output into the dict of its four fields.
- `LighthouseStorage.LighthouseManager.RetrieveData`: tokens that do not come from this
  manager's `encrypt` are covered only by the separate `Unforgeable` law. Its contract alone
  says nothing about them.
- Solana and Anchor machinery:
  - how an address is derived from seeds and a bump. The canonical bump of the verifier's
    seeds is a parameter, and the `seeds` constraint is modelled as the stored bump being that
    bump. Under Findings: `initialize` never stores it;
  - signer checks, and the mint authority with its CPI signature (the state account or the
    verifier PDA);
  - `init` and `init_if_needed` account creation, rent, and the associated-token address
    derivation;
  - account owner and discriminator checks, `mut` writability, mint decimals, frozen accounts
    and duplicate-account rules.

  A token account created by `init_if_needed` enters the model as an empty account of the
  licence mint and owner.
- The `space` of `ProgramState` and `Verifier`. Their fixed-size fields always fit.
- The test file's account names, which do not match the programs' account structs. It serves
  only for the balance it expects.
- `extension-sim/engagement_generator.py` and `baai-node/src/main.py`. The second calls
  `BAAINode(api_key)` and `process_engagement_stream`, neither of which exists.
