/**
  The `focii_verifier` Anchor program: a verifier account that records the reward and licence
  mints, and an instruction that checks submitted data and the caller's licence before minting
  reward tokens.
*/
module FociiVerifier {
  import opened Wrappers
  import opened Solana

  datatype FociiVerifierError = VerificationFailed | InvalidNodeLicense

  datatype VerifierData = VerifierData(authority: Pubkey, rewardTokenMint: Pubkey, nodeLicenseMint: Pubkey, bump: U8)

  /** What a freshly allocated, zero-filled `Verifier` account holds. */
  const FRESH_VERIFIER := VerifierData(DEFAULT_PUBKEY, DEFAULT_PUBKEY, DEFAULT_PUBKEY, 0)

  /** The `Verifier` account. */
  class Verifier {
    var authority: Pubkey
    var rewardTokenMint: Pubkey
    var nodeLicenseMint: Pubkey
    var bump: U8

    /** A freshly allocated account is zero-filled. */
    constructor ()
      ensures Data() == FRESH_VERIFIER
    {
      authority, rewardTokenMint, nodeLicenseMint := DEFAULT_PUBKEY, DEFAULT_PUBKEY, DEFAULT_PUBKEY;
      bump := 0;
    }

    function Data(): VerifierData
      reads this
    {
      VerifierData(authority, rewardTokenMint, nodeLicenseMint, bump)
    }
  }

  /**
    `initialize` as written: the authority and the two mints are recorded, and `bump` keeps
    whatever the account held before, which on a fresh account is 0.
  */
  function InitializeSpec(verifier: VerifierData, authority: Pubkey, rewardTokenMint: Pubkey, nodeLicenseMint: Pubkey)
    : (r: VerifierData)
    ensures r.authority == authority && r.rewardTokenMint == rewardTokenMint && r.nodeLicenseMint == nodeLicenseMint
    ensures r.bump == verifier.bump
  {
    verifier.(authority := authority, rewardTokenMint := rewardTokenMint, nodeLicenseMint := nodeLicenseMint)
  }

  /** `initialize` on the account, as written. */
  method Initialize(verifier: Verifier, authority: Pubkey, rewardTokenMint: Pubkey, nodeLicenseMint: Pubkey)
    modifies verifier
    ensures verifier.Data() == InitializeSpec(old(verifier.Data()), authority, rewardTokenMint, nodeLicenseMint)
  {
    verifier.authority := authority;
    verifier.rewardTokenMint := rewardTokenMint;
    verifier.nodeLicenseMint := nodeLicenseMint;
  }

  /**
    `initialize` as evidently intended: besides the authority and the two mints it records the
    canonical bump that the `init` constraint found for the seeds `[b"verifier"]`, which is what
    `verify_and_mint` later re-derives the address with.
  */
  function InitializeStoringBumpSpec(verifier: VerifierData, authority: Pubkey, rewardTokenMint: Pubkey,
                                     nodeLicenseMint: Pubkey, canonicalBump: U8)
    : (r: VerifierData)
    ensures r.authority == authority && r.rewardTokenMint == rewardTokenMint && r.nodeLicenseMint == nodeLicenseMint
    ensures r.bump == canonicalBump
  {
    VerifierData(authority, rewardTokenMint, nodeLicenseMint, canonicalBump)
  }

  /** The intended `initialize` on the account. */
  method InitializeStoringBump(verifier: Verifier, authority: Pubkey, rewardTokenMint: Pubkey, nodeLicenseMint: Pubkey,
                               canonicalBump: U8)
    modifies verifier
    ensures verifier.Data() == InitializeStoringBumpSpec(old(verifier.Data()), authority, rewardTokenMint, nodeLicenseMint, canonicalBump)
  {
    verifier.authority := authority;
    verifier.rewardTokenMint := rewardTokenMint;
    verifier.nodeLicenseMint := nodeLicenseMint;
    verifier.bump := canonicalBump;
  }

  /** `verify_focii_data`: a placeholder that accepts every byte string. */
  function VerifyFociiData(data: Bytes): (ok: bool)
    ensures ok
  {
    true
  }

  /**
    `verify_and_mint`, as the new reward mint and rewards account. `canonicalBump` is the bump
    that derives the verifier's address from the seeds `[b"verifier"]`: the stored bump must be
    it (`seeds`, checked first), the verifier must record the reward mint and the licence mint
    passed (`has_one`), the data must verify, the licence account must be owned by the signer,
    and then `amount` reward tokens are minted.
  */
  function VerifyAndMintSpec(verifier: VerifierData, canonicalBump: U8, rewardMint: MintData, nodeLicenseMint: Pubkey,
                             license: TokenAccountData, nodeOwner: Pubkey, rewards: TokenAccountData,
                             verificationData: Bytes, amount: U64)
    : (r: Result<(MintData, TokenAccountData), InstructionError<FociiVerifierError>>)
    ensures verifier.bump != canonicalBump ==> r == Err(Anchor(ConstraintSeeds))
    ensures r.Ok? <==> && verifier.bump == canonicalBump
                       && verifier.rewardTokenMint == rewardMint.key && verifier.nodeLicenseMint == nodeLicenseMint
                       && license.owner == nodeOwner
                       && rewards.mint == rewardMint.key
                       && rewards.amount + amount <= U64_MAX && rewardMint.supply + amount <= U64_MAX
    ensures && verifier.bump == canonicalBump
            && verifier.rewardTokenMint == rewardMint.key && verifier.nodeLicenseMint == nodeLicenseMint
            && license.owner != nodeOwner
            ==> r == Err(Custom(InvalidNodeLicense))
    ensures r.Ok? ==> r.value == (rewardMint.(supply := rewardMint.supply + amount), rewards.(amount := rewards.amount + amount))
  {
    if verifier.bump != canonicalBump then Err(Anchor(ConstraintSeeds))
    else if verifier.rewardTokenMint != rewardMint.key then Err(Anchor(ConstraintHasOne))
    else if verifier.nodeLicenseMint != nodeLicenseMint then Err(Anchor(ConstraintHasOne))
    else if !VerifyFociiData(verificationData) then Err(Custom(VerificationFailed))
    else if license.owner != nodeOwner then Err(Custom(InvalidNodeLicense))
    else match MintToSpec(rewardMint, rewards, amount)
      case Err(e) => Err(Token(e))
      case Ok(minted) => Ok(minted)
  }

  /**
    `verify_and_mint` on the accounts. The verifier and the licence account are only read, so
    only the reward mint and the rewards account may change.
  */
  method VerifyAndMint(verifier: Verifier, canonicalBump: U8, rewardMint: Mint, nodeLicenseMint: Pubkey, license: TokenAccount,
                       nodeOwner: Pubkey, rewards: TokenAccount, verificationData: Bytes, amount: U64)
    returns (r: Result<(), InstructionError<FociiVerifierError>>)
    modifies rewardMint, rewards
    ensures var spec := VerifyAndMintSpec(old(verifier.Data()), canonicalBump, old(rewardMint.Data()), nodeLicenseMint, old(license.Data()),
                                          nodeOwner, old(rewards.Data()), verificationData, amount);
            && (r.Ok? <==> spec.Ok?)
            && (r.Ok? ==> rewardMint.Data() == spec.value.0 && rewards.Data() == spec.value.1)
            && (r.Err? ==> && r.error == spec.error
                           && rewardMint.Data() == old(rewardMint.Data()) && rewards.Data() == old(rewards.Data()))
  {
    if verifier.bump != canonicalBump {
      r := Err(Anchor(ConstraintSeeds));
    } else if verifier.rewardTokenMint != rewardMint.key || verifier.nodeLicenseMint != nodeLicenseMint {
      r := Err(Anchor(ConstraintHasOne));
    } else if !VerifyFociiData(verificationData) {
      r := Err(Custom(VerificationFailed));
    } else if license.owner != nodeOwner {
      r := Err(Custom(InvalidNodeLicense));
    } else {
      var minted := MintTo(rewardMint, rewards, amount);
      r := if minted.Ok? then Ok(()) else Err(Token(minted.error));
    }
  }

  /** No submitted data is ever rejected, so `VerificationFailed` never occurs. */
  lemma VerificationFailedUnreachable(verifier: VerifierData, canonicalBump: U8, rewardMint: MintData, nodeLicenseMint: Pubkey,
                                      license: TokenAccountData, nodeOwner: Pubkey, rewards: TokenAccountData,
                                      verificationData: Bytes, amount: U64)
    ensures VerifyAndMintSpec(verifier, canonicalBump, rewardMint, nodeLicenseMint, license, nodeOwner, rewards, verificationData, amount)
         != Err(Custom(VerificationFailed))
  {
  }

  /**
    The licence check reads only the licence account's owner: an account of any mint, with any
    balance, passes for its owner.
  */
  lemma LicenseCheckIgnoresMintAndAmount(verifier: VerifierData, canonicalBump: U8, rewardMint: MintData, nodeLicenseMint: Pubkey,
                                         license: TokenAccountData, otherMint: Pubkey, otherAmount: U64,
                                         nodeOwner: Pubkey, rewards: TokenAccountData, verificationData: Bytes, amount: U64)
    ensures VerifyAndMintSpec(verifier, canonicalBump, rewardMint, nodeLicenseMint, license.(mint := otherMint, amount := otherAmount),
                              nodeOwner, rewards, verificationData, amount)
         == VerifyAndMintSpec(verifier, canonicalBump, rewardMint, nodeLicenseMint, license, nodeOwner, rewards, verificationData, amount)
  {
  }

  /** An empty rewards account of the reward mint ends up holding exactly `amount`. */
  lemma FreshRewardsAccountHoldsAmount(verifier: VerifierData, canonicalBump: U8, rewardMint: MintData, nodeLicenseMint: Pubkey,
                                       license: TokenAccountData, nodeOwner: Pubkey, rewards: TokenAccountData,
                                       verificationData: Bytes, amount: U64)
    requires verifier.bump == canonicalBump
    requires verifier.rewardTokenMint == rewardMint.key && verifier.nodeLicenseMint == nodeLicenseMint
    requires license.owner == nodeOwner
    requires rewards.mint == rewardMint.key && rewards.amount == 0
    requires rewardMint.supply + amount <= U64_MAX
    ensures var r := VerifyAndMintSpec(verifier, canonicalBump, rewardMint, nodeLicenseMint, license, nodeOwner, rewards, verificationData, amount);
            r.Ok? && r.value.1.amount == amount
  {
  }

  /**
    As written, a verifier account set up by `initialize` keeps the zero bump of a fresh account,
    so whenever the canonical bump is not 0 every `verify_and_mint` fails at the `seeds`
    constraint, before any check of the handler runs.
  */
  lemma InitializedVerifierAlwaysRejected(authority: Pubkey, rewardTokenMint: Pubkey, nodeLicenseMint: Pubkey,
                                          canonicalBump: U8, rewardMint: MintData, passedLicenseMint: Pubkey,
                                          license: TokenAccountData, nodeOwner: Pubkey, rewards: TokenAccountData,
                                          verificationData: Bytes, amount: U64)
    requires canonicalBump != 0
    ensures var verifier := InitializeSpec(FRESH_VERIFIER, authority, rewardTokenMint, nodeLicenseMint);
            VerifyAndMintSpec(verifier, canonicalBump, rewardMint, passedLicenseMint, license, nodeOwner, rewards,
                              verificationData, amount)
            == Err(Anchor(ConstraintSeeds))
  {
  }

  /**
    With the bump stored, a verifier that `initialize` set up for a reward mint and a licence
    mint passes the `seeds` check, and `verify_and_mint` succeeds exactly when the licence
    account is the signer's and the rewards account can take `amount` more tokens of that mint.
  */
  lemma VerifierStoringBumpAccepted(authority: Pubkey, canonicalBump: U8, rewardMint: MintData, nodeLicenseMint: Pubkey,
                                    license: TokenAccountData, nodeOwner: Pubkey, rewards: TokenAccountData,
                                    verificationData: Bytes, amount: U64)
    ensures var verifier := InitializeStoringBumpSpec(FRESH_VERIFIER, authority, rewardMint.key, nodeLicenseMint, canonicalBump);
            var r := VerifyAndMintSpec(verifier, canonicalBump, rewardMint, nodeLicenseMint, license, nodeOwner, rewards,
                                       verificationData, amount);
            && r != Err(Anchor(ConstraintSeeds))
            && (r.Ok? <==> && license.owner == nodeOwner && rewards.mint == rewardMint.key
                           && rewards.amount + amount <= U64_MAX && rewardMint.supply + amount <= U64_MAX)
  {
  }
}
