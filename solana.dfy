/**
  The slice of Solana, Anchor and the SPL token program that the two on-chain programs use:
  64-bit unsigned integers, public keys, mints and token accounts, and the `mint_to`
  instruction they reach through a cross-program invocation. A failed instruction aborts its
  whole transaction, so none of its writes survive.
*/
module Solana {
  import opened Wrappers

  const U64_MAX: int := 0xFFFF_FFFF_FFFF_FFFF

  /** Rust's `u64`. */
  type U64 = x: int | 0 <= x <= U64_MAX

  /** Rust's `u8`. */
  type U8 = x: int | 0 <= x < 256

  /** A 32-byte public key. */
  type Pubkey = seq<bv8>

  /** `Pubkey::default()`, the all-zero key a freshly allocated account holds. */
  const DEFAULT_PUBKEY: Pubkey := seq(32, _ => 0 as bv8)

  /** The SPL token program's errors that `mint_to` can raise here. */
  datatype TokenError = MintMismatch | Overflow

  /** The Anchor errors the account constraints of the two programs raise. */
  datatype AnchorError =
    | ConstraintSeeds           // `seeds = [..], bump = b`: the seeds and `b` do not derive the account's address
    | ConstraintHasOne          // `has_one = field`: the stored key differs from the account passed
    | ConstraintTokenMint       // the token account belongs to another mint
    | ConstraintTokenOwner      // the token account has another owner
    | AccountDidNotSerialize    // the account's new contents do not fit its allocated space

  /** How an instruction fails: with the program's own error, an Anchor or token error, or a panic. */
  datatype InstructionError<E> = Custom(error: E) | Anchor(anchor: AnchorError) | Token(token: TokenError) | Panic

  /** A mint account: its address and total supply. */
  datatype MintData = MintData(key: Pubkey, supply: U64)

  /** A token account: its address, mint, owner and balance. */
  datatype TokenAccountData = TokenAccountData(key: Pubkey, mint: Pubkey, owner: Pubkey, amount: U64)

  /**
    SPL `mint_to` on the mint and the destination account: the destination must belong to the
    mint, and both its balance and the supply rise by `amount` without passing `u64::MAX`.
  */
  function MintToSpec(mint: MintData, to: TokenAccountData, amount: U64): (r: Result<(MintData, TokenAccountData), TokenError>)
    ensures r.Ok? <==> to.mint == mint.key && to.amount + amount <= U64_MAX && mint.supply + amount <= U64_MAX
    ensures to.mint != mint.key ==> r == Err(MintMismatch)
    ensures r.Ok? ==> && r.value.0 == mint.(supply := mint.supply + amount)
                      && r.value.1 == to.(amount := to.amount + amount)
  {
    if to.mint != mint.key then Err(MintMismatch)
    else if to.amount + amount > U64_MAX || mint.supply + amount > U64_MAX then Err(Overflow)
    else Ok((mint.(supply := mint.supply + amount), to.(amount := to.amount + amount)))
  }

  class Mint {
    const key: Pubkey
    var supply: U64

    constructor (key: Pubkey, supply: U64)
      ensures Data() == MintData(key, supply)
    {
      this.key := key;
      this.supply := supply;
    }

    function Data(): MintData
      reads this
    {
      MintData(key, supply)
    }
  }

  class TokenAccount {
    const key: Pubkey
    const mint: Pubkey
    const owner: Pubkey
    var amount: U64

    constructor (key: Pubkey, mint: Pubkey, owner: Pubkey, amount: U64)
      ensures Data() == TokenAccountData(key, mint, owner, amount)
    {
      this.key := key;
      this.mint := mint;
      this.owner := owner;
      this.amount := amount;
    }

    function Data(): TokenAccountData
      reads this
    {
      TokenAccountData(key, mint, owner, amount)
    }
  }

  /** `token::mint_to`: on success both accounts hold what `MintToSpec` says; on failure neither changes. */
  method MintTo(mint: Mint, to: TokenAccount, amount: U64) returns (r: Result<(), TokenError>)
    modifies mint, to
    ensures var spec := MintToSpec(old(mint.Data()), old(to.Data()), amount);
            && (r.Ok? <==> spec.Ok?)
            && (r.Ok? ==> mint.Data() == spec.value.0 && to.Data() == spec.value.1)
            && (r.Err? ==> r.error == spec.error && mint.Data() == old(mint.Data()) && to.Data() == old(to.Data()))
  {
    if to.mint != mint.key {
      return Err(MintMismatch);
    }
    if to.amount + amount > U64_MAX || mint.supply + amount > U64_MAX {
      return Err(Overflow);
    }
    to.amount := to.amount + amount;
    mint.supply := mint.supply + amount;
    return Ok(());
  }
}
