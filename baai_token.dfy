/**
  The `baai_token` Anchor program: a program state that counts licensed nodes, node licences
  minted as single tokens of the licence mint, and reward distribution gated on a node's
  verification count.
*/
module BaaiToken {
  import opened Wrappers
  import opened Solana

  datatype BaaiError = NoVerifications

  const STRING_LENGTH := 32

  /** The `space` allocated to a `Node` account, 8 bytes of Anchor discriminator included. */
  const NODE_SPACE := 8 + 32 + 32 + STRING_LENGTH + 8 + 8 + 32

  /** The bytes a `Node` takes once written: discriminator, then the Borsh encoding of its fields. */
  function NodeSerializedSize(nodeId: Bytes): nat {
    8 + 32 + (4 + |nodeId|) + 8 + 8 + 32
  }

  datatype StateData = StateData(authority: Pubkey, rewardTokenMint: Pubkey, nodeLicenseMint: Pubkey, totalNodes: U64)

  /** A node; `nodeId` is the UTF-8 encoding of the Rust `String`. */
  datatype NodeData = NodeData(
    owner: Pubkey,
    nodeId: Bytes,
    rewardsEarned: U64,
    verificationCount: U64,
    licenseToken: Pubkey)

  /** The `ProgramState` account. */
  class ProgramState {
    var authority: Pubkey
    var rewardTokenMint: Pubkey
    var nodeLicenseMint: Pubkey
    var totalNodes: U64

    /** A freshly allocated account is zero-filled. */
    constructor ()
      ensures Data() == StateData(DEFAULT_PUBKEY, DEFAULT_PUBKEY, DEFAULT_PUBKEY, 0)
    {
      authority, rewardTokenMint, nodeLicenseMint := DEFAULT_PUBKEY, DEFAULT_PUBKEY, DEFAULT_PUBKEY;
      totalNodes := 0;
    }

    function Data(): StateData
      reads this
    {
      StateData(authority, rewardTokenMint, nodeLicenseMint, totalNodes)
    }
  }

  /** The `Node` account. */
  class Node {
    var owner: Pubkey
    var nodeId: Bytes
    var rewardsEarned: U64
    var verificationCount: U64
    var licenseToken: Pubkey

    /** A freshly allocated account is zero-filled. */
    constructor ()
      ensures Data() == NodeData(DEFAULT_PUBKEY, [], 0, 0, DEFAULT_PUBKEY)
    {
      owner, nodeId, licenseToken := DEFAULT_PUBKEY, [], DEFAULT_PUBKEY;
      rewardsEarned, verificationCount := 0, 0;
    }

    function Data(): NodeData
      reads this
    {
      NodeData(owner, nodeId, rewardsEarned, verificationCount, licenseToken)
    }
  }

  /** `initialize`: records the authority and the two mints and zeroes the node count. */
  method Initialize(state: ProgramState, authority: Pubkey, rewardTokenMint: Pubkey, nodeLicenseMint: Pubkey)
    modifies state
    ensures state.Data() == StateData(authority, rewardTokenMint, nodeLicenseMint, 0)
  {
    state.authority := authority;
    state.rewardTokenMint := rewardTokenMint;
    state.nodeLicenseMint := nodeLicenseMint;
    state.totalNodes := 0;
  }

  /**
    `create_node_license`, as the new state, licence mint, node token account and node. The
    associated token account must belong to the licence mint and the owner; then one licence
    token is minted, the node is written, and `total_nodes.checked_add(1).unwrap()` panics at
    `u64::MAX`; last, the node must fit its allocated space.
  */
  function CreateNodeLicenseSpec(state: StateData, licenseMint: MintData, account: TokenAccountData, owner: Pubkey, nodeId: Bytes)
    : (r: Result<(StateData, MintData, TokenAccountData, NodeData), InstructionError<BaaiError>>)
    ensures r.Ok? <==> && account.mint == licenseMint.key && account.owner == owner
                       && account.amount < U64_MAX && licenseMint.supply < U64_MAX
                       && state.totalNodes < U64_MAX
                       && NodeSerializedSize(nodeId) <= NODE_SPACE
    ensures r.Ok? ==> && r.value.0 == state.(totalNodes := state.totalNodes + 1)
                      && r.value.1 == licenseMint.(supply := licenseMint.supply + 1)
                      && r.value.2 == account.(amount := account.amount + 1)
                      && r.value.3 == NodeData(owner, nodeId, 0, 0, account.key)
    ensures && account.mint == licenseMint.key && account.owner == owner
            && account.amount < U64_MAX && licenseMint.supply < U64_MAX
            && state.totalNodes == U64_MAX
            ==> r == Err(Panic)
  {
    if account.mint != licenseMint.key then Err(Anchor(ConstraintTokenMint))
    else if account.owner != owner then Err(Anchor(ConstraintTokenOwner))
    else match MintToSpec(licenseMint, account, 1)
      case Err(e) => Err(Token(e))
      case Ok((licenseMint', account')) =>
        if state.totalNodes == U64_MAX then Err(Panic)
        else if NodeSerializedSize(nodeId) > NODE_SPACE then Err(Anchor(AccountDidNotSerialize))
        else Ok((state.(totalNodes := state.totalNodes + 1), licenseMint', account', NodeData(owner, nodeId, 0, 0, account.key)))
  }

  /** `create_node_license` on the accounts; a failure leaves every account as it was. */
  method CreateNodeLicense(state: ProgramState, licenseMint: Mint, account: TokenAccount, owner: Pubkey, nodeId: Bytes)
    returns (r: Result<Node, InstructionError<BaaiError>>)
    modifies state, licenseMint, account
    ensures var spec := CreateNodeLicenseSpec(old(state.Data()), old(licenseMint.Data()), old(account.Data()), owner, nodeId);
            && (r.Ok? <==> spec.Ok?)
            && (r.Ok? ==> && fresh(r.value) && r.value.Data() == spec.value.3
                          && state.Data() == spec.value.0 && licenseMint.Data() == spec.value.1 && account.Data() == spec.value.2)
            && (r.Err? ==> && r.error == spec.error
                           && state.Data() == old(state.Data()) && licenseMint.Data() == old(licenseMint.Data())
                           && account.Data() == old(account.Data()))
  {
    if account.mint != licenseMint.key {
      return Err(Anchor(ConstraintTokenMint));
    }
    if account.owner != owner {
      return Err(Anchor(ConstraintTokenOwner));
    }
    var supplyBefore, amountBefore := licenseMint.supply, account.amount;
    var minted := MintTo(licenseMint, account, 1);
    if minted.Err? {
      return Err(Token(minted.error));
    }
    var node := new Node();
    node.owner := owner;
    node.nodeId := nodeId;
    node.rewardsEarned := 0;
    node.verificationCount := 0;
    node.licenseToken := account.key;
    if state.totalNodes == U64_MAX {
      // the panic aborts the transaction, and the runtime discards the mint
      licenseMint.supply, account.amount := supplyBefore, amountBefore;
      return Err(Panic);
    }
    state.totalNodes := state.totalNodes + 1;
    if NodeSerializedSize(nodeId) > NODE_SPACE {
      // writing the node back fails on exit, and the runtime discards every write
      licenseMint.supply, account.amount, state.totalNodes := supplyBefore, amountBefore, state.totalNodes - 1;
      return Err(Anchor(AccountDidNotSerialize));
    }
    return Ok(node);
  }

  /**
    `distribute_rewards`, as the new node, reward mint and rewards account. The rewards account
    must belong to the reward mint and to the node's owner; the node needs a verification; then
    `amount` tokens are minted and `rewards_earned.checked_add(amount).unwrap()` panics on overflow.
  */
  function DistributeRewardsSpec(node: NodeData, rewardMint: MintData, account: TokenAccountData, amount: U64)
    : (r: Result<(NodeData, MintData, TokenAccountData), InstructionError<BaaiError>>)
    ensures r.Ok? <==> && account.mint == rewardMint.key && account.owner == node.owner
                       && node.verificationCount > 0
                       && account.amount + amount <= U64_MAX && rewardMint.supply + amount <= U64_MAX
                       && node.rewardsEarned + amount <= U64_MAX
    ensures account.mint == rewardMint.key && account.owner == node.owner && node.verificationCount == 0
            ==> r == Err(Custom(NoVerifications))
    ensures r.Ok? ==> && r.value.0 == node.(rewardsEarned := node.rewardsEarned + amount)
                      && r.value.1 == rewardMint.(supply := rewardMint.supply + amount)
                      && r.value.2 == account.(amount := account.amount + amount)
  {
    if account.mint != rewardMint.key then Err(Anchor(ConstraintTokenMint))
    else if account.owner != node.owner then Err(Anchor(ConstraintTokenOwner))
    else if node.verificationCount == 0 then Err(Custom(NoVerifications))
    else match MintToSpec(rewardMint, account, amount)
      case Err(e) => Err(Token(e))
      case Ok((rewardMint', account')) =>
        if node.rewardsEarned + amount > U64_MAX then Err(Panic)
        else Ok((node.(rewardsEarned := node.rewardsEarned + amount), rewardMint', account'))
  }

  /** `distribute_rewards` on the accounts. The program state is passed in but never written. */
  method DistributeRewards(node: Node, rewardMint: Mint, account: TokenAccount, amount: U64)
    returns (r: Result<(), InstructionError<BaaiError>>)
    modifies node, rewardMint, account
    ensures var spec := DistributeRewardsSpec(old(node.Data()), old(rewardMint.Data()), old(account.Data()), amount);
            && (r.Ok? <==> spec.Ok?)
            && (r.Ok? ==> node.Data() == spec.value.0 && rewardMint.Data() == spec.value.1 && account.Data() == spec.value.2)
            && (r.Err? ==> && r.error == spec.error && node.Data() == old(node.Data())
                           && rewardMint.Data() == old(rewardMint.Data()) && account.Data() == old(account.Data()))
  {
    if account.mint != rewardMint.key {
      return Err(Anchor(ConstraintTokenMint));
    }
    if account.owner != node.owner {
      return Err(Anchor(ConstraintTokenOwner));
    }
    if node.verificationCount == 0 {
      return Err(Custom(NoVerifications));
    }
    var supplyBefore, amountBefore := rewardMint.supply, account.amount;
    var minted := MintTo(rewardMint, account, amount);
    if minted.Err? {
      return Err(Token(minted.error));
    }
    if node.rewardsEarned + amount > U64_MAX {
      // the panic aborts the transaction, and the runtime discards the mint
      rewardMint.supply, account.amount := supplyBefore, amountBefore;
      return Err(Panic);
    }
    node.rewardsEarned := node.rewardsEarned + amount;
    return Ok(());
  }

  /** The accounts and amount of one `distribute_rewards` call on a node. */
  datatype Distribution = Distribution(rewardMint: MintData, account: TokenAccountData, amount: U64)

  /** The node after a sequence of `distribute_rewards` calls; a failed call leaves it as it was. */
  function Replay(node: NodeData, calls: seq<Distribution>): NodeData
    decreases |calls|
  {
    if |calls| == 0 then node
    else
      var next := match DistributeRewardsSpec(node, calls[0].rewardMint, calls[0].account, calls[0].amount)
                  case Ok((node', _, _)) => node'
                  case Err(_) => node;
      Replay(next, calls[1..])
  }

  /** Nothing raises `verification_count`, so a node without verifications is never rewarded. */
  lemma {:induction false} UnverifiedNodeNeverRewarded(node: NodeData, calls: seq<Distribution>)
    requires node.verificationCount == 0
    ensures Replay(node, calls) == node
    decreases |calls|
  {
    if |calls| > 0 {
      assert DistributeRewardsSpec(node, calls[0].rewardMint, calls[0].account, calls[0].amount).Err?;
      UnverifiedNodeNeverRewarded(node, calls[1..]);
    }
  }

  /** Every node `create_node_license` makes starts unverified and so never earns rewards. */
  lemma LicensedNodeNeverRewarded(state: StateData, licenseMint: MintData, account: TokenAccountData, owner: Pubkey,
                                  nodeId: Bytes, calls: seq<Distribution>)
    requires CreateNodeLicenseSpec(state, licenseMint, account, owner, nodeId).Ok?
    ensures var node := CreateNodeLicenseSpec(state, licenseMint, account, owner, nodeId).value.3;
            && node.verificationCount == 0 && node.rewardsEarned == 0
            && Replay(node, calls) == node
  {
    UnverifiedNodeNeverRewarded(CreateNodeLicenseSpec(state, licenseMint, account, owner, nodeId).value.3, calls);
  }
}
