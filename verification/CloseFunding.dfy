/** The terminal close-funding transition: its plan, its child state, and the rebuild-equality gate. */
module CloseFunding {
  import opened Wrappers
  import opened MachineWords
  import opened ChannelTypes

  const CLOSE_FUNDING_DOMAIN: u32 := 0x494d4346
  const CLOSE_FUNDING_PLAN_DOMAIN: u32 := 0x494d4650

  datatype Transfer = Transfer(recipient: Bytes32, tokenIndex: u32, amount: U256, auxData: Bytes32)

  datatype TxV2 = TxV2(transferTreeRoot: Bytes32, nonce: u32)

  type MerkleProof = nat

  // Hashes, trees and state validation are deterministic functions; nothing else is assumed of them.
  datatype Crypto = Crypto(
    keccakWords: seq<u32> -> Bytes32,
    fundsDigest: (seq<u32>, nat, seq<U256>) -> Bytes32,
    recipientOf: Address -> Bytes32,
    transferRoot: seq<Transfer> -> Bytes32,
    txRoot: (ChannelId, TxV2) -> Bytes32,
    proveTx: (ChannelId, TxV2) -> MerkleProof,
    verifyTx: (MerkleProof, TxV2, ChannelId, Bytes32) -> bool,
    canonicalRoot: Bytes32 -> bool,
    pushSettled: (Bytes32, Bytes32) -> Bytes32,
    balanceValid: BalanceState -> bool,
    stateDigest: ChannelState -> Bytes32)
  {
    // A state's signing digest covers its signed content only.
    function SigningDigest(s: ChannelState): Bytes32 { stateDigest(s.Unsigned()) }
  }

  datatype Plan = Plan(
    chainId: u64, rollup: Address, manager: Address, sourceChannelId: ChannelId, closeFreezeNonce: u64,
    baseNonce: u32, tokenFundsDigest: Bytes32, fundingAuxData: Bytes32, transfers: seq<Transfer>,
    txV2: TxV2, txTreeRoot: Bytes32, proof: MerkleProof, planDigest: Bytes32)

  datatype Proposal = Proposal(plan: Plan, child: ChannelState)

  datatype CloseFundingError = Invalid | CounterOverflow

  // ---------- packed digest preimages ----------

  function AuxWords(chainId: u64, rollup: Address, manager: Address, channel: ChannelId, freezeNonce: u64,
                    funds: Bytes32): seq<u32> {
    [CLOSE_FUNDING_DOMAIN] + HeaderWords(chainId, rollup, manager, channel, freezeNonce) + Limbs(funds, 8)
  }

  function PlanWords(chainId: u64, rollup: Address, manager: Address, channel: ChannelId, freezeNonce: u64,
                     baseNonce: u32, funds: Bytes32, root: Bytes32): seq<u32> {
    [CLOSE_FUNDING_PLAN_DOMAIN] + HeaderWords(chainId, rollup, manager, channel, freezeNonce)
    + [baseNonce] + Limbs(funds, 8) + Limbs(root, 8)
  }

  // The header both preimages share after their domain word.
  function HeaderWords(chainId: u64, rollup: Address, manager: Address, channel: ChannelId, freezeNonce: u64)
    : (s: seq<u32>)
    ensures |s| == 21
  {
    Limbs(chainId, 8) + Limbs(rollup, 5) + Limbs(manager, 5) + Limbs(channel, 1) + Limbs(freezeNonce, 2)
  }

  // Words 1 to 21 spell, in order, a 256-bit chain id, two addresses, a 32-bit channel and a 64-bit freeze nonce.
  predicate Spells(w: seq<u32>, chainId: u64, rollup: Address, manager: Address, channel: ChannelId, freeze: u64) {
    && |w| >= 22
    && FromLimbs(w[1..9]) == chainId && FromLimbs(w[9..14]) == rollup && FromLimbs(w[14..19]) == manager
    && w[19] == channel && FromLimbs(w[20..22]) == freeze
  }

  lemma HeaderSpells(domain: u32, chainId: u64, rollup: Address, manager: Address, channel: ChannelId, freeze: u64,
                     rest: seq<u32>)
    ensures Spells([domain] + HeaderWords(chainId, rollup, manager, channel, freeze) + rest,
                   chainId, rollup, manager, channel, freeze)
  {
    var w := [domain] + HeaderWords(chainId, rollup, manager, channel, freeze) + rest;
    assert w[1..9] == Limbs(chainId, 8) && w[9..14] == Limbs(rollup, 5) && w[14..19] == Limbs(manager, 5);
    assert w[20..22] == Limbs(freeze, 2);
    WidthPowers();
    LimbsReadBack(chainId, 8);
    LimbsReadBack(rollup, 5);
    LimbsReadBack(manager, 5);
    LimbsReadBack(freeze, 2);
  }

  /** The 120-byte authorization preimage: its domain word, then every packed field at its own place. */
  lemma AuxWordsLayout(chainId: u64, rollup: Address, manager: Address, channel: ChannelId, freeze: u64,
                       funds: Bytes32)
    ensures
      var w := AuxWords(chainId, rollup, manager, channel, freeze, funds);
      && |w| == 30 && w[0] == 0x494d4346 && Spells(w, chainId, rollup, manager, channel, freeze)
      && FromLimbs(w[22..30]) == funds
  {
    HeaderSpells(CLOSE_FUNDING_DOMAIN, chainId, rollup, manager, channel, freeze, Limbs(funds, 8));
    assert AuxWords(chainId, rollup, manager, channel, freeze, funds)[22..30] == Limbs(funds, 8);
    WidthPowers();
    LimbsReadBack(funds, 8);
  }

  /** The plan preimage: another domain word, the same header, then base nonce, funds digest and transaction root. */
  lemma PlanWordsLayout(chainId: u64, rollup: Address, manager: Address, channel: ChannelId, freeze: u64,
                        nonce: u32, funds: Bytes32, root: Bytes32)
    ensures
      var w := PlanWords(chainId, rollup, manager, channel, freeze, nonce, funds, root);
      && |w| == 39 && w[0] == 0x494d4650 && Spells(w, chainId, rollup, manager, channel, freeze)
      && w[22] == nonce && FromLimbs(w[23..31]) == funds && FromLimbs(w[31..39]) == root
  {
    var w := PlanWords(chainId, rollup, manager, channel, freeze, nonce, funds, root);
    var rest := [nonce] + Limbs(funds, 8) + Limbs(root, 8);
    HeaderSpells(CLOSE_FUNDING_PLAN_DOMAIN, chainId, rollup, manager, channel, freeze, rest);
    assert w == [CLOSE_FUNDING_PLAN_DOMAIN] + HeaderWords(chainId, rollup, manager, channel, freeze) + rest;
    assert w[23..31] == Limbs(funds, 8) && w[31..39] == Limbs(root, 8);
    WidthPowers();
    LimbsReadBack(funds, 8);
    LimbsReadBack(root, 8);
  }

  // ---------- the proposal ----------

  // The head may be funded: consistent ids, a digest over its own content, settled, and a well-formed fund vector.
  predicate Fundable(cr: Crypto, head: ChannelState, rollup: Address, manager: Address) {
    && cr.balanceValid(head.balance)
    && head.channelId == head.balance.channelId == head.fund.channelId
    && head.digest == cr.SigningDigest(head)
    && rollup != 0 && manager != 0
    && head.h2Tag == 0
    && 0 < head.balance.tokenCount <= |head.balance.tokenRegistry|
    && |head.fund.amounts| == |head.balance.tokenRegistry|
    && forall t :: head.balance.tokenCount <= t < |head.fund.amounts| ==> head.fund.amounts[t] == 0
  }

  // One transfer per nonzero active fund entry, in registry order.
  function FundTransfers(head: ChannelState, recipient: Bytes32, aux: Bytes32, slots: nat): seq<Transfer>
    requires slots <= |head.balance.tokenRegistry| && slots <= |head.fund.amounts|
  {
    if slots == 0 then []
    else
      var before := FundTransfers(head, recipient, aux, slots - 1);
      if head.fund.amounts[slots - 1] == 0 then before
      else before + [Transfer(recipient, head.balance.tokenRegistry[slots - 1], head.fund.amounts[slots - 1], aux)]
  }

  function AuxData(cr: Crypto, head: ChannelState, chainId: u64, rollup: Address, manager: Address, freeze: u64)
    : Bytes32 {
    cr.keccakWords(AuxWords(chainId, rollup, manager, head.channelId, freeze,
                            cr.fundsDigest(head.balance.tokenRegistry, head.balance.tokenCount, head.fund.amounts)))
  }

  function CanonicalPlan(cr: Crypto, head: ChannelState, chainId: u64, rollup: Address, manager: Address,
                         baseNonce: u32, freeze: u64, transfers: seq<Transfer>): Plan {
    var funds := cr.fundsDigest(head.balance.tokenRegistry, head.balance.tokenCount, head.fund.amounts);
    var tx := TxV2(cr.transferRoot(transfers), baseNonce);
    var root := cr.txRoot(head.channelId, tx);
    Plan(chainId, rollup, manager, head.channelId, freeze, baseNonce, funds,
         AuxData(cr, head, chainId, rollup, manager, freeze), transfers, tx, root, cr.proveTx(head.channelId, tx),
         cr.keccakWords(PlanWords(chainId, rollup, manager, head.channelId, freeze, baseNonce, funds, root)))
  }

  // The unsigned terminal child, before its digest is installed.
  function ChildContent(cr: Crypto, head: ChannelState, plan: Plan): ChannelState
    requires head.epoch + 1 < U64_LIMIT && head.smallBlockNumber + 1 < U64_LIMIT
    requires head.balance.stateVersion + 1 < U64_LIMIT
  {
    head.(epoch := head.epoch + 1,
          smallBlockNumber := head.smallBlockNumber + 1,
          balance := head.balance.(stateVersion := head.balance.stateVersion + 1,
                                   settledTxChain := cr.pushSettled(head.balance.settledTxChain, plan.fundingAuxData)),
          prevDigest := head.digest,
          h2Tag := plan.txTreeRoot,
          memberSignatures := [])
  }

  function BuildProposal(cr: Crypto, head: ChannelState, chainId: u64, rollup: Address, manager: Address,
                         baseNonce: u32)
    : Result<Proposal, CloseFundingError> {
    if !Fundable(cr, head, rollup, manager) then Err(Invalid)
    else if head.closeFreezeNonce + 1 >= U64_LIMIT then Err(CounterOverflow)
    else
      var freeze := head.closeFreezeNonce + 1;
      var transfers := FundTransfers(head, cr.recipientOf(manager), AuxData(cr, head, chainId, rollup, manager, freeze),
                                     head.balance.tokenCount);
      if transfers == [] then Err(Invalid)
      else if head.epoch + 1 >= U64_LIMIT || head.smallBlockNumber + 1 >= U64_LIMIT
              || head.balance.stateVersion + 1 >= U64_LIMIT
      then Err(CounterOverflow)
      else
        var plan := CanonicalPlan(cr, head, chainId, rollup, manager, baseNonce, freeze, transfers);
        var content := ChildContent(cr, head, plan);
        Ok(Proposal(plan, content.(digest := cr.SigningDigest(content))))
  }

  /** Push one transfer per nonzero active fund entry. */
  method CollectTransfers(head: ChannelState, recipient: Bytes32, aux: Bytes32) returns (transfers: seq<Transfer>)
    requires head.balance.tokenCount <= |head.balance.tokenRegistry| == |head.fund.amounts|
    ensures transfers == FundTransfers(head, recipient, aux, head.balance.tokenCount)
  {
    transfers := [];
    for slot := 0 to head.balance.tokenCount
      invariant transfers == FundTransfers(head, recipient, aux, slot)
    {
      if head.fund.amounts[slot] != 0 {
        transfers := transfers + [Transfer(recipient, head.balance.tokenRegistry[slot], head.fund.amounts[slot], aux)];
      }
    }
  }

  predicate SamePlanFields(l: Plan, r: Plan) {
    && l.chainId == r.chainId
    && l.rollup == r.rollup
    && l.manager == r.manager
    && l.sourceChannelId == r.sourceChannelId
    && l.closeFreezeNonce == r.closeFreezeNonce
    && l.baseNonce == r.baseNonce
    && l.tokenFundsDigest == r.tokenFundsDigest
    && l.fundingAuxData == r.fundingAuxData
    && l.transfers == r.transfers
    && l.txV2 == r.txV2
    && l.txTreeRoot == r.txTreeRoot
    && l.planDigest == r.planDigest
  }

  predicate VerifyProposal(cr: Crypto, previous: ChannelState, signed: ChannelState, plan: Plan) {
    var built := BuildProposal(cr, previous, plan.chainId, plan.rollup, plan.manager, plan.baseNonce);
    && built.Ok?
    && SamePlanFields(built.value.plan, plan)
    && cr.canonicalRoot(plan.txTreeRoot)
    && cr.verifyTx(plan.proof, plan.txV2, plan.sourceChannelId, plan.txTreeRoot)
    && signed.digest == built.value.child.digest
    && cr.SigningDigest(signed) == built.value.child.digest
  }

  // ---------- when a proposal is built ----------

  // Some active token has funds.
  predicate Funded(head: ChannelState) {
    exists t :: 0 <= t < head.balance.tokenCount && t < |head.fund.amounts| && head.fund.amounts[t] != 0
  }

  // The head and the two addresses are as a close funding needs them.
  predicate Settled(cr: Crypto, head: ChannelState, rollup: Address, manager: Address) {
    && rollup != 0 && manager != 0
    && cr.balanceValid(head.balance) && head.balance.channelId == head.fund.channelId == head.channelId
    && head.digest == cr.stateDigest(head.(digest := 0, memberSignatures := [])) && head.h2Tag == 0
    && head.balance.tokenCount != 0 && head.balance.tokenCount <= |head.balance.tokenRegistry| == |head.fund.amounts|
    && forall t :: 0 <= t < |head.fund.amounts| && head.fund.amounts[t] != 0 ==> t < head.balance.tokenCount
  }

  // No counter the transition advances is exhausted.
  predicate Countable(head: ChannelState) {
    && head.closeFreezeNonce + 1 < U64_LIMIT && head.epoch + 1 < U64_LIMIT && head.smallBlockNumber + 1 < U64_LIMIT
    && head.balance.stateVersion + 1 < U64_LIMIT
  }

  /** A proposal is built exactly for a settled, funded head with room on its counters, whatever the base nonce. */
  lemma ProposalBuiltIff(cr: Crypto, head: ChannelState, chainId: u64, rollup: Address, manager: Address, nonce: u32)
    ensures
      var built := BuildProposal(cr, head, chainId, rollup, manager, nonce);
      && (built.Ok? <==> Settled(cr, head, rollup, manager) && Funded(head) && Countable(head))
      && (built == Err(CounterOverflow) <==>
            && Settled(cr, head, rollup, manager) && !Countable(head)
            && (head.closeFreezeNonce + 1 == U64_LIMIT || Funded(head)))
  {
    if Fundable(cr, head, rollup, manager) && head.closeFreezeNonce + 1 < U64_LIMIT {
      var aux := AuxData(cr, head, chainId, rollup, manager, head.closeFreezeNonce + 1);
      var ks := TransfersFollowSlots(head, cr.recipientOf(manager), aux, head.balance.tokenCount);
      assert ks != [] ==> head.fund.amounts[ks[0]] != 0;
    }
  }

  // These are the slots with funds, in ascending order, and the transfers are theirs one by one.
  ghost predicate FollowSlots(head: ChannelState, recipient: Bytes32, aux: Bytes32, slots: nat, ks: seq<nat>,
                              ts: seq<Transfer>)
    requires slots <= |head.balance.tokenRegistry| && slots <= |head.fund.amounts|
  {
    && |ts| == |ks|
    && (forall i, j :: 0 <= i < j < |ks| ==> ks[i] < ks[j])
    && (forall k :: k in ks <==> 0 <= k < slots && head.fund.amounts[k] != 0)
    && forall i :: 0 <= i < |ks| ==>
         && ks[i] < slots
         && ts[i] == Transfer(recipient, head.balance.tokenRegistry[ks[i]], head.fund.amounts[ks[i]], aux)
  }

  /** One transfer per active slot with funds, in slot order: its token, its whole amount, one recipient, one aux. */
  lemma {:induction false} TransfersFollowSlots(head: ChannelState, recipient: Bytes32, aux: Bytes32, slots: nat)
    returns (ks: seq<nat>)
    requires slots <= |head.balance.tokenRegistry| && slots <= |head.fund.amounts|
    ensures FollowSlots(head, recipient, aux, slots, ks, FundTransfers(head, recipient, aux, slots))
  {
    ks := [];
    if slots > 0 {
      ks := TransfersFollowSlots(head, recipient, aux, slots - 1);
      if head.fund.amounts[slots - 1] != 0 {
        ks := ks + [slots - 1];
      }
    }
  }

  // ---------- conservation ----------

  function TransferTotal(ts: seq<Transfer>, token: u32): nat {
    if ts == [] then 0
    else (if ts[|ts| - 1].tokenIndex == token then ts[|ts| - 1].amount else 0) + TransferTotal(ts[..|ts| - 1], token)
  }

  // The channel's funds denominated in one base token, over the first `slots` registry entries.
  function FundTotal(head: ChannelState, token: u32, slots: nat): nat
    requires slots <= |head.balance.tokenRegistry| && slots <= |head.fund.amounts|
  {
    if slots == 0 then 0
    else (if head.balance.tokenRegistry[slots - 1] == token then head.fund.amounts[slots - 1] else 0)
         + FundTotal(head, token, slots - 1)
  }

  lemma {:induction false} TransfersConserve(head: ChannelState, recipient: Bytes32, aux: Bytes32, slots: nat,
                                             token: u32)
    requires slots <= |head.balance.tokenRegistry| && slots <= |head.fund.amounts|
    ensures
      var ts := FundTransfers(head, recipient, aux, slots);
      && TransferTotal(ts, token) == FundTotal(head, token, slots)
      && forall t :: t in ts ==> t.recipient == recipient && t.auxData == aux && t.amount != 0
  {
    if slots > 0 {
      var before := FundTransfers(head, recipient, aux, slots - 1);
      TransfersConserve(head, recipient, aux, slots - 1, token);
      if head.fund.amounts[slots - 1] != 0 {
        var last := Transfer(recipient, head.balance.tokenRegistry[slots - 1], head.fund.amounts[slots - 1], aux);
        assert (before + [last])[..|before + [last]| - 1] == before;
      }
    }
  }

  /**
    An accepted plan is the canonical one in every field but its Merkle proof, which opens its own leaf;
    per base token it moves exactly the channel's active funds, all to the manager, under one authorization.
  */
  lemma AcceptedPlanIsCanonical(cr: Crypto, previous: ChannelState, signed: ChannelState, plan: Plan, token: u32)
    requires VerifyProposal(cr, previous, signed, plan)
    ensures
      var built := BuildProposal(cr, previous, plan.chainId, plan.rollup, plan.manager, plan.baseNonce);
      && built.Ok?
      && plan == built.value.plan.(proof := plan.proof)
      && cr.verifyTx(plan.proof, plan.txV2, previous.channelId, plan.txTreeRoot)
      && cr.SigningDigest(signed) == signed.digest == cr.SigningDigest(built.value.child)
    ensures previous.balance.tokenCount <= |previous.balance.tokenRegistry| == |previous.fund.amounts|
    ensures TransferTotal(plan.transfers, token) == FundTotal(previous, token, |previous.fund.amounts|)
    ensures forall t :: t in plan.transfers ==>
              t.recipient == cr.recipientOf(plan.manager) && t.auxData == plan.fundingAuxData && t.amount != 0
  {
    var built := BuildProposal(cr, previous, plan.chainId, plan.rollup, plan.manager, plan.baseNonce).value;
    TransfersConserve(previous, cr.recipientOf(plan.manager), plan.fundingAuxData, previous.balance.tokenCount, token);
    InactiveFundsAreZero(previous, token, |previous.fund.amounts|);
    assert built.child.Unsigned() == built.child.(digest := 0).Unsigned();
  }

  /**
    The gate accepts exactly the rebuilt canonical plan under some opening of its leaf, signed over the
    canonical child's digest.
  */
  lemma GateAcceptsExactlyCanonical(cr: Crypto, previous: ChannelState, signed: ChannelState, plan: Plan)
    ensures VerifyProposal(cr, previous, signed, plan) <==>
              && var built := BuildProposal(cr, previous, plan.chainId, plan.rollup, plan.manager, plan.baseNonce);
              && built.Ok? && plan == built.value.plan.(proof := plan.proof)
              && cr.canonicalRoot(plan.txTreeRoot)
              && cr.verifyTx(plan.proof, plan.txV2, previous.channelId, plan.txTreeRoot)
              && signed.digest == cr.SigningDigest(signed) == cr.SigningDigest(built.value.child)
  {
    var built := BuildProposal(cr, previous, plan.chainId, plan.rollup, plan.manager, plan.baseNonce);
    if built.Ok? {
      assert built.value.child.Unsigned() == built.value.child.(digest := 0).Unsigned();
    }
  }

  lemma {:induction false} InactiveFundsAreZero(head: ChannelState, token: u32, slots: nat)
    requires head.balance.tokenCount <= slots <= |head.balance.tokenRegistry| == |head.fund.amounts|
    requires forall t :: head.balance.tokenCount <= t < |head.fund.amounts| ==> head.fund.amounts[t] == 0
    ensures FundTotal(head, token, slots) == FundTotal(head, token, head.balance.tokenCount)
    decreases slots
  {
    if slots > head.balance.tokenCount {
      InactiveFundsAreZero(head, token, slots - 1);
    }
  }

  // The transaction tree opens the plan's own leaf under a canonical root.
  predicate OpensItsLeaf(cr: Crypto, plan: Plan) {
    cr.canonicalRoot(plan.txTreeRoot) && cr.verifyTx(plan.proof, plan.txV2, plan.sourceChannelId, plan.txTreeRoot)
  }

  /** The canonical proposal passes the gate it was built for, whenever its tree opens its own leaf. */
  lemma CanonicalProposalAccepted(cr: Crypto, head: ChannelState, chainId: u64, rollup: Address, manager: Address,
                                  baseNonce: u32)
    requires BuildProposal(cr, head, chainId, rollup, manager, baseNonce).Ok?
    requires OpensItsLeaf(cr, BuildProposal(cr, head, chainId, rollup, manager, baseNonce).value.plan)
    ensures
      var p := BuildProposal(cr, head, chainId, rollup, manager, baseNonce).value;
      VerifyProposal(cr, head, p.child, p.plan)
  {
    var p := BuildProposal(cr, head, chainId, rollup, manager, baseNonce).value;
    assert p.child.Unsigned() == p.child.(digest := 0).Unsigned();
  }

  /**
    An accepted plan is of the head's channel and next close era; its funds digest is the head's, and its
    authorization, transaction, root and digest are taken over the plan's own fields.
  */
  lemma AcceptedPlanBindsItself(cr: Crypto, previous: ChannelState, signed: ChannelState, plan: Plan)
    requires VerifyProposal(cr, previous, signed, plan)
    ensures plan.sourceChannelId == previous.channelId && plan.closeFreezeNonce == previous.closeFreezeNonce + 1
    ensures plan.tokenFundsDigest
            == cr.fundsDigest(previous.balance.tokenRegistry, previous.balance.tokenCount, previous.fund.amounts)
    ensures plan.fundingAuxData == cr.keccakWords(AuxOf(plan))
    ensures plan.planDigest == cr.keccakWords(PlanOf(plan))
    ensures plan.txV2 == TxV2(cr.transferRoot(plan.transfers), plan.baseNonce)
    ensures plan.txTreeRoot == cr.txRoot(plan.sourceChannelId, plan.txV2)
  {
  }

  predicate WordsCollide(cr: Crypto, s: seq<u32>, t: seq<u32>) {
    s != t && cr.keccakWords(s) == cr.keccakWords(t)
  }

  function AuxOf(p: Plan): seq<u32> {
    AuxWords(p.chainId, p.rollup, p.manager, p.sourceChannelId, p.closeFreezeNonce, p.tokenFundsDigest)
  }

  function PlanOf(p: Plan): seq<u32> {
    PlanWords(p.chainId, p.rollup, p.manager, p.sourceChannelId, p.closeFreezeNonce, p.baseNonce, p.tokenFundsDigest,
              p.txTreeRoot)
  }

  // The two plans authorize the same funding of the same channel.
  predicate SameAuthority(a: Plan, b: Plan) {
    && a.chainId == b.chainId && a.rollup == b.rollup && a.manager == b.manager
    && a.sourceChannelId == b.sourceChannelId && a.closeFreezeNonce == b.closeFreezeNonce
    && a.tokenFundsDigest == b.tokenFundsDigest
  }

  /**
    An authorization or a plan digest determines what was authorized, and neither passes for the other: two
    accepted plans that share one agree on everything it packs, or their own preimages are a hash collision.
  */
  lemma EqualDigestEqualPlan(cr: Crypto, p1: ChannelState, s1: ChannelState, a: Plan,
                             p2: ChannelState, s2: ChannelState, b: Plan)
    requires VerifyProposal(cr, p1, s1, a) && VerifyProposal(cr, p2, s2, b)
    ensures a.fundingAuxData == b.fundingAuxData ==> SameAuthority(a, b) || WordsCollide(cr, AuxOf(a), AuxOf(b))
    ensures a.planDigest == b.planDigest ==>
              || (SameAuthority(a, b) && a.baseNonce == b.baseNonce && a.txTreeRoot == b.txTreeRoot)
              || WordsCollide(cr, PlanOf(a), PlanOf(b))
    ensures a.planDigest == b.fundingAuxData ==> WordsCollide(cr, PlanOf(a), AuxOf(b))
  {
    AcceptedPlanBindsItself(cr, p1, s1, a);
    AcceptedPlanBindsItself(cr, p2, s2, b);
    PreimagesLayout(a);
    PreimagesLayout(b);
  }

  lemma PreimagesLayout(p: Plan)
    ensures |AuxOf(p)| == 30 && |PlanOf(p)| == 39
    ensures Spells(AuxOf(p), p.chainId, p.rollup, p.manager, p.sourceChannelId, p.closeFreezeNonce)
    ensures Spells(PlanOf(p), p.chainId, p.rollup, p.manager, p.sourceChannelId, p.closeFreezeNonce)
    ensures FromLimbs(AuxOf(p)[22..30]) == p.tokenFundsDigest == FromLimbs(PlanOf(p)[23..31])
    ensures PlanOf(p)[22] == p.baseNonce && FromLimbs(PlanOf(p)[31..39]) == p.txTreeRoot
  {
    AuxWordsLayout(p.chainId, p.rollup, p.manager, p.sourceChannelId, p.closeFreezeNonce, p.tokenFundsDigest);
    PlanWordsLayout(p.chainId, p.rollup, p.manager, p.sourceChannelId, p.closeFreezeNonce, p.baseNonce,
                    p.tokenFundsDigest, p.txTreeRoot);
  }

  // Two states with different signed content and one digest.
  predicate StatesCollide(cr: Crypto, s: ChannelState, t: ChannelState) {
    s.Unsigned() != t.Unsigned() && cr.SigningDigest(s) == cr.SigningDigest(t)
  }

  // The canonical terminal child: one step on every counter, committing to the plan's root, with the authorization
  // pushed on the settled chain; funds, balances, keys, registry and the rest of the signed content unchanged.
  predicate CanonicalChild(cr: Crypto, previous: ChannelState, child: ChannelState, plan: Plan) {
    && child.prevDigest == previous.digest && child.h2Tag == plan.txTreeRoot
    && child.epoch == previous.epoch + 1 && child.smallBlockNumber == previous.smallBlockNumber + 1
    && child.balance.stateVersion == previous.balance.stateVersion + 1
    && child.closeFreezeNonce == previous.closeFreezeNonce == plan.closeFreezeNonce - 1
    && child.balance.settledTxChain == cr.pushSettled(previous.balance.settledTxChain, plan.fundingAuxData)
    && child.channelId == child.fund.channelId == child.balance.channelId == previous.channelId == plan.sourceChannelId
    && child.fund == previous.fund && child.unallocated == previous.unallocated && child.rest == previous.rest
    && SameBalances(previous.balance, child.balance)
  }

  predicate SameBalances(a: BalanceState, b: BalanceState) {
    && (b.memberCount, b.delegateCount, b.tokenCount, b.rest) == (a.memberCount, a.delegateCount, a.tokenCount, a.rest)
    && b.encBalances == a.encBalances && b.regevPkDigests == a.regevPkDigests && b.tokenRegistry == a.tokenRegistry
  }

  /**
    Any signed state the gate accepts is the canonical child of the head, or it and the rebuilt child are a
    digest collision.
  */
  lemma AcceptedChildExtendsHead(cr: Crypto, previous: ChannelState, signed: ChannelState, plan: Plan)
    requires VerifyProposal(cr, previous, signed, plan)
    ensures
      var built := BuildProposal(cr, previous, plan.chainId, plan.rollup, plan.manager, plan.baseNonce);
      && built.Ok? && CanonicalChild(cr, previous, built.value.child, plan)
      && (CanonicalChild(cr, previous, signed, plan) || StatesCollide(cr, signed, built.value.child))
  {
    var child := BuildProposal(cr, previous, plan.chainId, plan.rollup, plan.manager, plan.baseNonce).value.child;
    assert child.Unsigned() == child.(digest := 0).Unsigned();
    if signed.Unsigned() == child.Unsigned() {
      assert signed == child.(digest := signed.digest, memberSignatures := signed.memberSignatures);
    }
  }
}
