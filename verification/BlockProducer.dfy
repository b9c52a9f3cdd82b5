/**
  The keyless block producer: per-channel heads, base nonces and terminal flags, and the journal actions that move
  them.
*/
module BlockProducer {
  import opened Wrappers
  import opened MachineWords
  import opened ChannelTypes
  import opened CloseFunding
  import opened DelegateJoin

  // The block witness generator's state, as its canonical encoding.
  type Witness = nat

  // Fields named `rest` stand for content the producer hands on without reading.
  datatype Snapshot = Snapshot(record: ChannelRecord, state: ChannelState, rest: nat)

  datatype DepositRequest = DepositRequest(depositIndex: u64, recipient: Bytes32, rest: nat, expectedChain: Bytes32)

  datatype SmallBlockMessage = SmallBlockMessage(
    channelId: ChannelId, smallBlockNumber: u64, closeFreezeNonce: u64, txTreeRoot: Bytes32,
    stateCommitmentRoot: Bytes32)

  // A transfer as its sender authorized it; the co-signatures attached later are not part of it.
  datatype InterTx = InterTx(sourceChannelId: ChannelId, baseNonce: u32, txHash: Bytes32, message: SmallBlockMessage,
                             rest: nat)

  datatype DebitPayload = DebitPayload(proposed: ChannelState, tx: InterTx, amount: u64, record: ChannelRecord,
                                       rest: nat)

  datatype Descriptor = Descriptor(
    sourceChannelId: ChannelId, tx: InterTx, amount: u64, txHash: Bytes32, txV2: TxV2, txTreeRoot: Bytes32,
    proof: MerkleProof, rest: nat)

  // The one active slot of a block's transaction witness.
  datatype BlockTx = BlockTx(index: ChannelId, tx: TxV2, proof: MerkleProof, memberSetUpdate: bool)

  datatype CosignMode = Verified | UnsignedStaging

  // Signatures, digests and the witness generator: deterministic functions, of which nothing is assumed.
  datatype Env = Env(
    cr: Crypto,
    falcon: (Bytes32, Bytes32, nat) -> bool,
    recordDigest: ChannelRecord -> Bytes32,
    snapshotAnchored: Snapshot -> bool,
    txDigest: InterTx -> Bytes32,
    canonicalTx: (InterTx, u64) -> Option<(TxV2, Bytes32)>,
    sameTransfer: (DebitPayload, Descriptor) -> bool,
    openedRoot: (MerkleProof, TxV2, ChannelId) -> Bytes32,
    h1: BalanceState -> Bytes32,
    attachStable: (InterTx, seq<MemberSignature>) -> bool,
    genesis: Witness,
    lastTimestamp: Witness -> u64,
    depositCount: Witness -> u64,
    depositChain: Witness -> Bytes32,
    servesOneChannel: Witness -> bool,
    holdsKeys: Witness -> bool,
    addRegistration: (Witness, Snapshot, u64) -> Option<Witness>,
    addDeposit: (Witness, DepositRequest, u64) -> Option<Witness>,
    sealedAs: (Witness, DepositRequest) -> bool,
    addBlock: (Witness, ChannelState, CosignMode, u64, BlockTx) -> Option<Witness>)

  datatype Producer = Producer(
    witness_: Witness, records: map<ChannelId, ChannelRecord>, heads: map<ChannelId, ChannelState>,
    nonces: map<ChannelId, u32>, acceptedTxs: set<Bytes32>, terminal: set<ChannelId>)

  datatype Action =
    | Register(snapshot: Snapshot, timestamp: u64)
    | PostDeposit(deposit: DepositRequest, timestamp: u64)
    | SyncOffchainHeads(states: seq<ChannelState>, timestamp: u64)
    | PostInterChannel(signed: ChannelState, debit: DebitPayload, descriptor: Descriptor, timestamp: u64)
    | PostCloseFunding(signed: ChannelState, plan: Plan, timestamp: u64)
    | StagedExitKit(proposed: ChannelState, debit: DebitPayload, descriptor: Descriptor, timestamp: u64)
    | AdoptDelegateJoin(record: ChannelRecord, signed: ChannelState, timestamp: u64)
    | PostMemberSetUpdate(rest: nat, timestamp: u64)

  function GenesisOn(w: Witness): Producer { Producer(w, map[], map[], map[], {}, {}) }

  function Genesis(env: Env): Producer { GenesisOn(env.genesis) }

  // ---------- N-of-N authorization ----------

  // The first signature carried for a slot.
  function SignatureAt(sigs: seq<MemberSignature>, slot: nat): Option<MemberSignature> {
    if sigs == [] then None else if sigs[0].memberSlot == slot then Some(sigs[0]) else SignatureAt(sigs[1..], slot)
  }

  predicate SlotSigned(env: Env, record: ChannelRecord, state: ChannelState, slot: nat)
    requires slot < record.memberCount
  {
    var sig := SignatureAt(state.memberSignatures, slot);
    && sig.Some? && sig.value.pkG == record.memberPks[slot]
    && env.falcon(record.memberPks[slot], env.cr.SigningDigest(state), sig.value.signature)
  }

  // Every co-signer of the record signed this state's own digest.
  predicate AllSigned(env: Env, record: ChannelRecord, state: ChannelState) {
    && state.digest == env.cr.SigningDigest(state)
    && forall slot :: 0 <= slot < record.memberCount ==> SlotSigned(env, record, state, slot)
  }

  predicate OwnIds(state: ChannelState, c: ChannelId) {
    state.channelId == c && state.fund.channelId == c && state.balance.channelId == c
  }

  // ---------- journal actions ----------

  predicate SnapshotVerified(env: Env, s: Snapshot) {
    && OwnIds(s.state, s.record.channelId)
    && s.record.memberCount == s.state.balance.memberCount && s.record.delegateCount == s.state.balance.delegateCount
    && env.snapshotAnchored(s)
    && AllSigned(env, s.record, s.state)
  }

  function Registered(env: Env, p: Producer, s: Snapshot, timestamp: u64): Option<Producer> {
    var c := s.record.channelId;
    if !SnapshotVerified(env, s) || c in p.records then None
    else
      match env.addRegistration(p.witness_, s, timestamp)
      case None => None
      case Some(w) =>
        if env.holdsKeys(w) then None
        else Some(p.(witness_ := w, records := p.records[c := s.record], heads := p.heads[c := s.state]))
  }

  function Deposited(env: Env, p: Producer, d: DepositRequest, timestamp: u64): Option<Producer> {
    if d.recipient == 0 || d.depositIndex != env.depositCount(p.witness_)
       || timestamp <= env.lastTimestamp(p.witness_)
    then None
    else
      match env.addDeposit(p.witness_, d, timestamp)
      case None => None
      case Some(w) =>
        if !env.sealedAs(w, d) || env.depositChain(w) != d.expectedChain || env.holdsKeys(w) then None
        else Some(p.(witness_ := w))
  }

  // One off-chain state on top of the committed head: no block root, contiguous counters, same close era.
  predicate FollowsOffchain(c: ChannelId, previous: ChannelState, state: ChannelState) {
    && OwnIds(state, c)
    && state.h2Tag == 0
    && previous.epoch + 1 < U64_LIMIT && previous.balance.stateVersion + 1 < U64_LIMIT
    && previous.smallBlockNumber + 1 < U64_LIMIT
    && ExtendsHead(previous, state)
    && previous.smallBlockNumber <= state.smallBlockNumber <= previous.smallBlockNumber + 1
  }

  predicate ExtendsOffchain(env: Env, record: ChannelRecord, c: ChannelId, previous: ChannelState,
                            state: ChannelState) {
    AllSigned(env, record, state) && FollowsOffchain(c, previous, state)
  }

  function Before(head: ChannelState, states: seq<ChannelState>, i: nat): ChannelState
    requires i <= |states|
  {
    if i == 0 then head else states[i - 1]
  }

  predicate OffchainChain(env: Env, record: ChannelRecord, c: ChannelId, head: ChannelState,
                          states: seq<ChannelState>) {
    forall i {:trigger Before(head, states, i)} :: 0 <= i < |states| ==>
      ExtendsOffchain(env, record, c, Before(head, states, i), states[i])
  }

  function Synced(env: Env, p: Producer, states: seq<ChannelState>): Option<Producer> {
    if states == [] then None
    else
      var c := states[0].channelId;
      if c in p.terminal || c !in p.records || c !in p.heads then None
      else if !OffchainChain(env, p.records[c], c, p.heads[c], states) || env.holdsKeys(p.witness_) then None
      else Some(p.(heads := p.heads[c := states[|states| - 1]]))
  }

  predicate ExtendsOnBlock(previous: ChannelState, state: ChannelState) {
    && previous.epoch + 1 < U64_LIMIT && previous.balance.stateVersion + 1 < U64_LIMIT
    && previous.smallBlockNumber + 1 < U64_LIMIT
    && ExtendsHead(previous, state)
    && state.smallBlockNumber == previous.smallBlockNumber + 1
  }

  // The block-level fence: authorization, root binding, ids, time, and the committed head when there is one.
  predicate CosignAdmitted(env: Env, p: Producer, s: ChannelState, timestamp: u64, root: Bytes32, tx: BlockTx,
                           mode: CosignMode) {
    var c := s.channelId;
    && !tx.memberSetUpdate
    && c !in p.terminal && c in p.records
    && (match mode
        case Verified => AllSigned(env, p.records[c], s)
        case UnsignedStaging => s.digest == env.cr.SigningDigest(s))
    && root != 0 && s.h2Tag == root
    && OwnIds(s, c)
    && timestamp > env.lastTimestamp(p.witness_)
    && (c in p.heads ==> ExtendsOnBlock(p.heads[c], s))
  }

  function Cosigned(env: Env, p: Producer, s: ChannelState, timestamp: u64, root: Bytes32, tx: BlockTx,
                    mode: CosignMode)
    : Option<Producer> {
    if !CosignAdmitted(env, p, s, timestamp, root, tx, mode) then None
    else
      match env.addBlock(p.witness_, s, mode, timestamp, tx)
      case None => None
      case Some(w) => Some(p.(witness_ := w, heads := p.heads[s.channelId := s]))
  }

  predicate SmallBlockBound(env: Env, record: ChannelRecord, s: ChannelState, tx: InterTx) {
    && tx.sourceChannelId == record.channelId == tx.message.channelId
    && tx.message.smallBlockNumber == s.smallBlockNumber
    && tx.message.closeFreezeNonce == s.closeFreezeNonce
    && s.h2Tag != 0 && s.h2Tag == tx.message.txTreeRoot
    && env.h1(s.balance) == tx.message.stateCommitmentRoot
  }

  function InterChannelBlock(env: Env, p: Producer, s: ChannelState, tx: InterTx, timestamp: u64, slot: BlockTx,
                             mode: CosignMode)
    : Option<Producer> {
    var c := tx.sourceChannelId;
    if c !in p.records || !SmallBlockBound(env, p.records[c], s, tx) then None
    else if mode.Verified? && !(AllSigned(env, p.records[c], s) && env.attachStable(tx, s.memberSignatures)) then None
    else Cosigned(env, p, s, timestamp, tx.message.txTreeRoot, slot, mode)
  }

  // The next base-account nonce; None once the counter is exhausted.
  function NextNonce(p: Producer, c: ChannelId): Option<u32> {
    if c !in p.nonces then Some(0)
    else if p.nonces[c] + 1 < U32_LIMIT then Some(p.nonces[c] + 1) else None
  }

  // The descriptor restates the debit the source co-signers verified; `sameTransfer` compares the rest of it.
  predicate DescriptorMatches(env: Env, debit: DebitPayload, d: Descriptor) {
    && d.amount == debit.amount
    && env.txDigest(d.tx) == env.txDigest(debit.tx)
    && d.sourceChannelId == debit.tx.sourceChannelId && d.txHash == debit.tx.txHash && env.sameTransfer(debit, d)
    && env.canonicalTx(debit.tx, debit.amount) == Some((d.txV2, d.txTreeRoot))
    && debit.tx.message.txTreeRoot == d.txTreeRoot
  }

  predicate DescriptorAdmitted(env: Env, p: Producer, s: ChannelState, debit: DebitPayload, d: Descriptor) {
    && d.sourceChannelId !in p.terminal
    && DescriptorMatches(env, debit, d)
    && debit.proposed.digest == s.digest
    && d.sourceChannelId in p.records
    && env.recordDigest(debit.record) == env.recordDigest(p.records[d.sourceChannelId])
    && env.openedRoot(d.proof, d.txV2, d.sourceChannelId) == d.txTreeRoot
    && d.txHash !in p.acceptedTxs
    && NextNonce(p, d.sourceChannelId) == Some(d.tx.baseNonce)
    && env.servesOneChannel(p.witness_)
  }

  function DescriptorSent(env: Env, p: Producer, s: ChannelState, debit: DebitPayload, d: Descriptor, timestamp: u64,
                          mode: CosignMode): Option<Producer> {
    if !DescriptorAdmitted(env, p, s, debit, d) then None
    else
      match InterChannelBlock(env, p, s, d.tx, timestamp, BlockTx(d.sourceChannelId, d.txV2, d.proof, false), mode)
      case None => None
      case Some(q) =>
        Some(q.(acceptedTxs := q.acceptedTxs + {d.txHash},
                nonces := q.nonces[d.sourceChannelId := d.tx.baseNonce]))
  }

  predicate CloseFundingAdmitted(env: Env, p: Producer, s: ChannelState, plan: Plan) {
    var c := plan.sourceChannelId;
    && c !in p.terminal && c in p.heads
    && VerifyProposal(env.cr, p.heads[c], s, plan)
    && NextNonce(p, c) == Some(plan.baseNonce)
    && env.servesOneChannel(p.witness_)
  }

  function CloseFunded(env: Env, p: Producer, s: ChannelState, plan: Plan, timestamp: u64): Option<Producer> {
    var c := plan.sourceChannelId;
    if !CloseFundingAdmitted(env, p, s, plan) then None
    else
      match Cosigned(env, p, s, timestamp, plan.txTreeRoot, BlockTx(c, plan.txV2, plan.proof, false), Verified)
      case None => None
      case Some(q) => Some(q.(nonces := q.nonces[c := plan.baseNonce], terminal := q.terminal + {c}))
  }

  function Joined(env: Env, p: Producer, record: ChannelRecord, s: ChannelState): Option<Producer> {
    var c := record.channelId;
    if c !in p.records then None
    else if env.recordDigest(p.records[c]) == env.recordDigest(record) then Some(p)
    else if !DelegatesAppended(p.records[c], record) || c !in p.heads then None
    else if s.channelId != c || s.digest != p.heads[c].digest then None
    else if s.balance.memberCount != record.memberCount || s.balance.delegateCount != record.delegateCount then None
    else if !AllSigned(env, record, s) then None
    else Some(p.(records := p.records[c := record]))
  }

  function Apply(env: Env, p: Producer, a: Action): Option<Producer> {
    match a
    case Register(s, t) => Registered(env, p, s, t)
    case PostDeposit(d, t) => Deposited(env, p, d, t)
    case SyncOffchainHeads(states, _) => Synced(env, p, states)
    case PostInterChannel(s, debit, d, t) => DescriptorSent(env, p, s, debit, d, t, Verified)
    case PostCloseFunding(s, plan, t) => CloseFunded(env, p, s, plan, t)
    case StagedExitKit(s, debit, d, t) => DescriptorSent(env, p, s, debit, d, t, UnsignedStaging)
    case AdoptDelegateJoin(record, s, _) => Joined(env, p, record, s)
    case PostMemberSetUpdate(_, _) => None
  }

  // The producer after a run of accepted actions; None as soon as one is refused.
  function Run(env: Env, actions: seq<Action>): Option<Producer> {
    if actions == [] then Some(Genesis(env))
    else
      match Run(env, actions[..|actions| - 1])
      case None => None
      case Some(p) => Apply(env, p, actions[|actions| - 1])
  }

  // ---------- the imperative producer ----------

  class ProductionBlockProducer {
    const env: Env
    var witness_: Witness
    var channelRecords: map<ChannelId, ChannelRecord>
    var channelHeads: map<ChannelId, ChannelState>
    var acceptedBaseNonces: map<ChannelId, u32>
    var acceptedInterChannelTxs: set<Bytes32>
    var terminalCloseFunding: set<ChannelId>

    ghost function Model(): Producer
      reads this
    {
      Producer(witness_, channelRecords, channelHeads, acceptedBaseNonces, acceptedInterChannelTxs,
               terminalCloseFunding)
    }

    constructor (env: Env)
      ensures this.env == env && Model() == Genesis(env)
    {
      this.env := env;
      witness_, channelRecords, channelHeads := env.genesis, map[], map[];
      acceptedBaseNonces, acceptedInterChannelTxs, terminalCloseFunding := map[], {}, {};
    }

    constructor Clone(of: ProductionBlockProducer)
      ensures env == of.env && Model() == of.Model()
    {
      env := of.env;
      witness_, channelRecords, channelHeads := of.witness_, of.channelRecords, of.channelHeads;
      acceptedBaseNonces, acceptedInterChannelTxs := of.acceptedBaseNonces, of.acceptedInterChannelTxs;
      terminalCloseFunding := of.terminalCloseFunding;
    }

    // Replace the whole producer by a finished candidate.
    method Commit(candidate: ProductionBlockProducer)
      modifies this
      ensures Model() == old(candidate.Model())
    {
      witness_, channelRecords, channelHeads := candidate.witness_, candidate.channelRecords, candidate.channelHeads;
      acceptedBaseNonces, acceptedInterChannelTxs := candidate.acceptedBaseNonces, candidate.acceptedInterChannelTxs;
      terminalCloseFunding := candidate.terminalCloseFunding;
    }

    // The outcome of one request: the specified producer when it is accepted, and nothing changed when it is not.
    twostate predicate Answers(ok: bool, spec: Option<Producer>)
      reads this
    {
      && ok == spec.Some?
      && Model() == if spec.Some? then spec.value else old(Model())
    }

    method VerifyAllSignatures(record: ChannelRecord, state: ChannelState) returns (ok: bool)
      ensures ok == AllSigned(env, record, state)
    {
      if state.digest != env.cr.SigningDigest(state) {
        return false;
      }
      for slot := 0 to record.memberCount
        invariant forall k :: 0 <= k < slot ==> SlotSigned(env, record, state, k)
      {
        if !SlotSigned(env, record, state, slot) {
          return false;
        }
      }
      return true;
    }

    method RegisterSnapshot(s: Snapshot, timestamp: u64) returns (ok: bool)
      modifies this
      ensures Answers(ok, Registered(env, old(Model()), s, timestamp))
    {
      var c := s.record.channelId;
      var signed := VerifyAllSignatures(s.record, s.state);
      if !signed || !OwnIds(s.state, c) || !env.snapshotAnchored(s)
         || s.record.memberCount != s.state.balance.memberCount
         || s.record.delegateCount != s.state.balance.delegateCount
         || c in channelRecords
      {
        return false;
      }
      var candidate := new ProductionBlockProducer.Clone(this);
      var added := env.addRegistration(candidate.witness_, s, timestamp);
      if added.None? {
        return false;
      }
      candidate.witness_ := added.value;
      candidate.channelRecords := candidate.channelRecords[c := s.record];
      candidate.channelHeads := candidate.channelHeads[c := s.state];
      if env.holdsKeys(candidate.witness_) {
        return false;
      }
      Commit(candidate);
      return true;
    }

    method ProduceDepositBlock(d: DepositRequest, timestamp: u64) returns (ok: bool)
      modifies this
      ensures Answers(ok, Deposited(env, old(Model()), d, timestamp))
    {
      if d.recipient == 0 || d.depositIndex != env.depositCount(witness_) || timestamp <= env.lastTimestamp(witness_) {
        return false;
      }
      var candidate := new ProductionBlockProducer.Clone(this);
      var added := env.addDeposit(candidate.witness_, d, timestamp);
      if added.None? {
        return false;
      }
      candidate.witness_ := added.value;
      if !env.sealedAs(candidate.witness_, d) || env.depositChain(candidate.witness_) != d.expectedChain
         || env.holdsKeys(candidate.witness_)
      {
        return false;
      }
      Commit(candidate);
      return true;
    }

    /** Walk the signed states, each on top of the one before, and only then move the head. */
    method SyncOffchainHeads(states: seq<ChannelState>) returns (ok: bool)
      modifies this
      ensures Answers(ok, Synced(env, old(Model()), states))
    {
      if states == [] {
        return false;
      }
      var c := states[0].channelId;
      if c in terminalCloseFunding || c !in channelRecords || c !in channelHeads {
        return false;
      }
      var record, head := channelRecords[c], channelHeads[c];
      var previous := head;
      for offset := 0 to |states|
        invariant previous == Before(head, states, offset)
        invariant forall i {:trigger Before(head, states, i)} :: 0 <= i < offset ==>
                    ExtendsOffchain(env, record, c, Before(head, states, i), states[i])
        invariant Model() == old(Model())
      {
        var signed := VerifyAllSignatures(record, states[offset]);
        if !signed || !FollowsOffchain(c, previous, states[offset]) {
          return false;
        }
        previous := states[offset];
      }
      if env.holdsKeys(witness_) {
        return false;
      }
      channelHeads := channelHeads[c := previous];
      return true;
    }

    method ProduceCosignedBlock(s: ChannelState, timestamp: u64, root: Bytes32, tx: BlockTx, mode: CosignMode)
      returns (ok: bool)
      modifies this
      ensures Answers(ok, Cosigned(env, old(Model()), s, timestamp, root, tx, mode))
    {
      var c := s.channelId;
      if tx.memberSetUpdate || c in terminalCloseFunding || c !in channelRecords {
        return false;
      }
      if mode.Verified? {
        var signed := VerifyAllSignatures(channelRecords[c], s);
        if !signed {
          return false;
        }
      } else if s.digest != env.cr.SigningDigest(s) {
        return false;
      }
      if root == 0 || s.h2Tag != root || s.fund.channelId != c || s.balance.channelId != c
         || timestamp <= env.lastTimestamp(witness_)
      {
        return false;
      }
      if c in channelHeads && !ExtendsOnBlock(channelHeads[c], s) {
        return false;
      }
      var added := env.addBlock(witness_, s, mode, timestamp, tx);
      if added.None? {
        return false;
      }
      witness_ := added.value;
      channelHeads := channelHeads[c := s];
      return true;
    }

    method ProduceInterChannelBlock(s: ChannelState, tx: InterTx, timestamp: u64, slot: BlockTx, mode: CosignMode)
      returns (ok: bool)
      modifies this
      ensures Answers(ok, InterChannelBlock(env, old(Model()), s, tx, timestamp, slot, mode))
    {
      if tx.sourceChannelId !in channelRecords {
        return false;
      }
      var record := channelRecords[tx.sourceChannelId];
      if mode.Verified? {
        var signed := VerifyAllSignatures(record, s);
        if !signed || !env.attachStable(tx, s.memberSignatures) {
          return false;
        }
      }
      if tx.sourceChannelId != record.channelId || tx.message.channelId != record.channelId
         || tx.message.smallBlockNumber != s.smallBlockNumber || tx.message.closeFreezeNonce != s.closeFreezeNonce
         || s.h2Tag == 0 || s.h2Tag != tx.message.txTreeRoot || env.h1(s.balance) != tx.message.stateCommitmentRoot
      {
        return false;
      }
      ok := ProduceCosignedBlock(s, timestamp, tx.message.txTreeRoot, slot, mode);
    }

    method ExpectedNonce(c: ChannelId) returns (nonce: Option<u32>)
      ensures nonce == NextNonce(Model(), c)
    {
      if c !in acceptedBaseNonces {
        return Some(0);
      }
      if acceptedBaseNonces[c] + 1 >= U32_LIMIT {
        return None;
      }
      return Some(acceptedBaseNonces[c] + 1);
    }

    method ProduceDescriptorBlock(s: ChannelState, debit: DebitPayload, d: Descriptor, timestamp: u64, mode: CosignMode)
      returns (ok: bool)
      modifies this
      ensures Answers(ok, DescriptorSent(env, old(Model()), s, debit, d, timestamp, mode))
    {
      var c := d.sourceChannelId;
      if c in terminalCloseFunding || !DescriptorMatches(env, debit, d) || debit.proposed.digest != s.digest
         || c !in channelRecords || env.recordDigest(debit.record) != env.recordDigest(channelRecords[c])
         || env.openedRoot(d.proof, d.txV2, c) != d.txTreeRoot || d.txHash in acceptedInterChannelTxs
      {
        return false;
      }
      var expected := ExpectedNonce(c);
      if expected != Some(d.tx.baseNonce) || !env.servesOneChannel(witness_) {
        return false;
      }
      assert DescriptorAdmitted(env, Model(), s, debit, d);
      var candidate := new ProductionBlockProducer.Clone(this);
      ok := candidate.ProduceInterChannelBlock(s, d.tx, timestamp, BlockTx(c, d.txV2, d.proof, false), mode);
      if ok {
        candidate.acceptedInterChannelTxs := candidate.acceptedInterChannelTxs + {d.txHash};
        candidate.acceptedBaseNonces := candidate.acceptedBaseNonces[c := d.tx.baseNonce];
        Commit(candidate);
      }
    }

    method ProduceCloseFundingBlock(s: ChannelState, plan: Plan, timestamp: u64) returns (ok: bool)
      modifies this
      ensures Answers(ok, CloseFunded(env, old(Model()), s, plan, timestamp))
    {
      var c := plan.sourceChannelId;
      if c in terminalCloseFunding || c !in channelHeads || !VerifyProposal(env.cr, channelHeads[c], s, plan) {
        return false;
      }
      var expected := ExpectedNonce(c);
      if expected != Some(plan.baseNonce) || !env.servesOneChannel(witness_) {
        return false;
      }
      assert CloseFundingAdmitted(env, Model(), s, plan);
      var candidate := new ProductionBlockProducer.Clone(this);
      var slot := BlockTx(c, plan.txV2, plan.proof, false);
      ok := candidate.ProduceCosignedBlock(s, timestamp, plan.txTreeRoot, slot, Verified);
      if ok {
        candidate.acceptedBaseNonces := candidate.acceptedBaseNonces[c := plan.baseNonce];
        candidate.terminalCloseFunding := candidate.terminalCloseFunding + {c};
        Commit(candidate);
      }
    }

    method AdoptDelegateJoin(record: ChannelRecord, s: ChannelState) returns (ok: bool)
      modifies this
      ensures Answers(ok, Joined(env, old(Model()), record, s))
    {
      var c := record.channelId;
      if c !in channelRecords {
        return false;
      }
      if env.recordDigest(channelRecords[c]) == env.recordDigest(record) {
        return true;
      }
      var appended := VerifyDelegatesAppended(channelRecords[c], record);
      if !appended || c !in channelHeads || s.channelId != c || s.digest != channelHeads[c].digest {
        return false;
      }
      if s.balance.memberCount != record.memberCount || s.balance.delegateCount != record.delegateCount {
        return false;
      }
      var signed := VerifyAllSignatures(record, s);
      if !signed {
        return false;
      }
      channelRecords := channelRecords[c := record];
      return true;
    }

    /** One journal action, dispatched to its producer call. */
    method ApplyAction(a: Action) returns (ok: bool)
      modifies this
      ensures Answers(ok, Apply(env, old(Model()), a))
    {
      match a
      case Register(s, t) => ok := RegisterSnapshot(s, t);
      case PostDeposit(d, t) => ok := ProduceDepositBlock(d, t);
      case SyncOffchainHeads(states, _) => ok := this.SyncOffchainHeads(states);
      case PostInterChannel(s, debit, d, t) => ok := ProduceDescriptorBlock(s, debit, d, t, Verified);
      case PostCloseFunding(s, plan, t) => ok := ProduceCloseFundingBlock(s, plan, t);
      case StagedExitKit(s, debit, d, t) => ok := ProduceDescriptorBlock(s, debit, d, t, UnsignedStaging);
      case AdoptDelegateJoin(record, s, _) => ok := this.AdoptDelegateJoin(record, s);
      case PostMemberSetUpdate(_, _) => ok := false;
    }
  }
}
