/**
  Exactly which actions the producer accepts after a run, read off the actions of the run, and what an accepted
  action proves about the states and blocks it adds.
*/
module ProducerAdmission {
  import opened Wrappers
  import opened MachineWords
  import opened ChannelTypes
  import opened CloseFunding
  import opened DelegateJoin
  import opened BlockProducer
  import opened ProducerHistory

  // ---------- signatures ----------

  // Signature j is the first one carried for the slot: the registered key's, over the state's signed content.
  predicate SignsAt(env: Env, record: ChannelRecord, s: ChannelState, slot: nat, j: nat)
    requires slot < record.memberCount && j < |s.memberSignatures|
  {
    && s.memberSignatures[j].memberSlot == slot && s.memberSignatures[j].pkG == record.memberPks[slot]
    && (forall i :: 0 <= i < j ==> s.memberSignatures[i].memberSlot != slot)
    && env.falcon(record.memberPks[slot], env.cr.stateDigest(s.(digest := 0, memberSignatures := [])),
                  s.memberSignatures[j].signature)
  }

  ghost predicate SlotFilled(env: Env, record: ChannelRecord, s: ChannelState, slot: nat)
    requires slot < record.memberCount
  {
    exists j :: 0 <= j < |s.memberSignatures| && SignsAt(env, record, s, slot, j)
  }

  ghost predicate FullySigned(env: Env, record: ChannelRecord, s: ChannelState) {
    && s.digest == env.cr.stateDigest(s.(digest := 0, memberSignatures := []))
    && forall slot :: 0 <= slot < record.memberCount ==> SlotFilled(env, record, s, slot)
  }

  lemma {:induction false} FirstSignature(sigs: seq<MemberSignature>, slot: nat)
    ensures SignatureAt(sigs, slot).None? ==> forall i :: 0 <= i < |sigs| ==> sigs[i].memberSlot != slot
    ensures SignatureAt(sigs, slot).Some? ==>
              exists j :: 0 <= j < |sigs| && SignatureAt(sigs, slot) == Some(sigs[j]) && sigs[j].memberSlot == slot
                          && forall i :: 0 <= i < j ==> sigs[i].memberSlot != slot
  {
    if sigs != [] && sigs[0].memberSlot != slot {
      FirstSignature(sigs[1..], slot);
      if SignatureAt(sigs, slot).Some? {
        var j :| 0 <= j < |sigs[1..]| && SignatureAt(sigs[1..], slot) == Some(sigs[1..][j])
                 && sigs[1..][j].memberSlot == slot && forall i :: 0 <= i < j ==> sigs[1..][i].memberSlot != slot;
        assert sigs[j + 1] == sigs[1..][j];
        forall i | 0 <= i < j + 1 ensures sigs[i].memberSlot != slot {
          assert i > 0 ==> sigs[i] == sigs[1..][i - 1];
        }
      } else {
        forall i | 0 <= i < |sigs| ensures sigs[i].memberSlot != slot {
          assert i > 0 ==> sigs[i] == sigs[1..][i - 1];
        }
      }
    }
  }

  lemma SlotSignedExactly(env: Env, record: ChannelRecord, s: ChannelState, slot: nat)
    requires slot < record.memberCount
    ensures SlotSigned(env, record, s, slot) <==> SlotFilled(env, record, s, slot)
  {
    var sigs := s.memberSignatures;
    FirstSignature(sigs, slot);
    if SignatureAt(sigs, slot).Some? {
      var j :| 0 <= j < |sigs| && SignatureAt(sigs, slot) == Some(sigs[j]) && sigs[j].memberSlot == slot
               && forall i :: 0 <= i < j ==> sigs[i].memberSlot != slot;
      assert SlotSigned(env, record, s, slot) ==> SignsAt(env, record, s, slot, j);
      if k :| 0 <= k < |sigs| && SignsAt(env, record, s, slot, k) {
        assert k == j;
      }
    }
  }

  /** A state counts as signed exactly when the first signature of every co-signer slot is valid for its content. */
  lemma SignedExactly(env: Env, record: ChannelRecord, s: ChannelState)
    ensures AllSigned(env, record, s) <==> FullySigned(env, record, s)
  {
    forall slot | 0 <= slot < record.memberCount
      ensures SlotSigned(env, record, s, slot) <==> SlotFilled(env, record, s, slot)
    {
      SlotSignedExactly(env, record, s, slot);
    }
  }

  // ---------- what the run says of a channel ----------

  predicate WasClosed(actions: seq<Action>, c: ChannelId) {
    exists i :: 0 <= i < |actions| && ClosesFunding(actions[i], c)
  }

  predicate WasSent(actions: seq<Action>, hash: Bytes32) {
    exists i :: 0 <= i < |actions| && Admits(actions, i, hash)
  }

  // The channel is registered and open, and this is its latest state.
  predicate OpenAt(actions: seq<Action>, c: ChannelId, head: ChannelState) {
    !WasClosed(actions, c) && History(actions, c) != [] && History(actions, c)[|History(actions, c)| - 1] == head
  }

  lemma RunFacts(env: Env, actions: seq<Action>, p: Producer, c: ChannelId)
    requires Run(env, actions) == Some(p)
    ensures c in p.terminal <==> WasClosed(actions, c)
    ensures c in p.records <==> History(actions, c) != []
    ensures c in p.heads <==> History(actions, c) != []
    ensures c in p.heads ==> OpenAt(actions, c, p.heads[c]) || WasClosed(actions, c)
    ensures c in p.records ==> p.records[c].channelId == c
    ensures forall nonce: u32 :: NextNonce(p, c) == Some(nonce) <==> nonce == Sends(actions, c)
    ensures forall hash :: hash in p.acceptedTxs <==> WasSent(actions, hash)
  {
    RunExplained(env, actions, p, c);
    TransactionsAdmittedOnce(env, actions, p);
  }

  // ---------- blocks and sends ----------

  // One step on every counter of the head, in its close era.
  predicate StepsOn(head: ChannelState, s: ChannelState) {
    && s.prevDigest == head.digest && s.epoch == head.epoch + 1
    && s.balance.stateVersion == head.balance.stateVersion + 1 && s.closeFreezeNonce == head.closeFreezeNonce
  }

  // What any block demands of the state it commits.
  ghost predicate BlockFits(env: Env, actions: seq<Action>, p: Producer, s: ChannelState, timestamp: u64,
                            root: Bytes32, mode: CosignMode) {
    var c := s.channelId;
    && c in p.heads && c in p.records && OpenAt(actions, c, p.heads[c])
    && StepsOn(p.heads[c], s) && s.smallBlockNumber == p.heads[c].smallBlockNumber + 1
    && s.fund.channelId == c && s.balance.channelId == c && s.h2Tag == root != 0
    && timestamp > env.lastTimestamp(p.witness_)
    && match mode
       case Verified => FullySigned(env, p.records[c], s)
       case UnsignedStaging => s.digest == env.cr.stateDigest(s.(digest := 0, memberSignatures := []))
  }

  lemma BlockAcceptedIff(env: Env, actions: seq<Action>, p: Producer, s: ChannelState, t: u64, root: Bytes32,
                         tx: BlockTx, mode: CosignMode)
    requires Run(env, actions) == Some(p)
    ensures CosignAdmitted(env, p, s, t, root, tx, mode) <==>
              !tx.memberSetUpdate && BlockFits(env, actions, p, s, t, root, mode)
  {
    RunFacts(env, actions, p, s.channelId);
    if s.channelId in p.records {
      SignedExactly(env, p.records[s.channelId], s);
    }
  }

  // The message names the source channel and commits exactly the state: number, era, root and balances.
  predicate MessageFits(env: Env, s: ChannelState, tx: InterTx) {
    && tx.message.channelId == tx.sourceChannelId
    && tx.message.smallBlockNumber == s.smallBlockNumber && tx.message.closeFreezeNonce == s.closeFreezeNonce
    && tx.message.txTreeRoot == s.h2Tag && tx.message.stateCommitmentRoot == env.h1(s.balance)
  }

  // The descriptor is the debit's transfer, with its canonical transaction opened under the debit's root.
  predicate TransferFits(env: Env, debit: DebitPayload, d: Descriptor) {
    && (d.amount, d.sourceChannelId, d.txHash) == (debit.amount, debit.tx.sourceChannelId, debit.tx.txHash)
    && env.txDigest(d.tx) == env.txDigest(debit.tx) && env.sameTransfer(debit, d)
    && env.canonicalTx(debit.tx, debit.amount) == Some((d.txV2, debit.tx.message.txTreeRoot))
    && d.txTreeRoot == debit.tx.message.txTreeRoot == env.openedRoot(d.proof, d.txV2, debit.tx.sourceChannelId)
  }

  ghost predicate SendFits(env: Env, actions: seq<Action>, p: Producer, s: ChannelState, debit: DebitPayload,
                           d: Descriptor, timestamp: u64, mode: CosignMode) {
    var c := d.sourceChannelId;
    && BlockFits(env, actions, p, s, timestamp, d.tx.message.txTreeRoot, mode)
    && MessageFits(env, s, d.tx) && TransferFits(env, debit, d) && debit.proposed.digest == s.digest
    && !WasClosed(actions, c) && !WasSent(actions, d.txHash) && d.tx.baseNonce == Sends(actions, c)
    && c in p.records && env.recordDigest(debit.record) == env.recordDigest(p.records[c])
    && d.tx.sourceChannelId in p.records
    && (mode.Verified? ==>
          FullySigned(env, p.records[d.tx.sourceChannelId], s) && env.attachStable(d.tx, s.memberSignatures))
    && env.servesOneChannel(p.witness_)
    && env.addBlock(p.witness_, s, mode, timestamp, BlockTx(c, d.txV2, d.proof, false)).Some?
  }

  lemma SmallBlockAcceptedIff(env: Env, actions: seq<Action>, p: Producer, s: ChannelState, tx: InterTx, t: u64,
                              slot: BlockTx, mode: CosignMode)
    requires Run(env, actions) == Some(p) && !slot.memberSetUpdate
    ensures InterChannelBlock(env, p, s, tx, t, slot, mode).Some? <==>
              && BlockFits(env, actions, p, s, t, tx.message.txTreeRoot, mode) && MessageFits(env, s, tx)
              && tx.sourceChannelId in p.records
              && (mode.Verified? ==>
                    FullySigned(env, p.records[tx.sourceChannelId], s) && env.attachStable(tx, s.memberSignatures))
              && env.addBlock(p.witness_, s, mode, t, slot).Some?
  {
    BlockAcceptedIff(env, actions, p, s, t, tx.message.txTreeRoot, slot, mode);
    RunFacts(env, actions, p, tx.sourceChannelId);
    if tx.sourceChannelId in p.records {
      SignedExactly(env, p.records[tx.sourceChannelId], s);
    }
  }

  /** A send is accepted after a run exactly when the state, the message, the debit and the run itself all fit. */
  lemma SendAcceptedIff(env: Env, actions: seq<Action>, p: Producer, s: ChannelState, debit: DebitPayload,
                        d: Descriptor, t: u64, mode: CosignMode)
    requires Run(env, actions) == Some(p)
    ensures DescriptorSent(env, p, s, debit, d, t, mode).Some? <==> SendFits(env, actions, p, s, debit, d, t, mode)
  {
    RunFacts(env, actions, p, d.sourceChannelId);
    SmallBlockAcceptedIff(env, actions, p, s, d.tx, t, BlockTx(d.sourceChannelId, d.txV2, d.proof, false), mode);
  }

  // Two transfers their senders authorized under one digest.
  predicate TransfersCollide(env: Env, a: InterTx, b: InterTx) { a != b && env.txDigest(a) == env.txDigest(b) }

  lemma RunPrefix(env: Env, actions: seq<Action>, p: Producer, i: nat) returns (was: Producer)
    requires Run(env, actions) == Some(p) && i < |actions|
    ensures Run(env, actions[..i]) == Some(was) && Apply(env, was, actions[i]).Some?
    ensures Run(env, actions[..i + 1]) == Apply(env, was, actions[i])
    decreases |actions|
  {
    if i == |actions| - 1 {
      was := RunSplits(env, actions, p);
      assert actions[..i + 1] == actions;
    } else {
      var before := RunSplits(env, actions, p);
      was := RunPrefix(env, actions[..|actions| - 1], before, i);
      assert actions[..|actions| - 1][..i] == actions[..i] && actions[..|actions| - 1][..i + 1] == actions[..i + 1];
    }
  }

  /**
    Over every run: the state a send appends to its channel's history is the one its small block commits (number,
    close era, transaction root and balances), the message is of the channel the nonce was charged to unless two
    transfers collide, and that charge is the next one.
  */
  lemma SentStatesAreBound(env: Env, actions: seq<Action>, p: Producer, i: nat)
    requires Run(env, actions) == Some(p) && i < |actions|
    requires actions[i].PostInterChannel? || actions[i].StagedExitKit?
    ensures
      var s := if actions[i].PostInterChannel? then actions[i].signed else actions[i].proposed;
      var (d, debit) := (actions[i].descriptor, actions[i].debit);
      var m := d.tx.message;
      && History(actions[..i + 1], s.channelId) == History(actions[..i], s.channelId) + [s]
      && m.smallBlockNumber == s.smallBlockNumber && m.closeFreezeNonce == s.closeFreezeNonce
      && m.txTreeRoot == s.h2Tag && m.stateCommitmentRoot == env.h1(s.balance)
      && (m.channelId == d.sourceChannelId || TransfersCollide(env, d.tx, debit.tx))
      && (s.h2Tag == d.txTreeRoot || TransfersCollide(env, d.tx, debit.tx))
      && (d.txHash == d.tx.txHash || TransfersCollide(env, d.tx, debit.tx))
      && d.tx.baseNonce == Sends(actions[..i], d.sourceChannelId)
  {
    var was := RunPrefix(env, actions, p, i);
    assert actions[..i + 1][..i] == actions[..i];
    match actions[i]
    case PostInterChannel(s, debit, d, t) => SendAcceptedIff(env, actions[..i], was, s, debit, d, t, Verified);
    case StagedExitKit(s, debit, d, t) => SendAcceptedIff(env, actions[..i], was, s, debit, d, t, UnsignedStaging);
  }

  // ---------- registration, deposits, synchronization, joins ----------

  /** A snapshot is registered exactly once, with its own ids and counts, anchored and signed by every co-signer. */
  lemma RegistrationAcceptedIff(env: Env, actions: seq<Action>, p: Producer, s: Snapshot, t: u64)
    requires Run(env, actions) == Some(p)
    ensures
      var c := s.record.channelId;
      Registered(env, p, s, t).Some? <==>
        && History(actions, c) == []
        && s.state.channelId == c && s.state.fund.channelId == c && s.state.balance.channelId == c
        && s.state.balance.memberCount == s.record.memberCount
        && s.state.balance.delegateCount == s.record.delegateCount
        && env.snapshotAnchored(s) && FullySigned(env, s.record, s.state)
        && env.addRegistration(p.witness_, s, t).Some? && !env.holdsKeys(env.addRegistration(p.witness_, s, t).value)
  {
    RunFacts(env, actions, p, s.record.channelId);
    SignedExactly(env, s.record, s.state);
  }

  /** A deposit is sealed exactly when it is the next index, later than the last block, with the expected chain. */
  lemma DepositAcceptedIff(env: Env, p: Producer, d: DepositRequest, t: u64)
    ensures Deposited(env, p, d, t).Some? <==>
              && d.recipient != 0 && d.depositIndex == env.depositCount(p.witness_)
              && t > env.lastTimestamp(p.witness_)
              && var sealed := env.addDeposit(p.witness_, d, t);
              && sealed.Some? && env.sealedAs(sealed.value, d) && env.depositChain(sealed.value) == d.expectedChain
              && !env.holdsKeys(sealed.value)
    ensures Deposited(env, p, d, t).Some? ==>
              Deposited(env, p, d, t).value == p.(witness_ := env.addDeposit(p.witness_, d, t).value)
  {
  }

  // A signed off-chain step of the channel on the previous state: no block root, at most one small block further.
  ghost predicate OffchainFits(env: Env, record: ChannelRecord, c: ChannelId, previous: ChannelState,
                               s: ChannelState) {
    && s.channelId == c && s.fund.channelId == c && s.balance.channelId == c
    && FullySigned(env, record, s) && StepsOn(previous, s) && s.h2Tag == 0
    && s.smallBlockNumber - previous.smallBlockNumber in {0, 1} && previous.smallBlockNumber < U64_LIMIT - 1
  }

  lemma OffchainExactly(env: Env, record: ChannelRecord, c: ChannelId, previous: ChannelState, s: ChannelState)
    ensures ExtendsOffchain(env, record, c, previous, s) <==> OffchainFits(env, record, c, previous, s)
  {
    SignedExactly(env, record, s);
  }

  /** States are synchronized exactly when each is a signed off-chain step on the one before, from the open head on. */
  lemma SyncAcceptedIff(env: Env, actions: seq<Action>, p: Producer, states: seq<ChannelState>)
    requires Run(env, actions) == Some(p)
    ensures Synced(env, p, states).Some? <==>
              && states != []
              && var c := states[0].channelId;
              && c in p.heads && c in p.records && OpenAt(actions, c, p.heads[c]) && !env.holdsKeys(p.witness_)
              && OffchainFits(env, p.records[c], c, p.heads[c], states[0])
              && forall i :: 0 < i < |states| ==> OffchainFits(env, p.records[c], c, states[i - 1], states[i])
  {
    if states != [] && states[0].channelId in p.heads && states[0].channelId in p.records {
      var c := states[0].channelId;
      RunFacts(env, actions, p, c);
      var (record, head) := (p.records[c], p.heads[c]);
      forall i {:trigger Before(head, states, i)} | 0 <= i < |states|
        ensures ExtendsOffchain(env, record, c, Before(head, states, i), states[i]) <==>
                  OffchainFits(env, record, c, if i == 0 then head else states[i - 1], states[i])
      {
        OffchainExactly(env, record, c, Before(head, states, i), states[i]);
      }
      if OffchainChain(env, record, c, head, states) {
        assert Before(head, states, 0) == head;
        forall i | 0 < i < |states| ensures OffchainFits(env, record, c, states[i - 1], states[i]) {
          assert Before(head, states, i) == states[i - 1];
        }
      }
    } else if states != [] {
      RunFacts(env, actions, p, states[0].channelId);
    }
  }

  /**
    A join is a no-op for a record with the registered digest; otherwise it is accepted exactly when it appends
    delegates, the presented state has the head's digest and the new counts, and every co-signer signed it.
  */
  lemma JoinAcceptedIff(env: Env, actions: seq<Action>, p: Producer, record: ChannelRecord, s: ChannelState)
    requires Run(env, actions) == Some(p)
    ensures
      var c := record.channelId;
      && (Joined(env, p, record, s) == Some(p) <== c in p.records
            && env.recordDigest(p.records[c]) == env.recordDigest(record))
      && (Joined(env, p, record, s).Some? <==>
            && History(actions, c) != [] && c in p.records && c in p.heads
            && (|| env.recordDigest(p.records[c]) == env.recordDigest(record)
                || (&& DelegatesAppended(p.records[c], record)
                    && s.channelId == c && s.digest == p.heads[c].digest
                    && s.balance.memberCount == record.memberCount && s.balance.delegateCount == record.delegateCount
                    && FullySigned(env, record, s))))
  {
    RunFacts(env, actions, p, record.channelId);
    SignedExactly(env, record, s);
  }

  /** A close funding is accepted exactly when its gate accepts, its nonce is next, and its state fits a block. */
  lemma CloseAcceptedIff(env: Env, actions: seq<Action>, p: Producer, s: ChannelState, plan: Plan, t: u64)
    requires Run(env, actions) == Some(p)
    ensures
      var c := plan.sourceChannelId;
      CloseFunded(env, p, s, plan, t).Some? <==>
        && c in p.heads && OpenAt(actions, c, p.heads[c]) && VerifyProposal(env.cr, p.heads[c], s, plan)
        && plan.baseNonce == Sends(actions, c)
        && BlockFits(env, actions, p, s, t, plan.txTreeRoot, Verified) && env.servesOneChannel(p.witness_)
        && env.addBlock(p.witness_, s, Verified, t, BlockTx(c, plan.txV2, plan.proof, false)).Some?
  {
    RunFacts(env, actions, p, plan.sourceChannelId);
    BlockAcceptedIff(env, actions, p, s, t, plan.txTreeRoot,
                     BlockTx(plan.sourceChannelId, plan.txV2, plan.proof, false), Verified);
  }

  // ---------- the rest of the producer is its actions ----------

  // The witness after an action: one block appended for a registration, a deposit, a send or a close funding.
  function BlockOf(env: Env, w: Witness, a: Action): Option<Witness> {
    match a
    case Register(s, t) => env.addRegistration(w, s, t)
    case PostDeposit(d, t) => env.addDeposit(w, d, t)
    case PostInterChannel(s, _, d, t) =>
      env.addBlock(w, s, Verified, t, BlockTx(d.sourceChannelId, d.txV2, d.proof, false))
    case StagedExitKit(s, _, d, t) =>
      env.addBlock(w, s, UnsignedStaging, t, BlockTx(d.sourceChannelId, d.txV2, d.proof, false))
    case PostCloseFunding(s, plan, t) =>
      env.addBlock(w, s, Verified, t, BlockTx(plan.sourceChannelId, plan.txV2, plan.proof, false))
    case _ => Some(w)
  }

  function Blocks(env: Env, actions: seq<Action>): Option<Witness> {
    if actions == [] then Some(env.genesis)
    else
      match Blocks(env, actions[..|actions| - 1])
      case None => None
      case Some(w) => BlockOf(env, w, actions[|actions| - 1])
  }

  // The channel's record: the registered one, replaced by each join to a record with another digest.
  function RecordAfter(env: Env, actions: seq<Action>, c: ChannelId): Option<ChannelRecord> {
    if actions == [] then None
    else
      var before := RecordAfter(env, actions[..|actions| - 1], c);
      match actions[|actions| - 1]
      case Register(s, _) => if s.record.channelId == c then Some(s.record) else before
      case AdoptDelegateJoin(record, _, _) =>
        if record.channelId == c && before.Some? && env.recordDigest(before.value) != env.recordDigest(record)
        then Some(record) else before
      case _ => before
  }

  lemma StepBlocksAndRecords(env: Env, p: Producer, a: Action, q: Producer, c: ChannelId)
    requires Tracked(p) && Apply(env, p, a) == Some(q)
    ensures BlockOf(env, p.witness_, a) == Some(q.witness_)
    ensures c in q.records <==> c in p.records || Registers(a, c)
    ensures c in q.records ==>
              q.records[c] == if Registers(a, c) then a.snapshot.record
                              else if a.AdoptDelegateJoin? && a.record.channelId == c
                                      && env.recordDigest(p.records[c]) != env.recordDigest(a.record)
                              then a.record else p.records[c]
  {
  }

  /** The producer's blocks are exactly those of its accepted actions in order, and its records likewise. */
  lemma {:induction false} BlocksAreActions(env: Env, actions: seq<Action>, p: Producer, c: ChannelId)
    requires Run(env, actions) == Some(p)
    ensures Blocks(env, actions) == Some(p.witness_)
    ensures RecordAfter(env, actions, c) == if c in p.records then Some(p.records[c]) else None
  {
    if actions != [] {
      var was := RunSplits(env, actions, p);
      RunTracked(env, actions[..|actions| - 1], was);
      BlocksAreActions(env, actions[..|actions| - 1], was, c);
      StepBlocksAndRecords(env, was, actions[|actions| - 1], p, c);
    }
  }

  /**
    Over every run each sealed deposit takes the next index of the blocks before it, later than their last time, and
    leaves the blocks with exactly the hash chain the request expected.
  */
  lemma DepositsExtendTheChain(env: Env, actions: seq<Action>, p: Producer, i: nat)
    requires Run(env, actions) == Some(p) && i < |actions| && actions[i].PostDeposit?
    ensures
      var (before, after, d) := (Blocks(env, actions[..i]), Blocks(env, actions[..i + 1]), actions[i].deposit);
      && before.Some? && after.Some? && d.recipient != 0
      && d.depositIndex == env.depositCount(before.value) && env.depositChain(after.value) == d.expectedChain
      && actions[i].timestamp > env.lastTimestamp(before.value) && env.sealedAs(after.value, d)
  {
    var was := RunPrefix(env, actions, p, i);
    BlocksAreActions(env, actions[..i], was, 0);
    BlocksAreActions(env, actions[..i + 1], Apply(env, was, actions[i]).value, 0);
    DepositAcceptedIff(env, was, actions[i].deposit, actions[i].timestamp);
  }
}
