/** What a durable payout snapshot proves, read off its own fields, and exactly when each call is accepted. */
module PayoutEvidence {
  import opened Wrappers
  import opened MachineWords
  import opened L1Finality
  import opened PayoutStore
  import opened PayoutStoreSafety

  // ---------- what a snapshot proves ----------

  // The block is at or below a durable head of its chain, and is the head when it is at its height.
  predicate UnderHead(h: Checkpoint, chainId: nat, number: nat, hash: Bytes32) {
    && h.chainId == chainId != 0 && h.blockHash != 0 && (h.blockNumber != 0 ==> h.parentHash != 0)
    && (h.source == DevnetLatest ==> chainId == 31337)
    && (number < h.blockNumber || (number == h.blockNumber && hash == h.blockHash))
  }

  // A successful final transaction to the rollup: the journaled caller's, at its nonce, with its calldata.
  predicate FinalCall(r: Receipt, request: Request, intent: Intent, kind: CallKind) {
    && r.success && r.callKind == kind && r.txHash != 0 && r.blockHash != 0
    && (r.chainId, r.target, r.sender) == (request.chainId, request.rollup, intent.caller)
    && (r.nonce, r.calldataHash) == (intent.callerNonce, intent.calldataHash)
    && intent.startBlock <= r.blockNumber
    && UnderHead(r.checkpoint, request.chainId, r.blockNumber, r.blockHash)
  }

  // The withdrawal was paid: final, anchored, its nullifier spent, the credit grown by exactly the amount.
  predicate Paid(c: Candidate, k: PayoutConfirmation) {
    && c.payoutBroadcast.Some?
    && FinalCall(k.receipt, c.request, c.payoutBroadcast.value,
                 match c.lane case Native => WithdrawNative case Erc20 => WithdrawErc20)
    && k.finalizedAnchorObserved && k.nullifierUsedObserved
    && k.creditBefore == c.payoutBroadcast.value.creditBefore
    && k.creditAfter - k.creditBefore == c.request.withdrawal.amount
  }

  // The recipient pulled a credit that covered the amount.
  predicate Pulled(c: Candidate, k: PullConfirmation) {
    && c.payoutConfirmation.Some? && c.pullBroadcast.Some?
    && FinalCall(k.receipt, c.request, c.pullBroadcast.value,
                 match c.lane case Native => PullNative case Erc20 => PullErc20)
    && k.receipt.sender == c.request.withdrawal.recipient
    && k.creditBefore == c.pullBroadcast.value.creditBefore >= c.request.withdrawal.amount
  }

  // At most sixteen nonzero hashes, none twice, and none before an intent.
  predicate HashLog(hashes: seq<Bytes32>, intent: Option<Intent>) {
    && |hashes| <= 16 && (intent.None? ==> hashes == [])
    && (forall i :: 0 <= i < |hashes| ==> hashes[i] != 0)
    && forall i, j :: 0 <= i < j < |hashes| ==> hashes[i] != hashes[j]
  }

  predicate Payable(env: Env, r: Request) {
    && r.chainId != 0 && r.rollup != 0 && env.artifactsValid(r)
    && r.withdrawal.recipient != 0 && r.withdrawal.amount != 0 && r.withdrawal.auxData != 0
  }

  // Nothing is left to do for the candidate.
  predicate Finished(c: Candidate) { c.payoutConfirmation.Some? && (c.delegated || c.pullConfirmation.Some?) }

  predicate Genuine(env: Env, c: Candidate) {
    && Payable(env, c.request) && c.id == env.identity(c.request)
    && c.lane == (if c.request.withdrawal.tokenIndex == 0 then Native else Erc20)
    && HashLog(c.payoutTxHashes, c.payoutBroadcast) && HashLog(c.pullTxHashes, c.pullBroadcast)
    && (c.payoutBroadcast.Some? ==> c.payoutBroadcast.value.caller != 0 && c.payoutBroadcast.value.calldataHash != 0)
    && (c.payoutConfirmation.Some? ==>
          && Paid(c, c.payoutConfirmation.value)
          && c.payoutConfirmation.value.receipt.txHash in c.payoutTxHashes)
    && (c.pullBroadcast.Some? ==>
          && c.payoutConfirmation.Some? && !c.delegated && c.pullBroadcast.value.calldataHash != 0
          && c.pullBroadcast.value.caller == c.request.withdrawal.recipient
          && c.pullBroadcast.value.creditBefore >= c.request.withdrawal.amount)
    && (c.pullConfirmation.Some? ==>
          Pulled(c, c.pullConfirmation.value) && c.pullConfirmation.value.receipt.txHash in c.pullTxHashes)
    && (c.delegated ==> c.payoutConfirmation.Some?)
  }

  /** The reload check accepts exactly the snapshots whose every recorded fact holds of its own fields. */
  lemma ReloadAcceptsExactlyGenuine(env: Env, d: Snapshot)
    ensures VerifyDisk(env, d) <==>
              && d.version == 4 && (forall i, j :: 0 <= i < j < |d.completed| ==> d.completed[i] != d.completed[j])
              && (d.active.Some? ==>
                    && Genuine(env, d.active.value)
                    && (Finished(d.active.value) ==> d.active.value.request.withdrawal.nullifier in d.completed))
  {
    if d.active.Some? {
      var c := d.active.value;
      assert 0 !in c.payoutTxHashes <==> forall i :: 0 <= i < |c.payoutTxHashes| ==> c.payoutTxHashes[i] != 0;
      assert 0 !in c.pullTxHashes <==> forall i :: 0 <= i < |c.pullTxHashes| ==> c.pullTxHashes[i] != 0;
    }
  }

  /**
    Over every run with failed writes: a stored payout confirmation is a successful final receipt of exactly the
    journaled call that grew the credit by the withdrawal amount, and a stored pull is the recipient's.
  */
  lemma ConfirmationsAreReceipts(env: Env, events: seq<Event>, c: Candidate)
    requires Exec(env, events).Some? && Exec(env, events).value.file.active == Some(c)
    ensures Genuine(env, c)
    ensures c.payoutConfirmation.Some? ==> Paid(c, c.payoutConfirmation.value)
    ensures c.pullConfirmation.Some? ==> Pulled(c, c.pullConfirmation.value)
  {
    RunsStaySound(env, events);
    ReloadAcceptsExactlyGenuine(env, Exec(env, events).value.file);
  }

  // After k events the store held this nullifier's candidate with its payout paid, and pulled or handed off.
  ghost predicate SettledAt(env: Env, events: seq<Event>, k: nat, nullifier: Bytes32, c: Candidate) {
    && k <= |events| && Exec(env, events[..k]).Some? && Exec(env, events[..k]).value.file.active == Some(c)
    && c.request.withdrawal.nullifier == nullifier
    && c.payoutConfirmation.Some? && Paid(c, c.payoutConfirmation.value)
    && (c.delegated || (c.pullConfirmation.Some? && Pulled(c, c.pullConfirmation.value)))
  }

  /** A nullifier is in the ledger exactly when some durable snapshot held its paid and settled receipts. */
  lemma LedgerIsReceipts(env: Env, events: seq<Event>, n: Bytes32)
    ensures Exec(env, events).Some? && Distinct(Exec(env, events).value.file.completed)
    ensures n in Exec(env, events).value.file.completed <==> exists k: nat, c :: SettledAt(env, events, k, n, c)
  {
    LedgerIsCompletions(env, events, n);
    if n in Exec(env, events).value.file.completed {
      var k := LedgerHasHistory(env, events, n);
      var c := Exec(env, events[..k]).value.file.active.value;
      ConfirmationsAreReceipts(env, events[..k], c);
      assert SettledAt(env, events, k, n, c);
    }
    forall k: nat, c | SettledAt(env, events, k, n, c) ensures n in Exec(env, events).value.file.completed {
      assert CompletedAt(env, events, k, n);
    }
  }

  // ---------- exactly when an update is accepted ----------

  // The hash can still be logged for an unconfirmed intent.
  predicate Loggable(hashes: seq<Bytes32>, h: Bytes32) { h != 0 && (h in hashes || |hashes| < 16) }

  predicate Acceptable(c: Candidate, u: Update) {
    match u
    case MarkPayoutBroadcast(i) =>
      c.payoutConfirmation.Some? || (i.caller != 0 && i.calldataHash != 0 && c.payoutBroadcast in {None, Some(i)})
    case ConfirmPayout(k) =>
      Paid(c, k) && (c.payoutConfirmation == Some(k)
                     || (c.payoutConfirmation == None && Loggable(c.payoutTxHashes, k.receipt.txHash)))
    case RecordPayoutTxHash(h) =>
      && c.payoutBroadcast.Some?
      && (if c.payoutConfirmation.Some? then c.payoutConfirmation.value.receipt.txHash == h
          else Loggable(c.payoutTxHashes, h))
    case MarkRecipientPullDelegated =>
      c.payoutConfirmation.Some? && c.pullBroadcast.None? && c.pullConfirmation.None?
    case MarkPullBroadcast(i) =>
      && c.payoutConfirmation.Some? && !c.delegated
      && (c.pullConfirmation.Some?
          || (&& i.caller == c.request.withdrawal.recipient && i.creditBefore >= c.request.withdrawal.amount
              && c.pullBroadcast in {None, Some(i)}))
    case ConfirmPull(k) =>
      Pulled(c, k) && (c.pullConfirmation == Some(k)
                       || (c.pullConfirmation == None && Loggable(c.pullTxHashes, k.receipt.txHash)))
    case RecordPullTxHash(h) =>
      && c.pullBroadcast.Some?
      && (if c.pullConfirmation.Some? then c.pullConfirmation.value.receipt.txHash == h
          else Loggable(c.pullTxHashes, h))
  }

  // The candidate records the update, and nothing beyond it.
  predicate Records(c: Candidate, u: Update, d: Candidate) {
    match u
    case MarkPayoutBroadcast(i) =>
      d == c.(payoutBroadcast := d.payoutBroadcast) && (c.payoutConfirmation.None? ==> d.payoutBroadcast == Some(i))
    case ConfirmPayout(k) =>
      && d == c.(payoutTxHashes := d.payoutTxHashes, payoutConfirmation := Some(k))
      && (c.payoutConfirmation.None? ==> k.receipt.txHash in d.payoutTxHashes)
    case RecordPayoutTxHash(h) =>
      d == c.(payoutTxHashes := d.payoutTxHashes) && (c.payoutConfirmation.None? ==> h in d.payoutTxHashes)
    case MarkRecipientPullDelegated => d == c.(delegated := true)
    case MarkPullBroadcast(i) =>
      d == c.(pullBroadcast := d.pullBroadcast) && (c.pullConfirmation.None? ==> d.pullBroadcast == Some(i))
    case ConfirmPull(k) =>
      && d == c.(pullTxHashes := d.pullTxHashes, pullConfirmation := Some(k))
      && (c.pullConfirmation.None? ==> k.receipt.txHash in d.pullTxHashes)
    case RecordPullTxHash(h) =>
      d == c.(pullTxHashes := d.pullTxHashes) && (c.pullConfirmation.None? ==> h in d.pullTxHashes)
  }

  /** Exactly these updates are accepted; each is recorded and touches nothing else, and keeps all that was recorded. */
  lemma UpdateAcceptedIff(c: Candidate, u: Update)
    ensures Updated(c, u).Some? <==> Acceptable(c, u)
    ensures Updated(c, u).Some? ==> Records(c, u, Updated(c, u).value) && Progresses(c, Updated(c, u).value)
  {
    UpdateProgresses(c, u);
  }

  // ---------- whole calls ----------

  /**
    Preparing keeps the active candidate of the same identity; otherwise a payable request whose nullifier was never
    completed becomes the active candidate, with nothing journaled yet, exactly when no unfinished one is in the way.
  */
  lemma PrepareAcceptedIff(env: Env, d: Snapshot, r: Request)
    requires VerifyDisk(env, d)
    ensures
      var same := d.active.Some? && d.active.value.id == env.identity(r);
      var decision := Decide(env, d, Prepare(r));
      && (decision.Keep? <==> Payable(env, r) && same)
      && (decision.Write? <==>
            && Payable(env, r) && !same && (d.active.Some? ==> Finished(d.active.value))
            && r.withdrawal.nullifier !in d.completed)
      && (decision.Write? ==>
            && decision.next == d.(active := decision.next.active) && decision.next.active.Some?
            && var c := decision.next.active.value;
            && c.request == r && c.payoutBroadcast.None? && c.payoutConfirmation.None? && !c.delegated
            && c.pullBroadcast.None? && c.pullConfirmation.None? && c.payoutTxHashes == [] && c.pullTxHashes == [])
  {
  }

  /**
    An update of the active candidate is written exactly when it is acceptable and not a pull intent without a
    calldata hash; the ledger gains the nullifier when this finishes the candidate, and nothing else.
  */
  lemma MutateAcceptedIff(env: Env, d: Snapshot, id: Bytes32, u: Update)
    requires VerifyDisk(env, d)
    ensures
      var decision := Decide(env, d, Mutate(id, u));
      && !decision.Keep?
      && (decision.Write? <==>
            && d.active.Some? && d.active.value.id == id && Acceptable(d.active.value, u)
            && !(u.MarkPullBroadcast? && u.intent.calldataHash == 0 && d.active.value.pullConfirmation.None?))
      && (decision.Write? ==>
            && decision.next.active.Some? && Records(d.active.value, u, decision.next.active.value)
            && var n := d.active.value.request.withdrawal.nullifier;
            && decision.next.completed
               == if Finished(decision.next.active.value) && n !in d.completed then d.completed + [n] else d.completed)
  {
    if d.active.Some? && d.active.value.id == id {
      UpdateAcceptedIff(d.active.value, u);
      if Updated(d.active.value, u).Some? {
        AcceptedUpdateVerifies(env, d, u);
      }
    }
  }

  /**
    A written snapshot is installed and durable at once; a failed write leaves either file, after which nothing is
    accepted until a reopening, which gives exactly the state before the call or the state after it.
  */
  lemma CallIsAllOrNothing(env: Env, s: Store, call: Call, other: Call, outcome: Persisted)
    requires Sound(env, s) && !s.poisoned && Decide(env, s.disk, call).Write?
    ensures
      var next := Decide(env, s.disk, call).next;
      && Step(env, s, Called(call, Done)) == Some(Store(next, false, next))
      && Step(env, s, Called(call, FailedOld)).Some? && Step(env, s, Called(call, FailedNew)).Some?
      && var old_ := Step(env, s, Called(call, FailedOld)).value;
      && var new_ := Step(env, s, Called(call, FailedNew)).value;
      && Step(env, old_, Called(other, outcome)) == Some(old_) && Step(env, new_, Called(other, outcome)) == Some(new_)
      && Step(env, old_, Reopen) == Some(s) && Step(env, new_, Reopen) == Some(Store(next, false, next))
  {
    CallFollows(env, s.disk, call);
  }
}
