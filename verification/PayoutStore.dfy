/**
  The partial-withdrawal payout store: one active candidate, its journaled intents and receipts, and the completed
  ledger.
*/
module PayoutStore {
  import opened Wrappers
  import opened MachineWords
  import opened L1Finality
  import opened SnapshotFrame

  const MAX_REPLACEMENT_TX_HASHES := 16

  datatype Lane = Native | Erc20

  datatype Withdrawal = Withdrawal(recipient: Address, tokenIndex: u32, amount: U256, nullifier: Bytes32,
                                   auxData: Bytes32)

  // A prepared payout; `rest` stands for the receipt, anchor, proof artefacts and metrics.
  datatype Request = Request(chainId: u64, rollup: Address, withdrawal: Withdrawal, rest: nat)

  datatype CallKind = RegisterSettlementManager | WithdrawNative | WithdrawErc20 | PullNative | PullErc20

  datatype Receipt = Receipt(
    txHash: Bytes32, blockHash: Bytes32, blockNumber: u64, chainId: u64, sender: Address, target: Address,
    success: bool, callKind: CallKind, calldataHash: Bytes32, nonce: u64, checkpoint: Checkpoint)

  datatype Intent = Intent(caller: Address, startBlock: u64, callerNonce: u64, calldataHash: Bytes32,
                           creditBefore: U256)

  datatype PayoutConfirmation = PayoutConfirmation(
    receipt: Receipt, finalizedAnchorObserved: bool, nullifierUsedObserved: bool, creditBefore: U256, creditAfter: U256)

  datatype PullConfirmation = PullConfirmation(receipt: Receipt, creditBefore: U256, creditAfter: U256)

  datatype Candidate = Candidate(
    id: Bytes32, request: Request, lane: Lane,
    payoutBroadcast: Option<Intent>, payoutTxHashes: seq<Bytes32>, payoutConfirmation: Option<PayoutConfirmation>,
    delegated: bool,
    pullBroadcast: Option<Intent>, pullTxHashes: seq<Bytes32>, pullConfirmation: Option<PullConfirmation>)
  {
    predicate Complete() { payoutConfirmation.Some? && (pullConfirmation.Some? || delegated) }
    function Nullifier(): Bytes32 { request.withdrawal.nullifier }
  }

  datatype Snapshot = Snapshot(version: u32, active: Option<Candidate>, completed: seq<Bytes32>)

  // The identity hash, and the artefact checks that are settled by reading them.
  datatype Env = Env(identity: Request -> Bytes32, artifactsValid: Request -> bool)

  function LaneFor(w: Withdrawal): Lane { if w.tokenIndex == 0 then Native else Erc20 }

  predicate ValidRequest(env: Env, r: Request) {
    && r.chainId != 0 && r.rollup != 0
    && r.withdrawal.recipient != 0 && r.withdrawal.amount != 0 && r.withdrawal.auxData != 0
    && env.artifactsValid(r)
  }

  // ---------- what is safe to do next ----------

  datatype ResumeAction = BroadcastPayout | ReconcilePayout | ContinueAfterPayout

  function ResumeActionFor(c: Candidate, nullifierUsed: bool): Option<ResumeAction> {
    if c.payoutConfirmation.Some? then if nullifierUsed then Some(ContinueAfterPayout) else None
    else if c.payoutBroadcast.Some? then Some(ReconcilePayout)
    else if nullifierUsed then None
    else Some(BroadcastPayout)
  }

  // ---------- receipts ----------

  // The receipt is final and settles exactly the journaled call.
  predicate Settles(receipt: Receipt, c: Candidate, intent: Intent, kind: CallKind) {
    && receipt.checkpoint.CoversReceipt(receipt.blockNumber, receipt.blockHash)
    && receipt.txHash != 0 && receipt.blockHash != 0 && receipt.success
    && receipt.chainId == c.request.chainId == receipt.checkpoint.chainId
    && receipt.sender == intent.caller && receipt.target == c.request.rollup
    && receipt.blockNumber >= intent.startBlock && receipt.nonce == intent.callerNonce
    && receipt.calldataHash == intent.calldataHash && receipt.callKind == kind
  }

  predicate PayoutConfirmed(c: Candidate, k: PayoutConfirmation) {
    && c.payoutBroadcast.Some?
    && var intent := c.payoutBroadcast.value;
    && k.creditBefore == intent.creditBefore
    && Settles(k.receipt, c, intent, if c.lane.Native? then WithdrawNative else WithdrawErc20)
    && k.finalizedAnchorObserved && k.nullifierUsedObserved
    && k.creditAfter == k.creditBefore + c.request.withdrawal.amount
  }

  predicate PullConfirmed(c: Candidate, k: PullConfirmation) {
    && c.payoutConfirmation.Some? && c.pullBroadcast.Some?
    && var intent := c.pullBroadcast.value;
    && intent.caller == c.request.withdrawal.recipient
    && k.creditBefore == intent.creditBefore && intent.creditBefore >= c.request.withdrawal.amount
    && Settles(k.receipt, c, intent, if c.lane.Native? then PullNative else PullErc20)
  }

  // ---------- updates of the active candidate ----------

  datatype Update =
    | MarkPayoutBroadcast(intent: Intent)
    | ConfirmPayout(payout: PayoutConfirmation)
    | RecordPayoutTxHash(txHash: Bytes32)
    | MarkRecipientPullDelegated
    | MarkPullBroadcast(intent: Intent)
    | ConfirmPull(pull: PullConfirmation)
    | RecordPullTxHash(txHash: Bytes32)

  function PushTxHash(hashes: seq<Bytes32>, txHash: Bytes32): Option<seq<Bytes32>> {
    if txHash == 0 then None
    else if txHash in hashes then Some(hashes)
    else if |hashes| >= MAX_REPLACEMENT_TX_HASHES then None
    else Some(hashes + [txHash])
  }

  // A journaled value is kept when it is the same, and never replaced.
  function Once<T(==)>(stored: Option<T>, value: T): Option<Option<T>> {
    if stored.Some? && stored.value != value then None else Some(Some(value))
  }

  function Updated(c: Candidate, u: Update): Option<Candidate> {
    match u
    case MarkPayoutBroadcast(intent) =>
      if c.payoutConfirmation.Some? then Some(c)
      else if intent.caller == 0 || intent.calldataHash == 0 then None
      else
        (match Once(c.payoutBroadcast, intent)
         case None => None
         case Some(journaled) => Some(c.(payoutBroadcast := journaled)))
    case ConfirmPayout(k) =>
      if !PayoutConfirmed(c, k) then None
      else if c.payoutConfirmation.Some? then if c.payoutConfirmation.value == k then Some(c) else None
      else
        (match PushTxHash(c.payoutTxHashes, k.receipt.txHash)
         case None => None
         case Some(hashes) => Some(c.(payoutTxHashes := hashes, payoutConfirmation := Some(k))))
    case RecordPayoutTxHash(hash) =>
      if c.payoutBroadcast.None? then None
      else if c.payoutConfirmation.Some?
      then if c.payoutConfirmation.value.receipt.txHash == hash then Some(c) else None
      else
        (match PushTxHash(c.payoutTxHashes, hash)
         case None => None
         case Some(hashes) => Some(c.(payoutTxHashes := hashes)))
    case MarkRecipientPullDelegated =>
      if c.payoutConfirmation.None? || c.pullBroadcast.Some? || c.pullConfirmation.Some? then None
      else Some(c.(delegated := true))
    case MarkPullBroadcast(intent) =>
      if c.delegated || c.payoutConfirmation.None? then None
      else if c.pullConfirmation.Some? then Some(c)
      else if intent.caller != c.request.withdrawal.recipient || intent.creditBefore < c.request.withdrawal.amount
      then None
      else
        (match Once(c.pullBroadcast, intent)
         case None => None
         case Some(journaled) => Some(c.(pullBroadcast := journaled)))
    case ConfirmPull(k) =>
      if !PullConfirmed(c, k) then None
      else if c.pullConfirmation.Some? then if c.pullConfirmation.value == k then Some(c) else None
      else
        (match PushTxHash(c.pullTxHashes, k.receipt.txHash)
         case None => None
         case Some(hashes) => Some(c.(pullTxHashes := hashes, pullConfirmation := Some(k))))
    case RecordPullTxHash(hash) =>
      if c.pullBroadcast.None? then None
      else if c.pullConfirmation.Some? then if c.pullConfirmation.value.receipt.txHash == hash then Some(c) else None
      else
        (match PushTxHash(c.pullTxHashes, hash)
         case None => None
         case Some(hashes) => Some(c.(pullTxHashes := hashes)))
  }

  // ---------- the durable snapshot ----------

  predicate Distinct(s: seq<Bytes32>) { forall i, j :: 0 <= i < j < |s| ==> s[i] != s[j] }

  predicate TxHashesValid(hashes: seq<Bytes32>, hasIntent: bool) {
    && (hashes != [] ==> hasIntent)
    && |hashes| <= MAX_REPLACEMENT_TX_HASHES
    && 0 !in hashes && Distinct(hashes)
  }

  predicate PayoutPhaseValid(c: Candidate) {
    && TxHashesValid(c.payoutTxHashes, c.payoutBroadcast.Some?)
    && (c.payoutBroadcast.Some? ==> c.payoutBroadcast.value.caller != 0 && c.payoutBroadcast.value.calldataHash != 0)
    && (c.payoutConfirmation.Some? ==>
          && c.payoutConfirmation.value.receipt.txHash in c.payoutTxHashes
          && PayoutConfirmed(c, c.payoutConfirmation.value))
  }

  predicate PullPhaseValid(c: Candidate) {
    && TxHashesValid(c.pullTxHashes, c.pullBroadcast.Some?)
    && (c.pullBroadcast.Some? ==>
          && c.payoutConfirmation.Some?
          && c.pullBroadcast.value.caller == c.request.withdrawal.recipient && c.pullBroadcast.value.calldataHash != 0
          && c.pullBroadcast.value.creditBefore >= c.request.withdrawal.amount)
    && (c.delegated ==> c.payoutConfirmation.Some? && c.pullBroadcast.None? && c.pullConfirmation.None?)
    && (c.pullConfirmation.Some? ==>
          c.pullConfirmation.value.receipt.txHash in c.pullTxHashes && PullConfirmed(c, c.pullConfirmation.value))
  }

  predicate VerifyDisk(env: Env, d: Snapshot) {
    && d.version == PAYOUT_VERSION
    && Distinct(d.completed)
    && (d.active.Some? ==>
          && var c := d.active.value;
          && ValidRequest(env, c.request) && c.id == env.identity(c.request) && c.lane == LaneFor(c.request.withdrawal)
          && PayoutPhaseValid(c) && PullPhaseValid(c)
          && (c.Complete() ==> c.Nullifier() in d.completed))
  }

  function Fresh(env: Env, r: Request): Candidate {
    Candidate(env.identity(r), r, LaneFor(r.withdrawal), None, [], None, false, None, [], None)
  }

  // What a call comes to: refused, answered as it stands, or a snapshot to persist.
  datatype Decision = Refuse | Keep | Write(next: Snapshot)

  // A snapshot that would not verify on reload is refused before it is written.
  function Checked(env: Env, next: Snapshot): Decision { if VerifyDisk(env, next) then Write(next) else Refuse }

  function PrepareDecision(env: Env, d: Snapshot, r: Request): Decision {
    if !ValidRequest(env, r) then Refuse
    else if d.active.Some? && d.active.value.id == env.identity(r) then Keep
    else if d.active.Some? && !d.active.value.Complete() then Refuse
    else if r.withdrawal.nullifier in d.completed then Refuse
    else Checked(env, d.(active := Some(Fresh(env, r))))
  }

  function Recorded(d: Snapshot, c: Candidate): Snapshot {
    d.(active := Some(c),
       completed := if c.Complete() && c.Nullifier() !in d.completed then d.completed + [c.Nullifier()]
                    else d.completed)
  }

  function MutateDecision(env: Env, d: Snapshot, id: Bytes32, u: Update): Decision {
    if d.active.None? || d.active.value.id != id then Refuse
    else
      match Updated(d.active.value, u)
      case None => Refuse
      case Some(c) => Checked(env, Recorded(d, c))
  }

  datatype Call = Prepare(request: Request) | Mutate(id: Bytes32, update: Update)

  function Decide(env: Env, d: Snapshot, call: Call): Decision {
    match call
    case Prepare(r) => PrepareDecision(env, d, r)
    case Mutate(id, u) => MutateDecision(env, d, id, u)
  }

  // ---------- runs ----------

  // `file` is what is durable; a failed write leaves either version and stops the process.
  datatype Store = Store(disk: Snapshot, poisoned: bool, file: Snapshot)

  datatype Persisted = Done | FailedOld | FailedNew

  datatype Event = Called(call: Call, outcome: Persisted) | Reopen

  const EMPTY := Snapshot(PAYOUT_VERSION, None, [])

  function Step(env: Env, s: Store, e: Event): Option<Store> {
    match e
    case Reopen => if VerifyDisk(env, s.file) then Some(Store(s.file, false, s.file)) else None
    case Called(call, outcome) =>
      if s.poisoned || !Decide(env, s.disk, call).Write? then Some(s)
      else
        var next := Decide(env, s.disk, call).next;
        match outcome
        case Done => Some(Store(next, false, next))
        case FailedOld => Some(s.(poisoned := true))
        case FailedNew => Some(s.(poisoned := true, file := next))
  }

  function Exec(env: Env, events: seq<Event>): Option<Store> {
    if events == [] then Some(Store(EMPTY, false, EMPTY))
    else
      match Exec(env, events[..|events| - 1])
      case None => None
      case Some(s) => Step(env, s, events[|events| - 1])
  }

  // ---------- the imperative store ----------

  method VerifyLedger(ledger: seq<Bytes32>) returns (ok: bool)
    ensures ok == Distinct(ledger)
  {
    var seen: set<Bytes32> := {};
    for i := 0 to |ledger|
      invariant forall h :: h in seen <==> h in ledger[..i]
      invariant Distinct(ledger[..i])
    {
      if ledger[i] in seen {
        var j :| 0 <= j < i && ledger[..i][j] == ledger[i];
        assert ledger[j] == ledger[i];
        return false;
      }
      seen := seen + {ledger[i]};
      assert ledger[..i + 1] == ledger[..i] + [ledger[i]];
    }
    assert ledger[..|ledger|] == ledger;
    return true;
  }

  class PartialWithdrawalPayoutStore {
    const env: Env
    var disk: Snapshot
    var poisoned: bool
    // The snapshot file as the next process would find it.
    var file: Snapshot

    ghost function Model(): Store
      reads this
    {
      Store(disk, poisoned, file)
    }

    constructor (env: Env, file: Snapshot)
      requires VerifyDisk(env, file)
      ensures this.env == env && Model() == Store(file, false, file)
    {
      this.env := env;
      disk, poisoned, this.file := file, false, file;
    }

    // A missing file starts an empty store; a file that does not verify is refused.
    static method OpenStore(env: Env, found: Option<Snapshot>) returns (r: Option<PartialWithdrawalPayoutStore>)
      ensures
        var file := if found.Some? then found.value else EMPTY;
        && r.Some? == VerifyDisk(env, file)
        && (r.Some? ==> fresh(r.value) && r.value.env == env && r.value.Model() == Store(file, false, file))
    {
      var file := if found.Some? then found.value else EMPTY;
      var distinct := VerifyLedger(file.completed);
      if !distinct || !VerifyDisk(env, file) {
        return None;
      }
      var store := new PartialWithdrawalPayoutStore(env, file);
      return Some(store);
    }

    method PersistSnapshot(next: Snapshot) returns (outcome: Persisted)
      modifies this`file
      ensures file == if outcome.FailedOld? then old(file) else next
    {
      outcome := *;
      if !outcome.FailedOld? {
        file := next;
      }
    }

    // One call behaves as the model's step, with the write outcome it met.
    twostate predicate Stepped(call: Call, outcome: Persisted)
      reads this
    {
      Some(Model()) == Step(env, old(Model()), Called(call, outcome))
    }

    method Commit(next: Snapshot) returns (ok: bool, outcome: Persisted)
      requires !poisoned
      modifies this
      ensures ok == (VerifyDisk(env, next) && outcome.Done?)
      ensures Model() == if !VerifyDisk(env, next) then old(Model())
                         else match outcome
                              case Done => Store(next, false, next)
                              case FailedOld => old(Model()).(poisoned := true)
                              case FailedNew => old(Model()).(poisoned := true, file := next)
    {
      outcome := Done;
      var distinct := VerifyLedger(next.completed);
      if !distinct || !VerifyDisk(env, next) {
        return false, outcome;
      }
      outcome := PersistSnapshot(next);
      if !outcome.Done? {
        poisoned := true;
        return false, outcome;
      }
      disk := next;
      ok := true;
    }

    method PreparePayout(r: Request) returns (candidate: Option<Candidate>, outcome: Persisted)
      modifies this
      ensures Stepped(Prepare(r), outcome)
      ensures candidate.Some? ==> candidate == disk.active && candidate.value.id == env.identity(r)
    {
      outcome, candidate := Done, None;
      if poisoned || !ValidRequest(env, r) {
        return;
      }
      if disk.active.Some? {
        if disk.active.value.id == env.identity(r) {
          candidate := disk.active;
          return;
        }
        if !disk.active.value.Complete() {
          return;
        }
      }
      if r.withdrawal.nullifier in disk.completed {
        return;
      }
      var ok;
      ok, outcome := Commit(disk.(active := Some(Fresh(env, r))));
      if ok {
        candidate := disk.active;
      }
    }

    method MutateCandidate(id: Bytes32, u: Update) returns (candidate: Option<Candidate>, outcome: Persisted)
      modifies this
      ensures Stepped(Mutate(id, u), outcome)
      ensures candidate.Some? ==> candidate == disk.active && candidate.value.id == id
    {
      outcome, candidate := Done, None;
      if poisoned || disk.active.None? || disk.active.value.id != id {
        return;
      }
      var updated := Updated(disk.active.value, u);
      if updated.None? {
        return;
      }
      var next := disk.(active := updated);
      if updated.value.Complete() && updated.value.Nullifier() !in next.completed {
        next := next.(completed := next.completed + [updated.value.Nullifier()]);
      }
      var ok;
      ok, outcome := Commit(next);
      if ok {
        candidate := disk.active;
      }
    }
  }
}
