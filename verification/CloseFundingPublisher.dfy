/**
  The close-funding publisher as an imperative program over the operator's disk and an arbitrary network.

  Every method may stop early at any durable or network boundary (an error return and a crash look the
  same to the disk), and every answer of the chain is arbitrary. `trace` records the signer-lane events
  performed so far, so `Valid` says the program never steps outside the protocol of module SignerLane.
*/
module CloseFundingPublisher {
  import opened Wrappers
  import opened MachineWords
  import opened L1Finality
  import opened PublicationPlan
  import opened SignerLane
  import opened SignerLaneSafety

  class PublisherHost {
    var records: map<Lane, SignerReservation>
    var journals: map<string, Journal>
    var nonces: map<Lane, nat>
    var sent: seq<Sent>
    const lockRoot: string
    const version: BindingVersion
    ghost var trace: seq<Event>

    function Model(): World
      reads this
    {
      World(records, journals, nonces, sent)
    }

    ghost predicate Valid()
      reads this
    {
      Exec(Genesis, trace) == Some(Model())
    }

    constructor (lockRoot: string, version: BindingVersion)
      ensures Valid() && Model() == Genesis
      ensures this.lockRoot == lockRoot && this.version == version
    {
      this.lockRoot := lockRoot;
      this.version := version;
      records, journals, nonces, sent := map[], map[], map[], [];
      trace := [];
    }

    // ---------- the environment ----------

    twostate predicate Undisturbed(path: string, lane: Lane)
      reads this
    {
      Spared(old(Model()), Model(), path, lane)
    }

    // An event of the protocol takes effect.
    method Happen(e: Event)
      requires Valid() && Enabled(Model(), e)
      modifies this
      ensures Valid() && Model() == Apply(old(Model()), e)
    {
      var after := Apply(Model(), e);
      ExecAppend(Genesis, trace, Model(), e);
      records, journals, nonces, sent := after.records, after.journals, after.nonces, after.sent;
      trace := trace + [e];
    }

    // Other publishers, other signers and the chain act, any number of times. The journal lock protects this
    // journal, the signer lock protects this lane's record and journals; account nonces only grow.
    method Interfere(path: string, lane: Lane)
      requires Valid()
      modifies this
      ensures Valid()
      ensures Undisturbed(path, lane)
    {
      var steps: int := *;
      while steps > 0
        invariant Valid() && Undisturbed(path, lane)
      {
        steps := steps - 1;
        var e: Event := *;
        if Enabled(Model(), e) && Elsewhere(Model(), e, path, lane) {
          ghost var before := Model();
          Happen(e);
          ElsewhereSpares(before, e, path, lane);
          SparedTransitive(old(Model()), before, Model(), path, lane);
        }
      }
    }

    // The chain includes this account's transaction with the given nonce, which spends it.
    method Mine(lane: Lane, nonce: nat)
      requires Valid()
      modifies this`nonces, this`trace
      ensures Valid()
      ensures nonces == old(nonces) || nonces == old(nonces)[lane := nonce + 1]
      ensures old(Model()).Nonce(lane) <= Model().Nonce(lane) && nonce < Model().Nonce(lane)
    {
      if Model().Nonce(lane) <= nonce {
        ghost var before := Model();
        nonces := nonces[lane := nonce + 1];
        ExecAppend(Genesis, trace, before, AccountSpends(lane, nonce + 1));
        trace := trace + [AccountSpends(lane, nonce + 1)];
      }
    }

    // ---------- the signer reservation ----------

    /** Claims a free lane, or confirms that the exact reservation is already held. */
    method Claim(r: SignerReservation) returns (ok: bool)
      requires Valid()
      modifies this`records, this`trace
      ensures Valid()
      ensures ok ==> r.lane in records && records[r.lane] == r
      ensures records == old(records) || (r.lane !in old(records) && records == old(records)[r.lane := r])
      ensures r.lane in old(records) ==> ok == (old(records)[r.lane] == r)
    {
      if r.lane in records {
        return records[r.lane] == r;
      }
      if * {
        return false;
      }
      ghost var before := Model();
      records := records[r.lane := r];
      ExecAppend(Genesis, trace, before, SignerLane.Claim(r));
      trace := trace + [SignerLane.Claim(r)];
      ok := *; // a failed directory fsync reports an error although the record exists
    }

    // Freeing this reservation leaves no unsettled transaction behind.
    ghost predicate Releasable(r: SignerReservation)
      reads this
    {
      r.ownerKind == CLOSE_FUNDING ==> !Model().Outstanding(r.journalPath, r.phase)
    }

    /**
      Removes the lane's record only when it is exactly `r`; any other record, or none, is an error. It stays
      inside the protocol when the record's transaction is settled.
    */
    method Release(r: SignerReservation) returns (ok: bool)
      modifies this`records, this`trace
      ensures old(Valid() && Releasable(r)) ==> Valid()
      ensures ok ==> r.lane in old(records) && old(records)[r.lane] == r && r.lane !in records
      ensures records == old(records)
              || (r.lane in old(records) && old(records)[r.lane] == r && records == old(records) - {r.lane})
    {
      if r.lane !in records || records[r.lane] != r {
        return false;
      }
      if * {
        return false;
      }
      ghost var before := Model();
      if Valid() && Releasable(r) {
        ExecAppend(Genesis, trace, before, SignerLane.Release(r));
      }
      records := records - {r.lane};
      trace := trace + [SignerLane.Release(r)];
      ok := *;
    }

    /** The recovery form: an absent or foreign record is left alone and is not an error. */
    method ReleaseIfExact(r: SignerReservation) returns (ok: bool)
      modifies this`records, this`trace
      ensures old(Valid() && Releasable(r)) ==> Valid()
      ensures ok ==> r.lane !in records || records[r.lane] != r
      ensures records == old(records)
              || (r.lane in old(records) && old(records)[r.lane] == r && records == old(records) - {r.lane})
    {
      if r.lane !in records || records[r.lane] != r {
        return true;
      }
      ok := Release(r);
    }

    // ---------- the journal ----------

    // One atomic replacement of the journal file, carrying out `events`. When it fails, either file survives.
    method WriteJournal(path: string, k: Journal, ghost events: seq<Event>) returns (ok: bool)
      requires Valid()
      requires Exec(Model(), events) == Some(Model().(journals := journals[path := k]))
      modifies this`journals, this`trace
      ensures Valid()
      ensures journals == old(journals) || journals == old(journals)[path := k]
      ensures ok ==> journals == old(journals)[path := k]
    {
      if * {
        return false;
      }
      ExecConcat(Genesis, trace, Model(), events);
      journals := journals[path := k];
      trace := trace + events;
      ok := *;
    }

    // The common case: the write carries out one event.
    method WriteEvent(path: string, k: Journal, ghost e: Event) returns (ok: bool)
      requires Valid() && Enabled(Model(), e) && Apply(Model(), e) == Model().(journals := journals[path := k])
      modifies this`journals, this`trace
      ensures Valid()
      ensures journals == old(journals) || journals == old(journals)[path := k]
      ensures ok ==> journals == old(journals)[path := k]
    {
      ExecAppend(Model(), [], Model(), e);
      ok := WriteJournal(path, k, [] + [e]);
    }

    // A journal that can be resumed: planned actions under their own keys, each settled at most one way.
    static ghost predicate Resumable(j: Journal) {
      && (forall id :: id in j.steps ==> IdOf(j.steps[id].action) == id)
      && (forall id :: id in j.adopted ==> IdOf(j.adopted[id].action) == id)
      && (forall id :: id in j.steps || id in j.adopted ==>
            exists l :: l in j.binding.plan.lanes && id in LaneIds(l))
      && forall id :: id in j.steps && j.steps[id].superseded.Some? ==>
           j.steps[id].confirmation.None? && id in j.adopted
    }

    static lemma ReloadIsResumable(j: Journal)
      ensures j.ReloadConsistent() <==> Resumable(j)
    {
      forall id
        ensures id in AllowedIds(j.binding) <==> exists l :: l in j.binding.plan.lanes && id in LaneIds(l)
      {
        PlannedIdsAreLaneIds(j.binding, id);
      }
    }

    /**
      Loads the journal of exactly this publication, or creates it; a sibling journal, or one that cannot be resumed,
      is refused, and nothing else is.
    */
    method LoadOrCreateJournal(path: string, b: Binding, signer: string) returns (loaded: Option<Journal>)
      requires Valid()
      modifies this`journals, this`trace
      ensures Valid()
      ensures forall p :: p in old(journals) ==> p in journals && journals[p] == old(journals)[p]
      ensures loaded.Some? ==>
                && path in journals && journals[path] == loaded.value
                && loaded.value.binding == b && loaded.value.signer == signer && loaded.value.lockRoot == lockRoot
                && ValidateBinding(version, b) && Resumable(loaded.value)
      ensures !ValidateBinding(version, b) ==> loaded.None? && journals == old(journals)
      ensures path in old(journals) ==>
                var j := old(journals)[path];
                loaded.Some? <==> && j.binding == b && j.signer == signer && j.lockRoot == lockRoot
                                  && ValidateBinding(version, b) && Resumable(j)
      ensures path !in old(journals) && loaded.Some? ==>
                loaded.value.steps == map[] && loaded.value.adopted == map[] && loaded.value.completed.None?
    {
      if path in journals {
        var j := journals[path];
        ReloadIsResumable(j);
        if !ValidateBinding(version, j.binding) || j.binding != b || j.signer != signer || j.lockRoot != lockRoot
           || !j.ReloadConsistent()
        {
          return None;
        }
        return Some(j);
      }
      if !ValidateBinding(version, b) {
        return None;
      }
      var initial := Journal(b, signer, lockRoot, map[], map[], None);
      var ok := WriteEvent(path, initial, Create(path, initial));
      return if ok then Some(initial) else None;
    }

    // A finalized head of the chain, or an error.
    method ReadDurableCheckpoint(chainId: nat) returns (c: Option<Checkpoint>)
      ensures c.Some? ==> c.value.Valid() && c.value.chainId == chainId
    {
      var head: Checkpoint := *;
      return if head.Valid() && head.chainId == chainId then Some(head) else None;
    }

    // ---------- network reads ----------

    /**
      Polls until the transaction is canonical and covered by two ordered durable heads; gives up at any time.
      When it is this signer's own transaction, a receipt means the chain has spent its nonce.
    */
    method WaitForFinalizedReceipt(path: string, lane: Lane, chainId: nat, txHash: string, own: Option<nat>)
      returns (r: Option<Receipt>)
      requires Valid()
      modifies this
      ensures Valid()
      ensures Undisturbed(path, lane)
      ensures r.Some? ==> r.value.txHash == txHash && r.value.Finalized(chainId)
      ensures r.Some? && own.Some? ==> own.value < Model().Nonce(lane)
    {
      Interfere(path, lane);
      var number: nat := *;
      var hash: Bytes32 := *;
      var before: Checkpoint := *;
      var after: Checkpoint := *;
      if before.chainId != chainId || !before.CoversReceipt(number, hash) || !CheckpointAdvances(before, after) {
        return None;
      }
      CoverageSurvivesAdvance(before, after, number, hash);
      if own.Some? {
        ghost var waited := Model();
        Mine(lane, own.value);
        SparedTransitive(old(Model()), waited, Model(), path, lane);
      }
      return Some(Receipt(txHash, hash, number, after));
    }

    /**
      Confirms this signer's own transaction; a stored confirmation is only replaced by the same one under a later
      head.
    */
    method ConfirmStep(path: string, j: Journal, id: ActionId) returns (c: Option<Confirmation>)
      requires Valid()
      requires path in journals && journals[path] == j && id in j.steps && id !in j.adopted
      modifies this
      ensures Valid()
      ensures Undisturbed(path, j.Lane())
      ensures c.Some? ==> j.CanConfirm(id, c.value) && j.steps[id].nonce < Model().Nonce(j.Lane())
    {
      var step := j.steps[id];
      var receipt := WaitForFinalizedReceipt(path, j.Lane(), j.binding.plan.chainId, step.txHash, Some(step.nonce));
      if receipt.None? {
        return None;
      }
      var evidence: string := *;
      var postState: string := *;
      var current := Confirmation(receipt.value, evidence, postState);
      if step.confirmation.Some? && !SameConfirmationLater(step.confirmation.value, current) {
        return None;
      }
      return Some(current);
    }

    /** Looks for a finalized completion of the action by anyone; more than one, or bad evidence, stops the run. */
    method DiscoverCompletion(path: string, j: Journal, a: Action) returns (ok: bool, found: Option<AdoptedStep>)
      requires Valid() && path in journals && journals[path] == j
      modifies this
      ensures Valid() && Undisturbed(path, j.Lane())
      ensures found.Some? ==> found.value.action == a
                              && found.value.confirmation.receipt.Finalized(j.binding.plan.chainId)
    {
      ok := *;
      var txHash: string := *;
      var receipt := WaitForFinalizedReceipt(path, j.Lane(), j.binding.plan.chainId, txHash, None);
      if receipt.None? {
        return ok, None;
      }
      var evidence: string := *;
      var postState: string := *;
      return ok, Some(AdoptedStep(a, Confirmation(receipt.value, evidence, postState)));
    }

    /** Offline signing: fails, or yields an unsettled raw transaction at a nonce the account has not spent. */
    method SignTransaction(lane: Lane, a: Action) returns (step: Option<RawStep>)
      ensures step.Some? ==>
                step.value.action == a && !step.value.Settled() && Model().Nonce(lane) <= step.value.nonce
    {
      var ahead: int := *;
      var raw: string := *;
      var txHash: string := *;
      if * {
        return None;
      }
      var nonce := Model().Nonce(lane) + if ahead > 0 then ahead else 0;
      return Some(RawStep(a, nonce, raw, txHash, None, None));
    }

    // ---------- network writes ----------

    /**
      Sends the journaled bytes unless the network already knows them; a consumed or skipped nonce stops the
      run. It stays inside the protocol when the transaction is unsettled and its reservation held.
    */
    method PublishExactRaw(path: string, j: Journal, id: ActionId) returns (ok: bool)
      requires path in journals && journals[path] == j && id in j.steps
      modifies this`sent, this`trace
      ensures old(Valid() && Model().Outstanding(path, id) && Model().Holds(path, id)) ==> Valid()
      ensures sent == old(sent) || sent == old(sent) + [Sent(path, id, j.steps[id].raw)]
      ensures sent != old(sent) ==> Model().Nonce(j.Lane()) == j.steps[id].nonce
    {
      var known: bool := *;
      if known {
        return true;
      }
      if Model().Nonce(j.Lane()) != j.steps[id].nonce {
        return false;
      }
      ghost var before := Model();
      if Valid() && before.Outstanding(path, id) && before.Holds(path, id) {
        ExecAppend(Genesis, trace, before, Broadcast(path, id));
      }
      sent := sent + [Sent(path, id, j.steps[id].raw)];
      trace := trace + [Broadcast(path, id)];
      ok := *;
    }

    /**
      Waits for the losing local transaction to become a finalized revert. Without a receipt it may only
      replay the journaled bytes, and only while no superseded receipt has been stored; then the replay stays
      inside the protocol when the transaction is unsettled and its reservation held.
    */
    method EnsureSupersededSettled(path: string, j: Journal, id: ActionId) returns (r: Option<Receipt>)
      requires Valid() && path in journals && journals[path] == j && id in j.steps
      modifies this
      ensures old(j.steps[id].superseded.None? ==> Model().Outstanding(path, id) && Model().Holds(path, id)) ==> Valid()
      ensures Undisturbed(path, j.Lane())
      ensures r.Some? ==>
                && Valid() && j.steps[id].nonce < Model().Nonce(j.Lane())
                && r.value.txHash == j.steps[id].txHash && r.value.Finalized(j.binding.plan.chainId)
                && (j.steps[id].superseded.Some? ==> SameReceiptLater(j.steps[id].superseded.value, r.value))
    {
      var step := j.steps[id];
      var hasReceipt: bool := *;
      if !hasReceipt {
        if step.superseded.None? {
          var _ := PublishExactRaw(path, j, id);
        }
        return None;
      }
      var reverted: bool := *;
      if !reverted {
        return None;
      }
      var receipt := WaitForFinalizedReceipt(path, j.Lane(), j.binding.plan.chainId, step.txHash, Some(step.nonce));
      if receipt.None? {
        return None;
      }
      if step.superseded.Some? && !SameReceiptLater(step.superseded.value, receipt.value) {
        return None;
      }
      return receipt;
    }

    // ---------- one action ----------

    // Later content of the same journal: nothing finalized is lost.
    static ghost predicate Progressed(j: Journal, k: Journal) {
      && k.binding == j.binding && k.signer == j.signer && k.lockRoot == j.lockRoot && k.completed == j.completed
      && forall id :: j.ActionFinalized(id) ==> k.ActionFinalized(id)
    }

    // The state every per-action method leaves behind, whether or not it stopped early.
    ghost predicate Consistent(path: string, j: Journal)
      reads this
    {
      Valid() && path in journals && Progressed(j, journals[path])
    }

    // The action is finalized in the journal and no longer reserved.
    ghost predicate Finished(path: string, j: Journal, k: Journal, a: Action)
      reads this
    {
      Consistent(path, j) && journals[path] == k && k.ActionFinalized(IdOf(a)) && !Model().Holds(path, IdOf(a))
    }

    // What is reserved for a journal depends on the records and on its binding and signer alone.
    static lemma SameReservations(w: World, n: World, path: string)
      requires path in w.journals && path in n.journals && n.records == w.records
      requires n.journals[path].binding == w.journals[path].binding
      requires n.journals[path].signer == w.journals[path].signer
      ensures forall id :: n.Holds(path, id) <==> w.Holds(path, id)
    {
      assert forall id :: ReservationFor(path, n.journals[path], id) == ReservationFor(path, w.journals[path], id);
    }

    // Nothing of this journal is reserved that was not before, except this action.
    twostate predicate ReservesOnly(path: string, id: ActionId)
      reads this
    {
      forall other :: other != id && Model().Holds(path, other) ==> old(Model().Holds(path, other))
    }

    // What protocol safety says about one slot of this journal.
    lemma SlotFacts(path: string, j: Journal, id: ActionId)
      requires Valid() && path in journals && journals[path] == j && id in j.steps
      ensures id in j.adopted ==>
                j.steps[id].confirmation.None? && j.steps[id].txHash != j.adopted[id].confirmation.receipt.txHash
      ensures id !in j.adopted ==> j.steps[id].superseded.None?
    {
      RunsAreSafe(Genesis, trace, Model());
      assert JournalSound(j) && SlotSound(j, id);
    }

    /** An adopted action: refresh its evidence, and settle the local transaction that lost the race, if any. */
    method RevalidateAdoptedAction(path: string, j: Journal, a: Action) returns (ok: bool, k: Journal)
      requires Valid() && path in journals && journals[path] == j && IdOf(a) in j.adopted
      modifies this
      ensures Consistent(path, j) && ReservesOnly(path, IdOf(a))
      ensures ok ==> Finished(path, j, k, a)
    {
      var id := IdOf(a);
      ok, k := false, j;
      var winner := j.adopted[id].confirmation.receipt.txHash;
      var receipt := WaitForFinalizedReceipt(path, j.Lane(), j.binding.plan.chainId, winner, None);
      if receipt.None? {
        return;
      }
      var evidence: string := *;
      var postState: string := *;
      var current := Confirmation(receipt.value, evidence, postState);
      if !SameConfirmationLater(j.adopted[id].confirmation, current) {
        return;
      }
      var loser: Option<Receipt> := None;
      var needsReservation := false;
      if id in j.steps {
        needsReservation := j.steps[id].superseded.None?;
        loser := SettleLoser(path, j, id);
        if loser.None? {
          return;
        }
        if j.steps[id].superseded != loser {
          k := j.Superseded(id, loser.value);
        }
      }
      ok, k := StoreAdopted(path, j, loser, a, k, current, needsReservation);
    }

    // Writes the revalidated adoption, then frees the lane.
    method StoreAdopted(path: string, j: Journal, loser: Option<Receipt>, a: Action, s: Journal, current: Confirmation,
                        needsReservation: bool)
      returns (ok: bool, k: Journal)
      requires Valid() && path in journals && journals[path] == j && j.CanRefresh(IdOf(a), current)
      requires IdOf(a) in j.steps ==> IdOf(a) in s.steps && s.steps[IdOf(a)].Settled()
      requires s == j || (loser.Some? && j.CanSupersede(IdOf(a), loser.value) && s == j.Superseded(IdOf(a), loser.value)
                          && j.steps[IdOf(a)].nonce < Model().Nonce(j.Lane()))
      modifies this
      ensures Consistent(path, j) && ReservesOnly(path, IdOf(a))
      ensures ok ==> Finished(path, j, k, a)
    {
      var id, r := IdOf(a), ReservationFor(path, j, IdOf(a));
      ok := WriteAdopted(path, j, loser, id, s, current);
      k := if s.adopted[id].confirmation != current then s.Refreshed(id, current) else s;
      SameReservations(old(Model()), Model(), path);
      if ok {
        if needsReservation {
          ok := Release(r);
        } else {
          ok := ReleaseIfExact(r);
        }
      }
    }

    // Re-establishes the reservation of an unsettled loser, then waits for its finalized revert.
    method SettleLoser(path: string, j: Journal, id: ActionId) returns (loser: Option<Receipt>)
      requires Valid() && path in journals && journals[path] == j && id in j.adopted && id in j.steps
      modifies this
      ensures Valid() && path in journals && journals[path] == j
      ensures old(Model()).Nonce(j.Lane()) <= Model().Nonce(j.Lane()) && ReservesOnly(path, id)
      ensures loser.Some? ==> j.CanSupersede(id, loser.value) && j.steps[id].nonce < Model().Nonce(j.Lane())
    {
      if j.steps[id].txHash == j.adopted[id].confirmation.receipt.txHash {
        return None;
      }
      SlotFacts(path, j, id);
      if j.steps[id].superseded.None? {
        var claimed := Claim(ReservationFor(path, j, id));
        if !claimed {
          return None;
        }
      }
      loser := EnsureSupersededSettled(path, j, id);
    }

    // The single write of a revalidated adoption: the loser's receipt (already in `s`) and the fresh evidence together.
    method WriteAdopted(path: string, j: Journal, loser: Option<Receipt>, id: ActionId, s: Journal,
                        current: Confirmation)
      returns (ok: bool)
      requires Valid() && path in journals && journals[path] == j && j.CanRefresh(id, current)
      requires s == j || (loser.Some? && j.CanSupersede(id, loser.value) && s == j.Superseded(id, loser.value)
                          && j.steps[id].nonce < Model().Nonce(j.Lane()))
      modifies this`journals, this`trace
      ensures Valid() && path in journals
      ensures
        var k := if s.adopted[id].confirmation != current then s.Refreshed(id, current) else s;
        journals[path] in {j, k} && (ok ==> journals[path] == k) && journals == old(journals)[path := journals[path]]
    {
      var k := s;
      ghost var events := [];
      ghost var w := Model();
      if s != j {
        ExecAppend(w, [], w, Supersede(path, id, loser.value));
        events := [] + [Supersede(path, id, loser.value)];
      }
      ghost var mid := w.(journals := w.journals[path := s]);
      assert Exec(w, events) == Some(mid) by {
        assert s == j ==> w.journals[path := s] == w.journals;
      }
      if k.adopted[id].confirmation != current {
        k := k.Refreshed(id, current);
        ExecAppend(w, events, mid, Refresh(path, id, current));
        assert mid.journals[path := k] == w.journals[path := k];
        events := events + [Refresh(path, id, current)];
      }
      ok := true;
      if k != j {
        ok := WriteJournal(path, k, events);
      }
    }

    /** A completion found on chain: our own transaction becomes a confirmation, anyone else's an adoption. */
    method AdoptCompletion(path: string, j: Journal, a: Action, found: AdoptedStep) returns (ok: bool, k: Journal)
      requires Valid() && path in journals && journals[path] == j
      requires j.PlannedAndReady(a) && IdOf(a) !in j.adopted
      requires found.action == a && found.confirmation.receipt.Finalized(j.binding.plan.chainId)
      requires IdOf(a) in j.steps ==> !j.steps[IdOf(a)].Settled() && Model().Holds(path, IdOf(a))
      modifies this
      ensures Consistent(path, j) && ReservesOnly(path, IdOf(a))
      ensures ok ==> Finished(path, j, k, a)
    {
      var id := IdOf(a);
      if id in j.steps && j.steps[id].txHash == found.confirmation.receipt.txHash {
        ok, k := ConfirmOwn(path, j, a);
        return;
      }
      k := j.Adopting(found);
      ok := WriteEvent(path, k, Adopt(path, found));
      if !ok {
        return;
      }
      if id in k.steps {
        ok, k := SupersedeOwn(path, k, a);
      } else {
        ok := ReleaseIfExact(ReservationFor(path, j, id));
      }
    }

    // The winning completion is this journal's own transaction.
    method ConfirmOwn(path: string, j: Journal, a: Action) returns (ok: bool, k: Journal)
      requires Valid() && path in journals && journals[path] == j && IdOf(a) in j.steps && IdOf(a) !in j.adopted
      modifies this
      ensures Consistent(path, j) && ReservesOnly(path, IdOf(a))
      ensures ok ==> Finished(path, j, k, a)
    {
      ok, k := false, j;
      var c := ConfirmStep(path, j, IdOf(a));
      if c.Some? {
        ok, k := WriteConfirmation(path, j, IdOf(a), c.value);
        if ok {
          ok := Release(ReservationFor(path, j, IdOf(a)));
        }
      }
    }

    // Someone else's completion is adopted: settle the local transaction that lost, then free the lane.
    method SupersedeOwn(path: string, j: Journal, a: Action) returns (ok: bool, k: Journal)
      requires Valid() && path in journals && journals[path] == j && IdOf(a) in j.steps && IdOf(a) in j.adopted
      requires !j.steps[IdOf(a)].Settled() && Model().Holds(path, IdOf(a))
      modifies this
      ensures Consistent(path, j) && ReservesOnly(path, IdOf(a))
      ensures ok ==> Finished(path, j, k, a)
    {
      ok, k := false, j;
      var id := IdOf(a);
      var loser := EnsureSupersededSettled(path, j, id);
      if loser.None? {
        return;
      }
      k := j.Superseded(id, loser.value);
      ok := WriteEvent(path, k, Supersede(path, id, loser.value));
      if ok {
        ok := Release(ReservationFor(path, j, id));
      }
    }

    // Stores a confirmation unless it is already the stored one.
    method WriteConfirmation(path: string, j: Journal, id: ActionId, c: Confirmation) returns (ok: bool, k: Journal)
      requires Valid() && path in journals && journals[path] == j
      requires j.CanConfirm(id, c) && j.steps[id].nonce < Model().Nonce(j.Lane())
      modifies this`journals, this`trace
      ensures Valid()
      ensures k == j.Confirmed(id, c)
      ensures journals == old(journals) || journals == old(journals)[path := k]
      ensures ok ==> path in journals && journals[path] == k
    {
      k := j.Confirmed(id, c);
      if j.steps[id].confirmation == Some(c) {
        assert k == j by {
          assert k.steps == j.steps;
        }
        return true, k;
      }
      ok := WriteEvent(path, k, Confirm(path, id, c));
    }

    lemma FreshNonce(lane: Lane, nonce: nat)
      requires Valid() && Model().Nonce(lane) <= nonce
      ensures Model().AboveSettled(lane, nonce)
    {
      RunsAreSafe(Genesis, trace, Model());
      UnspentIsAbove(Model(), lane, nonce);
    }

    /** Reserves the lane, signs, and journals the raw bytes before any network API may observe them. */
    method SignNewStep(path: string, j: Journal, a: Action) returns (ok: bool, k: Journal)
      requires Valid() && path in journals && journals[path] == j
      requires j.PlannedAndReady(a) && IdOf(a) !in j.steps && IdOf(a) !in j.adopted
      modifies this
      ensures Consistent(path, j) && ReservesOnly(path, IdOf(a))
      ensures ok ==>
                && journals[path] == k && k.adopted == j.adopted
                && Model().Outstanding(path, IdOf(a)) && Model().Holds(path, IdOf(a))
    {
      var id, r := IdOf(a), ReservationFor(path, j, IdOf(a));
      ok, k := false, j;
      var claimed := Claim(r);
      if !claimed {
        return;
      }
      var signed := SignTransaction(j.Lane(), a);
      if signed.None? {
        var _ := Release(r);
        return;
      }
      FreshNonce(j.Lane(), signed.value.nonce);
      ok, k := JournalSigned(path, j, signed.value);
    }

    // Journals a signed transaction after anyone else may have acted.
    method JournalSigned(path: string, j: Journal, step: RawStep) returns (ok: bool, k: Journal)
      requires Valid() && path in journals && journals[path] == j && j.CanSign(step)
      requires Model().Holds(path, IdOf(step.action)) && Model().AboveSettled(j.Lane(), step.nonce)
      modifies this
      ensures Consistent(path, j) && Model().Holds(path, IdOf(step.action))
      ensures ok ==> journals[path] == k && k.adopted == j.adopted && Model().Outstanding(path, IdOf(step.action))
    {
      Interfere(path, j.Lane());
      SparedKeepsAbove(old(Model()), Model(), path, j.Lane(), step.nonce);
      ghost var before := Model();
      k := j.Signed(step);
      ok := WriteEvent(path, k, Sign(path, step));
      SameReservations(before, Model(), path);
    }

    /** One iteration of the publication loop. */
    method PublishAction(path: string, j: Journal, a: Action) returns (ok: bool, k: Journal)
      requires Valid() && path in journals && journals[path] == j && a in PlannedActions(j.binding)
      modifies this
      ensures Consistent(path, j) && ReservesOnly(path, IdOf(a))
      ensures ok ==> Finished(path, j, k, a)
    {
      var id, r := IdOf(a), ReservationFor(path, j, IdOf(a));
      ok, k := false, j;
      if !j.PrerequisitesMet(a) {
        return;
      }
      var decision := ResumeDecisionFor(j, id);
      if decision == RevalidateAdopted {
        ok, k := RevalidateAdoptedAction(path, j, a);
        return;
      }
      if decision != RevalidateConfirmed {
        if id in j.steps {
          SlotFacts(path, j, id);
          var claimed := Claim(r);
          if !claimed {
            return;
          }
        }
        var scanned, found := DiscoverCompletion(path, j, a);
        if !scanned {
          return;
        }
        if found.Some? {
          ok, k := AdoptCompletion(path, j, a, found.value);
          return;
        }
        if decision == SignNew {
          ok, k := SignNewStep(path, j, a);
          if !ok {
            return;
          }
        }
        ok := PublishExactRaw(path, k, id);
        if !ok {
          return;
        }
      }
      ok, k := ConfirmAndRelease(path, k, a, decision == RevalidateConfirmed);
    }

    // Stores (or refreshes) the confirmation durably before the lane is freed.
    method ConfirmAndRelease(path: string, j: Journal, a: Action, revalidating: bool) returns (ok: bool, k: Journal)
      requires Valid() && path in journals && journals[path] == j && IdOf(a) in j.steps && IdOf(a) !in j.adopted
      modifies this
      ensures Consistent(path, j) && ReservesOnly(path, IdOf(a))
      ensures ok ==> Finished(path, j, k, a)
    {
      var id, r := IdOf(a), ReservationFor(path, j, IdOf(a));
      ok, k := false, j;
      var c := ConfirmStep(path, j, id);
      if c.None? {
        return;
      }
      ok, k := WriteConfirmation(path, j, id, c.value);
      if ok {
        if revalidating {
          ok := ReleaseIfExact(r);
        } else {
          ok := Release(r);
        }
      }
    }

    // Every lane of the plan is materialized in this journal and every token of the lane pulled.
    static ghost predicate EveryLaneSettled(j: Journal) {
      forall l :: l in j.binding.plan.lanes ==>
        SettledOnce(j, MaterializeId(l.kind)) && forall t :: t in l.tokens ==> SettledOnce(j, PullId(t))
    }

    lemma ListsInOrder(path: string, p: Publication)
      requires Valid() && path in journals && journals[path].AllFinalized() && journals[path].Publishes(p)
      ensures forall n :: 0 <= n < |PlannedActions(journals[path].binding)| ==>
                Lists(journals[path], p, n, IdOf(PlannedActions(journals[path].binding)[n]))
    {
      RunsAreSafe(Genesis, trace, Model());
      var j := journals[path];
      forall n | 0 <= n < |PlannedActions(j.binding)| ensures Lists(j, p, n, IdOf(PlannedActions(j.binding)[n])) {
        assert PlannedActions(j.binding)[n] in PlannedActions(j.binding);
        FinalizedIsSettledOnce(j, IdOf(PlannedActions(j.binding)[n]));
      }
    }

    lemma AllLanesSettled(path: string)
      requires Valid() && path in journals && journals[path].AllFinalized()
      ensures EveryLaneSettled(journals[path])
    {
      RunsAreSafe(Genesis, trace, Model());
      var j := journals[path];
      forall l, id | l in j.binding.plan.lanes && id in LaneIds(l) ensures SettledOnce(j, id) {
        var a := LaneIdIsPlanned(j.binding, l, id);
        FinalizedIsSettledOnce(j, id);
      }
      forall l, t | l in j.binding.plan.lanes && t in l.tokens ensures SettledOnce(j, PullId(t)) {
        assert PullId(t) in LaneIds(l);
      }
    }

    // None of the lanes' work is reserved for this journal any more.
    static ghost predicate NothingReserved(w: World, path: string, b: Binding) {
      forall l, id :: l in b.plan.lanes && id in LaneIds(l) ==> !w.Holds(path, id)
    }

    // Every planned action is finalized in this journal and no longer reserved.
    static ghost predicate PlanDone(w: World, path: string, b: Binding) {
      && path in w.journals && w.journals[path].binding == b
      && forall n :: 0 <= n < |PlannedActions(b)| ==>
           && w.journals[path].ActionFinalized(IdOf(PlannedActions(b)[n]))
           && !w.Holds(path, IdOf(PlannedActions(b)[n]))
    }

    static lemma DoneReservesNothing(w: World, path: string, b: Binding)
      requires PlanDone(w, path, b)
      ensures NothingReserved(w, path, b)
    {
      forall l, id | l in b.plan.lanes && id in LaneIds(l) ensures !w.Holds(path, id) {
        var a := LaneIdIsPlanned(b, l, id);
        var n :| 0 <= n < |PlannedActions(b)| && PlannedActions(b)[n] == a;
      }
    }

    // The plan stays done when only the stored publication changes.
    static lemma CompletingKeepsDone(w: World, n: World, path: string, b: Binding, p: Publication)
      requires PlanDone(w, path, b)
      requires n == w.(journals := w.journals[path := w.journals[path].(completed := Some(p))])
      ensures PlanDone(n, path, b)
    {
      SameReservations(w, n, path);
    }

    // What a returned publication means: stored, true of every lane, listing the settling transactions in plan order.
    ghost predicate Published(path: string, b: Binding, p: Publication)
      reads this
    {
      && path in journals && journals[path].binding == b && journals[path].completed == Some(p)
      && EveryLaneSettled(journals[path]) && NothingReserved(Model(), path, b)
      && p.digest == b.digest && Durable(p.checkpoint, b.plan.chainId)
      && |p.transactions| == |PlannedActions(b)|
      && (forall n :: 0 <= n < |PlannedActions(b)| ==> Lists(journals[path], p, n, IdOf(PlannedActions(b)[n])))
    }

    lemma PublishedWhenStored(path: string, b: Binding, p: Publication)
      requires Valid() && PlanDone(Model(), path, b) && journals[path].completed == Some(p)
      ensures Published(path, b, p)
    {
      RunsAreSafe(Genesis, trace, Model());
      AllLanesSettled(path);
      ListsInOrder(path, p);
      DoneReservesNothing(Model(), path, b);
    }

    // Stores the publication of a finished plan, or confirms the stored one under a later head.
    method StorePublication(path: string, j: Journal, b: Binding) returns (published: Option<Publication>)
      requires Valid() && PlanDone(Model(), path, b) && journals[path] == j
      modifies this`journals, this`trace
      ensures Valid()
      ensures published.Some? ==> Published(path, b, published.value) && journals[path].signer == j.signer
    {
      var checkpoint := ReadDurableCheckpoint(b.plan.chainId);
      if checkpoint.None? {
        return None;
      }
      var publication := Publication(b.digest, TransactionsOf(j, PlannedActions(b)), checkpoint.value);
      if j.completed.Some? {
        var stored := j.completed.value;
        if !CheckpointAdvances(stored.checkpoint, checkpoint.value)
           || stored != publication.(checkpoint := stored.checkpoint)
        {
          return None;
        }
      }
      if j.completed != Some(publication) {
        var ok := WriteEvent(path, j.(completed := Some(publication)), Complete(path, publication));
        if !ok {
          return None;
        }
        CompletingKeepsDone(old(Model()), Model(), path, b, publication);
      }
      PublishedWhenStored(path, b, publication);
      return Some(publication);
    }

    /**
      Publishes the whole plan. A publication is returned only when every lane of the plan is materialized and every
      lane token pulled, by finalized receipts in this journal, and the returned publication is stored in it; it
      lists the settling transactions in plan order, and nothing is left reserved.
    */
    method PublishCloseFunding(path: string, b: Binding, signer: string) returns (published: Option<Publication>)
      requires Valid()
      modifies this
      ensures Valid()
      ensures published.Some? ==> Published(path, b, published.value) && journals[path].signer == signer
      ensures !ValidateBinding(version, b) ==> published.None? && Model() == old(Model())
    {
      var loaded := LoadOrCreateJournal(path, b, signer);
      if loaded.None? {
        return None;
      }
      var journal := loaded.value;
      var actions := PlannedActions(b);
      var i := 0;
      while i < |actions|
        invariant 0 <= i <= |actions|
        invariant Valid() && path in journals && journals[path] == journal
        invariant journal.binding == b && journal.signer == signer
        invariant forall n :: 0 <= n < i ==>
                    journal.ActionFinalized(IdOf(actions[n])) && !Model().Holds(path, IdOf(actions[n]))
      {
        var ok, next := PublishAction(path, journal, actions[i]);
        if !ok {
          return None;
        }
        journal := next;
        i := i + 1;
      }
      published := StorePublication(path, journal, b);
    }
  }

  // The settling transaction of each action, in plan order: the adopted winner, or the local transaction.
  function TransactionsOf(j: Journal, actions: seq<Action>): (txs: seq<string>)
    requires forall n :: 0 <= n < |actions| ==> j.ActionFinalized(IdOf(actions[n]))
    ensures |txs| == |actions| && forall n :: 0 <= n < |actions| ==> txs[n] == j.SettledBy(IdOf(actions[n]))
  {
    if actions == [] then []
    else
      var id := IdOf(actions[0]);
      assert j.ActionFinalized(id);
      [if id in j.adopted then j.adopted[id].confirmation.receipt.txHash else j.steps[id].txHash]
      + TransactionsOf(j, actions[1..])
  }

  // ---------- the schema this build prepares and the schema it validates ----------

  const PREPARED_VERSION: BindingVersion := BindingVersion(3, "close-funding-publication-binding-v3")
  const VALIDATED_VERSION: BindingVersion := BindingVersion(2, "close-funding-publication-binding-v2")

  /** A prepared binding is accepted exactly when both sides use one schema and domain. */
  lemma PreparedBindingAcceptedIff(prepared: BindingVersion, validated: BindingVersion, plan: Plan)
    ensures ValidateBinding(validated, PrepareBinding(prepared, plan)) <==> prepared == validated
  {
  }

  /** As the two versions stand, every plan's binding is refused, whatever the journal file holds. */
  method PublishAsBuilt(host: PublisherHost, path: string, plan: Plan, signer: string)
    returns (published: Option<Publication>)
    requires host.Valid() && host.version == VALIDATED_VERSION
    modifies host
    ensures published.None? && host.Model() == old(host.Model())
  {
    PreparedBindingAcceptedIff(PREPARED_VERSION, VALIDATED_VERSION, plan);
    published := host.PublishCloseFunding(path, PrepareBinding(PREPARED_VERSION, plan), signer);
  }
}
