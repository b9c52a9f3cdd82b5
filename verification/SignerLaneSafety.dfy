/** What every reachable world of the signer-lane protocol satisfies, whatever the interleaving and the crash points. */
module SignerLaneSafety {
  import opened Wrappers
  import opened L1Finality
  import opened PublicationPlan
  import opened SignerLane

  // ---------- the invariant ----------

  // One journal slot: planned, ready, and settled at most one way by finalized receipts of its own transaction.
  ghost predicate SlotSound(j: Journal, id: ActionId) {
    && (id in j.steps ==>
          var s := j.steps[id];
          && id in AllowedIds(j.binding) && id == IdOf(s.action) && j.PrerequisitesMet(s.action)
          && (s.confirmation.Some? ==>
               id !in j.adopted && s.superseded.None? && OwnReceipt(j, s, s.confirmation.value.receipt))
          && (s.superseded.Some? ==> id in j.adopted && OwnReceipt(j, s, s.superseded.value)))
    && (id in j.adopted ==>
          var a := j.adopted[id];
          && id in AllowedIds(j.binding) && id == IdOf(a.action) && j.PrerequisitesMet(a.action)
          && Final(a.confirmation.receipt, j.binding.plan.chainId)
          && (id in j.steps ==> j.steps[id].txHash != a.confirmation.receipt.txHash))
  }

  // A finalized head of this chain; only the development chain may stand in its latest block.
  ghost predicate Durable(h: Checkpoint, chainId: nat) {
    && h.chainId == chainId != 0 && h.blockHash != 0 && (h.blockNumber != 0 ==> h.parentHash != 0)
    && (h.source == DevnetLatest ==> chainId == 31337)
  }

  // A block of this chain at or below a durable head, and the head itself when it is at its height.
  ghost predicate Final(r: Receipt, chainId: nat) {
    && r.blockHash != 0 && Durable(r.checkpoint, chainId)
    && (|| r.blockNumber < r.checkpoint.blockNumber
        || (r.blockNumber == r.checkpoint.blockNumber && r.blockHash == r.checkpoint.blockHash))
  }

  ghost predicate OwnReceipt(j: Journal, s: RawStep, r: Receipt) {
    r.txHash == s.txHash && Final(r, j.binding.plan.chainId)
  }

  ghost predicate JournalSound(j: Journal) {
    && (forall id {:trigger SlotSound(j, id)} :: SlotSound(j, id))
    && (j.completed.Some? ==> j.AllFinalized() && j.Publishes(j.completed.value))
  }

  ghost predicate JournalsSound(w: World) {
    forall path :: path in w.journals ==> JournalSound(w.journals[path])
  }

  // While a raw transaction is unsettled, its lane's record names exactly that journal and action.
  ghost predicate OutstandingIsReserved(w: World) {
    forall path, id :: w.Outstanding(path, id) ==> w.Holds(path, id)
  }

  ghost predicate SettledIsSpent(w: World) {
    forall path, id :: w.HasStep(path, id) && w.StepAt(path, id).Settled() ==>
      w.StepAt(path, id).nonce < w.Nonce(w.journals[path].Lane())
  }

  ghost predicate NoncesDistinct(w: World) {
    forall p, i, q, k {:trigger NoncesDiffer(w, p, i, q, k)} :: NoncesDiffer(w, p, i, q, k)
  }

  ghost predicate NoncesDiffer(w: World, p: string, i: ActionId, q: string, k: ActionId) {
    w.HasStep(p, i) && w.HasStep(q, k) && w.journals[p].Lane() == w.journals[q].Lane() && (p != q || i != k) ==>
      w.StepAt(p, i).nonce != w.StepAt(q, k).nonce
  }

  ghost predicate SentIsJournaled(w: World) {
    forall s :: s in w.sent ==> w.HasStep(s.path, s.id) && w.StepAt(s.path, s.id).raw == s.raw
  }

  ghost predicate Safe(w: World) {
    JournalsSound(w) && OutstandingIsReserved(w) && SettledIsSpent(w) && NoncesDistinct(w) && SentIsJournaled(w)
  }

  // ---------- one event keeps it ----------

  // A write changes one slot and unfinalizes nothing.
  ghost predicate ChangesOnly(j: Journal, k: Journal, changed: ActionId) {
    && k.binding == j.binding && k.completed == j.completed
    && (forall id :: id != changed ==> (id in k.steps) == (id in j.steps) && (id in k.adopted) == (id in j.adopted))
    && (forall id :: id != changed && id in j.steps ==> k.steps[id] == j.steps[id])
    && (forall id :: id != changed && id in j.adopted ==> k.adopted[id] == j.adopted[id])
    && (j.ActionFinalized(changed) ==> k.ActionFinalized(changed) && k.SettledBy(changed) == j.SettledBy(changed))
  }

  lemma PrerequisitesKept(j: Journal, k: Journal, changed: ActionId, a: Action)
    requires ChangesOnly(j, k, changed) && j.PrerequisitesMet(a)
    ensures k.PrerequisitesMet(a)
  {
  }

  lemma ChangeKeepsJournal(j: Journal, k: Journal, changed: ActionId)
    requires JournalSound(j) && ChangesOnly(j, k, changed) && SlotSound(k, changed)
    ensures JournalSound(k)
  {
    forall id
      ensures SlotSound(k, id)
    {
      assert SlotSound(j, id);
      if id != changed && id in j.steps {
        PrerequisitesKept(j, k, changed, j.steps[id].action);
      }
      if id != changed && id in j.adopted {
        PrerequisitesKept(j, k, changed, j.adopted[id].action);
      }
    }
    assert forall id :: j.ActionFinalized(id) ==> k.ActionFinalized(id) && k.SettledBy(id) == j.SettledBy(id);
  }

  lemma SignKeepsSlot(j: Journal, step: RawStep)
    requires JournalSound(j) && j.CanSign(step)
    ensures ChangesOnly(j, j.Signed(step), IdOf(step.action)) && SlotSound(j.Signed(step), IdOf(step.action))
  {
    assert SlotSound(j, IdOf(step.action));
    PrerequisitesKept(j, j.Signed(step), IdOf(step.action), step.action);
  }

  lemma ConfirmKeepsSlot(j: Journal, id: ActionId, c: Confirmation)
    requires JournalSound(j) && j.CanConfirm(id, c)
    ensures ChangesOnly(j, j.Confirmed(id, c), id) && SlotSound(j.Confirmed(id, c), id)
  {
    assert SlotSound(j, id);
    PrerequisitesKept(j, j.Confirmed(id, c), id, j.steps[id].action);
  }

  lemma AdoptKeepsSlot(j: Journal, a: AdoptedStep)
    requires JournalSound(j) && j.CanAdopt(a)
    ensures ChangesOnly(j, j.Adopting(a), IdOf(a.action)) && SlotSound(j.Adopting(a), IdOf(a.action))
  {
    assert SlotSound(j, IdOf(a.action));
    PrerequisitesKept(j, j.Adopting(a), IdOf(a.action), a.action);
  }

  lemma RefreshKeepsSlot(j: Journal, id: ActionId, c: Confirmation)
    requires JournalSound(j) && j.CanRefresh(id, c)
    ensures ChangesOnly(j, j.Refreshed(id, c), id) && SlotSound(j.Refreshed(id, c), id)
  {
    assert SlotSound(j, id);
    PrerequisitesKept(j, j.Refreshed(id, c), id, j.adopted[id].action);
  }

  lemma SupersedeKeepsSlot(j: Journal, id: ActionId, r: Receipt)
    requires JournalSound(j) && j.CanSupersede(id, r)
    ensures ChangesOnly(j, j.Superseded(id, r), id) && SlotSound(j.Superseded(id, r), id)
  {
    assert SlotSound(j, id);
    PrerequisitesKept(j, j.Superseded(id, r), id, j.steps[id].action);
    PrerequisitesKept(j, j.Superseded(id, r), id, j.adopted[id].action);
  }

  lemma WriteKeepsSlot(j: Journal, e: Event, k: Journal, id: ActionId)
    requires JournalSound(j) && IsWrite(j, e, k, id)
    ensures ChangesOnly(j, k, id) && SlotSound(k, id)
  {
    match e
    case Sign(_, step) => SignKeepsSlot(j, step);
    case Confirm(_, _, c) => ConfirmKeepsSlot(j, id, c);
    case Adopt(_, a) => AdoptKeepsSlot(j, a);
    case Refresh(_, _, c) => RefreshKeepsSlot(j, id, c);
    case Supersede(_, _, r) => SupersedeKeepsSlot(j, id, r);
  }

  // Event `e` rewrites journal content `j` into `k` at slot `id`.
  ghost predicate IsWrite(j: Journal, e: Event, k: Journal, id: ActionId) {
    match e
    case Sign(_, step) => j.CanSign(step) && k == j.Signed(step) && id == IdOf(step.action)
    case Confirm(_, i, c) => j.CanConfirm(i, c) && k == j.Confirmed(i, c) && id == i
    case Adopt(_, a) => j.CanAdopt(a) && k == j.Adopting(a) && id == IdOf(a.action)
    case Refresh(_, i, c) => j.CanRefresh(i, c) && k == j.Refreshed(i, c) && id == i
    case Supersede(_, i, r) => j.CanSupersede(i, r) && k == j.Superseded(i, r) && id == i
    case _ => false
  }

  // The slot a journal write touches.
  function SlotOf(e: Event): ActionId {
    match e
    case Sign(_, step) => IdOf(step.action)
    case Confirm(_, id, _) => id
    case Adopt(_, a) => IdOf(a.action)
    case Refresh(_, id, _) => id
    case Supersede(_, id, _) => id
    case _ => PullId(0)
  }

  lemma JournalsStep(w: World, e: Event)
    requires JournalsSound(w) && Enabled(w, e)
    ensures JournalsSound(Apply(w, e))
  {
    var n := Apply(w, e);
    forall path | path in n.journals
      ensures JournalSound(n.journals[path])
    {
      if path in w.journals && n.journals[path] != w.journals[path] {
        var j, k := w.journals[path], n.journals[path];
        if e.Complete? {
          forall id
            ensures SlotSound(k, id)
          {
            assert SlotSound(j, id);
          }
        } else {
          WriteKeepsSlot(j, e, k, SlotOf(e));
          ChangeKeepsJournal(j, k, SlotOf(e));
        }
      }
    }
  }

  lemma ReservationStep(w: World, e: Event)
    requires OutstandingIsReserved(w) && Enabled(w, e)
    ensures OutstandingIsReserved(Apply(w, e))
  {
    var n := Apply(w, e);
    forall path, id | n.Outstanding(path, id)
      ensures n.Holds(path, id)
    {
      if !(e.Sign? && path == e.path && id == IdOf(e.step.action)) {
        assert w.Outstanding(path, id);
      }
    }
  }

  /** A reservation record names one journal and one action, so a lane has at most one unsettled raw transaction. */
  lemma OneOutstandingPerLane(w: World, p: string, i: ActionId, q: string, k: ActionId)
    requires OutstandingIsReserved(w)
    requires w.Outstanding(p, i) && w.Outstanding(q, k)
    requires w.journals[p].Lane() == w.journals[q].Lane()
    ensures p == q && i == k
  {
    assert w.Holds(p, i) && w.Holds(q, k);
  }

  lemma SpentStep(w: World, e: Event)
    requires SettledIsSpent(w) && Enabled(w, e)
    ensures SettledIsSpent(Apply(w, e))
  {
    var n := Apply(w, e);
    forall path, id | n.HasStep(path, id) && n.StepAt(path, id).Settled()
      ensures n.StepAt(path, id).nonce < n.Nonce(n.journals[path].Lane())
    {
      if w.HasStep(path, id) && w.StepAt(path, id).Settled() {
        assert w.StepAt(path, id).nonce < w.Nonce(w.journals[path].Lane());
      }
    }
  }

  lemma NonceStep(w: World, e: Event)
    requires OutstandingIsReserved(w) && NoncesDistinct(w) && Enabled(w, e)
    ensures NoncesDistinct(Apply(w, e))
  {
    var n := Apply(w, e);
    forall p, i, q, k
      ensures NoncesDiffer(n, p, i, q, k)
    {
      assert NoncesDiffer(w, p, i, q, k);
      if e.Sign? {
        NewNonceIsFresh(w, e, p, i);
        NewNonceIsFresh(w, e, q, k);
      }
    }
  }

  // The new nonce is above every settled transaction, and the held record excludes any unsettled one.
  lemma NewNonceIsFresh(w: World, e: Event, p: string, i: ActionId)
    requires OutstandingIsReserved(w)
    requires e.Sign? && Enabled(w, e)
    ensures w.HasStep(p, i) && w.journals[p].Lane() == w.journals[e.path].Lane() ==> w.StepAt(p, i).nonce < e.step.nonce
  {
    if w.HasStep(p, i) && w.journals[p].Lane() == w.journals[e.path].Lane() {
      assert w.Outstanding(p, i) ==> w.Holds(p, i);
      assert w.journals[p].SettledBelow(e.step.nonce);
    }
  }

  // A nonce the account has not spent is above every settled transaction of the lane.
  lemma UnspentIsAbove(w: World, lane: Lane, nonce: nat)
    requires SettledIsSpent(w) && w.Nonce(lane) <= nonce
    ensures w.AboveSettled(lane, nonce)
  {
    forall path | path in w.journals && w.journals[path].Lane() == lane ensures w.journals[path].SettledBelow(nonce) {
      forall id | id in w.journals[path].steps && w.journals[path].steps[id].Settled()
        ensures w.journals[path].steps[id].nonce < nonce
      {
        assert w.HasStep(path, id);
      }
    }
  }

  lemma SentStep(w: World, e: Event)
    requires SentIsJournaled(w) && Enabled(w, e)
    ensures SentIsJournaled(Apply(w, e))
  {
    var n := Apply(w, e);
    forall s | s in n.sent
      ensures n.HasStep(s.path, s.id) && n.StepAt(s.path, s.id).raw == s.raw
    {
      assert s in w.sent || (e.Broadcast? && s == Sent(e.path, e.id, w.StepAt(e.path, e.id).raw));
    }
  }

  lemma SafeStep(w: World, e: Event)
    requires Safe(w) && Enabled(w, e)
    ensures Safe(Apply(w, e))
  {
    JournalsStep(w, e);
    ReservationStep(w, e);
    SpentStep(w, e);
    NonceStep(w, e);
    SentStep(w, e);
  }

  // ---------- every run keeps it ----------

  /** Every world reached from a safe one is safe: any journals, any signers, any interleaving, any crash point. */
  lemma {:induction false} RunsAreSafe(w: World, events: seq<Event>, n: World)
    requires Safe(w) && Exec(w, events) == Some(n)
    ensures Safe(n)
    decreases |events|
  {
    if events != [] {
      var before := events[..|events| - 1];
      var mid := Exec(w, before).value;
      RunsAreSafe(w, before, mid);
      SafeStep(mid, events[|events| - 1]);
    }
  }

  /**
    From the empty world, per signer account: at most one journaled raw transaction is neither confirmed
    nor superseded, and while one exists the reservation record names exactly its journal and action.
  */
  lemma SingleOutstandingNonce(events: seq<Event>, w: World, p: string, i: ActionId, q: string, k: ActionId)
    requires Exec(Genesis, events) == Some(w)
    requires w.Outstanding(p, i)
    ensures
      var lane := SignerAccount(w.journals[p].binding.plan.chainId, w.journals[p].signer);
      && lane in w.records
      && var r := w.records[lane];
      && r.lane == lane && r.ownerKind == "close-funding" && r.journalPath == p && r.phase == i
      && r.intent == (w.journals[p].binding.digest, i)
    ensures w.Outstanding(q, k) && w.journals[q].Lane() == w.journals[p].Lane() ==> q == p && k == i
  {
    RunsAreSafe(Genesis, events, w);
    assert w.Holds(p, i);
    if w.Outstanding(q, k) && w.journals[q].Lane() == w.journals[p].Lane() {
      OneOutstandingPerLane(w, p, i, q, k);
    }
  }

  /** No account ever journals two transactions with one nonce, so no journaled transaction replaces another. */
  lemma NoNonceIsReused(events: seq<Event>, w: World, p: string, i: ActionId, q: string, k: ActionId)
    requires Exec(Genesis, events) == Some(w)
    requires w.HasStep(p, i) && w.HasStep(q, k) && w.journals[p].Lane() == w.journals[q].Lane()
    requires w.StepAt(p, i).nonce == w.StepAt(q, k).nonce
    ensures p == q && i == k
  {
    RunsAreSafe(Genesis, events, w);
    assert NoncesDiffer(w, p, i, q, k);
  }

  // Settled in this journal by its own finalized confirmation or by a finalized adopted one, and not by both.
  ghost predicate SettledOnce(j: Journal, id: ActionId) {
    var chain := j.binding.plan.chainId;
    if id in j.adopted then
      && Final(j.adopted[id].confirmation.receipt, chain)
      && (id in j.steps ==>
            j.steps[id].confirmation.None? && j.steps[id].txHash != j.adopted[id].confirmation.receipt.txHash)
    else
      && id in j.steps && j.steps[id].confirmation.Some? && j.steps[id].superseded.None?
      && j.steps[id].confirmation.value.receipt.txHash == j.steps[id].txHash
      && Final(j.steps[id].confirmation.value.receipt, chain)
  }

  lemma FinalizedIsSettledOnce(j: Journal, id: ActionId)
    requires JournalSound(j) && j.ActionFinalized(id)
    ensures SettledOnce(j, id)
  {
    assert SlotSound(j, id);
  }

  lemma SoundJournalsReload(j: Journal)
    requires JournalSound(j)
    ensures j.ReloadConsistent()
  {
    assert forall id :: id in j.steps || id in j.adopted ==> SlotSound(j, id);
  }

  /**
    In every reachable journal the reload check passes; and whatever is finalized is settled one way, by a finalized
    receipt of the journal's chain. A pull is only ever started with its token's lane finalized.
  */
  lemma SettlementIsExclusive(events: seq<Event>, w: World, path: string, id: ActionId)
    requires Exec(Genesis, events) == Some(w) && path in w.journals
    ensures w.journals[path].ReloadConsistent()
    ensures
      var j := w.journals[path];
      var table := j.binding.plan.tokenLanes;
      && (j.ActionFinalized(id) ==> SettledOnce(j, id))
      && (id.PullId? && (id in j.steps || id in j.adopted) ==>
            id.token in table && SettledOnce(j, MaterializeId(table[id.token])))
  {
    RunsAreSafe(Genesis, events, w);
    var j := w.journals[path];
    SoundJournalsReload(j);
    assert SlotSound(j, id);
    if j.ActionFinalized(id) {
      FinalizedIsSettledOnce(j, id);
    }
    if id.PullId? && (id in j.steps || id in j.adopted) {
      FinalizedIsSettledOnce(j, MaterializeId(j.binding.plan.tokenLanes[id.token]));
    }
  }

  // The n-th listed transaction is the one whose finalized receipt settled this action.
  ghost predicate Lists(j: Journal, p: Publication, n: nat, id: ActionId) {
    && SettledOnce(j, id) && n < |p.transactions|
    && p.transactions[n] == if id in j.adopted then j.adopted[id].confirmation.receipt.txHash
                            else j.steps[id].confirmation.value.receipt.txHash
  }

  lemma PlannedIsListed(j: Journal, a: Action) returns (n: nat)
    requires JournalSound(j) && j.completed.Some? && a in PlannedActions(j.binding)
    ensures Lists(j, j.completed.value, n, IdOf(a))
  {
    n :| 0 <= n < |PlannedActions(j.binding)| && PlannedActions(j.binding)[n] == a;
    FinalizedIsSettledOnce(j, IdOf(a));
  }

  // The publication lists a transaction that settled this action in the journal.
  ghost predicate Listed(j: Journal, p: Publication, id: ActionId) { exists n :: Lists(j, p, n, id) }

  lemma LaneIsListed(j: Journal, l: PlannedLane, id: ActionId)
    requires JournalSound(j) && j.completed.Some? && l in j.binding.plan.lanes && id in LaneIds(l)
    ensures Listed(j, j.completed.value, id)
  {
    var a := LaneIdIsPlanned(j.binding, l, id);
    var n := PlannedIsListed(j, a);
  }

  /**
    A stored publication is true of the whole plan: every lane is materialized and every token of it pulled, each by
    a transaction with a finalized receipt that the publication lists, and it carries the journal's own digest.
  */
  lemma PublicationCoversEveryLane(events: seq<Event>, w: World, path: string, l: PlannedLane)
    requires Exec(Genesis, events) == Some(w) && path in w.journals
    requires w.journals[path].completed.Some? && l in w.journals[path].binding.plan.lanes
    ensures
      var j := w.journals[path];
      var p := j.completed.value;
      && p.digest == j.binding.digest && Durable(p.checkpoint, j.binding.plan.chainId)
      && |p.transactions| == |PlannedActions(j.binding)|
      && Listed(j, p, MaterializeId(l.kind)) && forall t :: t in l.tokens ==> Listed(j, p, PullId(t))
  {
    RunsAreSafe(Genesis, events, w);
    forall id | id in LaneIds(l) ensures Listed(w.journals[path], w.journals[path].completed.value, id) {
      LaneIsListed(w.journals[path], l, id);
    }
    assert forall t :: t in l.tokens ==> PullId(t) in LaneIds(l);
  }

  // ---------- what a run never undoes ----------

  // The same durable head, or a higher one of the same chain and source.
  ghost predicate HeadKept(a: Checkpoint, b: Checkpoint) {
    a == b || (a.chainId == b.chainId && a.source == b.source && a.blockNumber < b.blockNumber)
  }

  ghost predicate ReceiptKept(s: Receipt, t: Receipt) {
    && (t.txHash, t.blockHash, t.blockNumber) == (s.txHash, s.blockHash, s.blockNumber)
    && HeadKept(s.checkpoint, t.checkpoint)
  }

  ghost predicate ConfirmationKept(c: Confirmation, d: Confirmation) {
    ReceiptKept(c.receipt, d.receipt) && d.evidence == c.evidence && d.postState == c.postState
  }

  ghost predicate StepKept(s: RawStep, t: RawStep) {
    && (t.action, t.nonce, t.raw, t.txHash) == (s.action, s.nonce, s.raw, s.txHash)
    && (s.confirmation.Some? ==>
          t.confirmation.Some? && ConfirmationKept(s.confirmation.value, t.confirmation.value))
    && (s.superseded.Some? ==> t.superseded.Some? && ReceiptKept(s.superseded.value, t.superseded.value))
  }

  ghost predicate AdoptedKept(a: AdoptedStep, b: AdoptedStep) {
    b.action == a.action && ConfirmationKept(a.confirmation, b.confirmation)
  }

  ghost predicate PublicationKept(p: Publication, q: Publication) {
    q.digest == p.digest && q.transactions == p.transactions && HeadKept(p.checkpoint, q.checkpoint)
  }

  ghost predicate JournalKept(j: Journal, k: Journal) {
    && k.binding == j.binding && k.signer == j.signer && k.lockRoot == j.lockRoot
    && (forall id :: id in j.steps ==> id in k.steps && StepKept(j.steps[id], k.steps[id]))
    && (forall id :: id in j.adopted ==> id in k.adopted && AdoptedKept(j.adopted[id], k.adopted[id]))
    && (j.completed.Some? ==> k.completed.Some? && PublicationKept(j.completed.value, k.completed.value))
  }

  function SentFor(sent: seq<Sent>, path: string, id: ActionId): nat {
    if sent == [] then 0
    else
      (if sent[|sent| - 1].path == path && sent[|sent| - 1].id == id then 1 else 0)
      + SentFor(sent[..|sent| - 1], path, id)
  }

  ghost predicate SettledNotResent(w: World, n: World) {
    forall path, id :: w.HasStep(path, id) && w.StepAt(path, id).Settled() ==>
      SentFor(n.sent, path, id) == SentFor(w.sent, path, id)
  }

  ghost predicate Kept(w: World, n: World) {
    && (forall path :: path in w.journals ==>
          path in n.journals && JournalKept(w.journals[path], n.journals[path]))
    && SettledNotResent(w, n)
  }

  lemma KeptStep(w: World, e: Event)
    requires Enabled(w, e)
    ensures Kept(w, Apply(w, e))
  {
    var n := Apply(w, e);
    if e.Broadcast? {
      assert n.sent[..|n.sent| - 1] == w.sent;
    }
    forall path | path in w.journals
      ensures JournalKept(w.journals[path], n.journals[path])
    {
      var j, k := w.journals[path], n.journals[path];
      if k != j && !e.Complete? {
        WriteKeepsReceipts(j, e, k, SlotOf(e));
      }
    }
  }

  lemma WriteKeepsReceipts(j: Journal, e: Event, k: Journal, id: ActionId)
    requires IsWrite(j, e, k, id)
    ensures JournalKept(j, k)
  {
    assert id in j.steps ==> id in k.steps && StepKept(j.steps[id], k.steps[id]);
    assert id in j.adopted ==> id in k.adopted && AdoptedKept(j.adopted[id], k.adopted[id]);
  }

  lemma StepKeptTransitive(a: RawStep, b: RawStep, c: RawStep)
    requires StepKept(a, b) && StepKept(b, c)
    ensures StepKept(a, c)
  {
  }

  lemma JournalKeptTransitive(a: Journal, b: Journal, c: Journal)
    requires JournalKept(a, b) && JournalKept(b, c)
    ensures JournalKept(a, c)
  {
    forall id | id in a.steps
      ensures StepKept(a.steps[id], c.steps[id])
    {
      StepKeptTransitive(a.steps[id], b.steps[id], c.steps[id]);
    }
    forall id | id in a.adopted
      ensures AdoptedKept(a.adopted[id], c.adopted[id])
    {
      assert AdoptedKept(a.adopted[id], b.adopted[id]) && AdoptedKept(b.adopted[id], c.adopted[id]);
    }
  }

  lemma KeptTransitive(a: World, b: World, c: World)
    requires Kept(a, b) && Kept(b, c)
    ensures Kept(a, c)
  {
    forall path | path in a.journals
      ensures path in c.journals && JournalKept(a.journals[path], c.journals[path])
    {
      JournalKeptTransitive(a.journals[path], b.journals[path], c.journals[path]);
    }
    forall path, id | a.HasStep(path, id) && a.StepAt(path, id).Settled()
      ensures SentFor(c.sent, path, id) == SentFor(a.sent, path, id)
    {
      assert StepKept(a.StepAt(path, id), b.StepAt(path, id));
    }
  }

  /**
    Along any run: an action's raw bytes, nonce and hash are fixed once journaled; a confirmation, a
    superseded receipt or an adoption keeps its canonical receipt under advancing durable heads; and a
    settled transaction is never sent again.
  */
  lemma {:induction false} RunsOnlyExtend(w: World, events: seq<Event>, n: World)
    requires Exec(w, events) == Some(n)
    ensures Kept(w, n)
    decreases |events|
  {
    if events != [] {
      var before := events[..|events| - 1];
      var mid := Exec(w, before).value;
      RunsOnlyExtend(w, before, mid);
      KeptStep(mid, events[|events| - 1]);
      KeptTransitive(w, mid, n);
    }
  }

  /** Nothing is broadcast unless those exact bytes are already in the durable journal, under its reservation. */
  lemma BroadcastsAreJournaled(events: seq<Event>, w: World, path: string, id: ActionId)
    requires Exec(Genesis, events) == Some(w) && Enabled(w, Broadcast(path, id))
    ensures w.HasStep(path, id)
    ensures Apply(w, Broadcast(path, id)).sent == w.sent + [Sent(path, id, w.StepAt(path, id).raw)]
    ensures forall q, k :: w.Outstanding(q, k) && w.journals[q].Lane() == w.journals[path].Lane() ==>
        q == path && k == id
    ensures forall s :: s in w.sent ==> w.HasStep(s.path, s.id) && w.StepAt(s.path, s.id).raw == s.raw
  {
    RunsAreSafe(Genesis, events, w);
    forall q, k | w.Outstanding(q, k) && w.journals[q].Lane() == w.journals[path].Lane()
      ensures q == path && k == id
    {
      OneOutstandingPerLane(w, path, id, q, k);
    }
  }
}
