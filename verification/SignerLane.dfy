/**
  The durable protocol behind close-funding publication: one reservation record per (chain, signer),
  one journal file per publication, and the bytes that reached the network.

  Every durable write and every network send is one event. A crash is the end of a run of events, and
  publishers of any number of journals and signers interleave freely, so the reachable worlds are the
  results of all event sequences.
*/
module SignerLane {
  import opened Wrappers
  import opened MachineWords
  import opened L1Finality
  import opened PublicationPlan

  // ---------- journals and reservations ----------

  datatype Receipt = Receipt(txHash: string, blockHash: Bytes32, blockNumber: nat, checkpoint: Checkpoint)
  {
    predicate Finalized(chainId: nat) {
      checkpoint.CoversReceipt(blockNumber, blockHash) && checkpoint.chainId == chainId
    }
  }

  datatype Confirmation = Confirmation(receipt: Receipt, evidence: string, postState: string)

  // A stored receipt may only be replaced by the same canonical receipt under a later durable head.
  predicate SameReceiptLater(stored: Receipt, current: Receipt) {
    && CheckpointAdvances(stored.checkpoint, current.checkpoint)
    && stored.txHash == current.txHash
    && stored.blockHash == current.blockHash
    && stored.blockNumber == current.blockNumber
  }

  predicate SameConfirmationLater(stored: Confirmation, current: Confirmation) {
    && SameReceiptLater(stored.receipt, current.receipt)
    && stored.evidence == current.evidence
    && stored.postState == current.postState
  }

  datatype RawStep = RawStep(action: Action, nonce: nat, raw: string, txHash: string,
                             confirmation: Option<Confirmation>, superseded: Option<Receipt>)
  {
    predicate Settled() { confirmation.Some? || superseded.Some? }
  }

  datatype AdoptedStep = AdoptedStep(action: Action, confirmation: Confirmation)

  datatype Publication = Publication(digest: BindingDigest, transactions: seq<string>, checkpoint: Checkpoint)

  datatype Journal = Journal(binding: Binding, signer: string, lockRoot: string, steps: map<ActionId, RawStep>,
                             adopted: map<ActionId, AdoptedStep>, completed: Option<Publication>)
  {
    function Lane(): Lane { SignerAccount(binding.plan.chainId, signer) }

    predicate ActionFinalized(id: ActionId) {
      id in adopted || (id in steps && steps[id].confirmation.Some?)
    }

    // The transaction that settled an action: the adopted winner's, or the local one.
    function SettledBy(id: ActionId): string
      requires ActionFinalized(id)
    {
      if id in adopted then adopted[id].confirmation.receipt.txHash else steps[id].txHash
    }

    // A pull needs its token's lane materialized; a materialization needs nothing.
    predicate PrerequisitesMet(a: Action) {
      a.IsPull() ==>
        a.Token() in binding.plan.tokenLanes && ActionFinalized(MaterializeId(binding.plan.tokenLanes[a.Token()]))
    }

    // The consistency check applied to every journal read back from disk.
    predicate ReloadConsistent() {
      && (forall id :: id in steps ==> id in AllowedIds(binding) && id == IdOf(steps[id].action))
      && (forall id :: id in adopted ==> id in AllowedIds(binding) && id == IdOf(adopted[id].action))
      && (forall id :: id in steps ==>
            && !(steps[id].confirmation.Some? && steps[id].superseded.Some?)
            && (steps[id].superseded.Some? ==> id in adopted))
    }

    // The writes a publisher makes, each with what it has checked first.

    predicate CanSign(step: RawStep) {
      && PlannedAndReady(step.action)
      && IdOf(step.action) !in steps && IdOf(step.action) !in adopted
      && !step.Settled()
    }

    function Signed(step: RawStep): Journal {
      this.(steps := steps[IdOf(step.action) := step])
    }

    predicate CanConfirm(id: ActionId, c: Confirmation) {
      && id in steps && id !in adopted
      && c.receipt.txHash == steps[id].txHash
      && c.receipt.Finalized(binding.plan.chainId)
      && (steps[id].confirmation.Some? ==> SameConfirmationLater(steps[id].confirmation.value, c))
    }

    function Confirmed(id: ActionId, c: Confirmation): Journal
      requires id in steps
    {
      this.(steps := steps[id := steps[id].(confirmation := Some(c))])
    }

    predicate CanAdopt(a: AdoptedStep) {
      var id := IdOf(a.action);
      && PlannedAndReady(a.action)
      && id !in adopted
      && a.confirmation.receipt.Finalized(binding.plan.chainId)
      && (id in steps ==> steps[id].confirmation.None? && steps[id].txHash != a.confirmation.receipt.txHash)
    }

    function Adopting(a: AdoptedStep): Journal {
      this.(adopted := adopted[IdOf(a.action) := a])
    }

    predicate CanRefresh(id: ActionId, c: Confirmation) {
      && id in adopted
      && SameConfirmationLater(adopted[id].confirmation, c)
      && c.receipt.Finalized(binding.plan.chainId)
    }

    function Refreshed(id: ActionId, c: Confirmation): Journal
      requires id in adopted
    {
      this.(adopted := adopted[id := adopted[id].(confirmation := c)])
    }

    predicate CanSupersede(id: ActionId, r: Receipt) {
      && id in steps && id in adopted
      && r.txHash == steps[id].txHash
      && r.Finalized(binding.plan.chainId)
      && (steps[id].superseded.Some? ==> SameReceiptLater(steps[id].superseded.value, r))
    }

    function Superseded(id: ActionId, r: Receipt): Journal
      requires id in steps
    {
      this.(steps := steps[id := steps[id].(superseded := Some(r))])
    }

    // Every settled transaction of this journal has a nonce below the given one.
    predicate SettledBelow(nonce: nat) {
      forall id :: id in steps && steps[id].Settled() ==> steps[id].nonce < nonce
    }

    predicate AllFinalized() {
      forall a :: a in PlannedActions(binding) ==> ActionFinalized(IdOf(a))
    }

    // The publication of this journal: its digest, the settling transactions in plan order, a head of its chain.
    predicate Publishes(p: Publication)
      requires AllFinalized()
    {
      && p.digest == binding.digest
      && p.checkpoint.Valid() && p.checkpoint.chainId == binding.plan.chainId
      && |p.transactions| == |PlannedActions(binding)|
      && forall n :: 0 <= n < |p.transactions| ==> p.transactions[n] == SettledBy(IdOf(PlannedActions(binding)[n]))
    }

    predicate CanComplete(p: Publication) {
      && AllFinalized() && Publishes(p)
      && (completed.Some? ==>
            && CheckpointAdvances(completed.value.checkpoint, p.checkpoint)
            && completed.value == p.(checkpoint := completed.value.checkpoint))
    }

    predicate PlannedAndReady(a: Action) {
      a in PlannedActions(binding) && PrerequisitesMet(a)
    }
  }

  function AllowedIds(b: Binding): set<ActionId> {
    set a | a in PlannedActions(b) :: IdOf(a)
  }

  datatype ResumeDecision = SignNew | ReplayExact | RevalidateConfirmed | RevalidateAdopted

  function ResumeDecisionFor(j: Journal, id: ActionId): ResumeDecision {
    if id in j.adopted then RevalidateAdopted
    else if id !in j.steps then SignNew
    else if j.steps[id].confirmation.None? then ReplayExact
    else RevalidateConfirmed
  }

  datatype Lane = SignerAccount(chainId: nat, signer: string)

  const CLOSE_FUNDING: string := "close-funding"

  // The intent hash is kept as its preimage: binding digest and action.
  datatype SignerReservation = SignerReservation(lane: Lane, ownerKind: string, journalPath: string, phase: ActionId,
                                                 intent: (BindingDigest, ActionId))

  function ReservationFor(path: string, j: Journal, id: ActionId): SignerReservation {
    SignerReservation(j.Lane(), CLOSE_FUNDING, path, id, (j.binding.digest, id))
  }

  datatype Sent = Sent(path: string, id: ActionId, raw: string)

  datatype World = World(records: map<Lane, SignerReservation>, journals: map<string, Journal>,
                         nonces: map<Lane, nat>, sent: seq<Sent>)
  {
    function Nonce(lane: Lane): nat { if lane in nonces then nonces[lane] else 0 }

    predicate HasStep(path: string, id: ActionId) { path in journals && id in journals[path].steps }

    function StepAt(path: string, id: ActionId): RawStep
      requires HasStep(path, id)
    {
      journals[path].steps[id]
    }

    // A journaled raw transaction whose nonce is not yet known to be spent.
    predicate Outstanding(path: string, id: ActionId) { HasStep(path, id) && !StepAt(path, id).Settled() }

    predicate AboveSettled(lane: Lane, nonce: nat) {
      forall path :: path in journals && journals[path].Lane() == lane ==> journals[path].SettledBelow(nonce)
    }

    predicate Holds(path: string, id: ActionId) {
      && path in journals
      && var lane := journals[path].Lane();
      lane in records && records[lane] == ReservationFor(path, journals[path], id)
    }
  }

  const Genesis: World := World(map[], map[], map[], [])

  // ---------- events ----------

  datatype Event =
    | Claim(reservation: SignerReservation)
    | Release(reservation: SignerReservation)
    | Create(path: string, journal: Journal)
    | Sign(path: string, step: RawStep)
    | Confirm(path: string, id: ActionId, confirmation: Confirmation)
    | Adopt(path: string, adopted: AdoptedStep)
    | Refresh(path: string, id: ActionId, confirmation: Confirmation)
    | Supersede(path: string, id: ActionId, receipt: Receipt)
    | Complete(path: string, publication: Publication)
    | Broadcast(path: string, id: ActionId)
    | AccountSpends(lane: Lane, nonce: nat)

  // What the acting publisher (or the chain, for AccountSpends) has established when the event happens.
  // That a finalized receipt has spent its nonce, and that account nonces only grow, are facts of the chain.
  predicate Enabled(w: World, e: Event) {
    match e
    case Claim(r) => r.lane !in w.records
    case Release(r) =>
      && r.lane in w.records && w.records[r.lane] == r
      && (r.ownerKind == CLOSE_FUNDING ==> !w.Outstanding(r.journalPath, r.phase))
    case Create(path, j) => path !in w.journals && j.steps == map[] && j.adopted == map[] && j.completed == None
    case Sign(path, step) =>
      && path in w.journals && w.journals[path].CanSign(step)
      && w.Holds(path, IdOf(step.action))
      && w.AboveSettled(w.journals[path].Lane(), step.nonce)
    case Confirm(path, id, c) =>
      && path in w.journals && w.journals[path].CanConfirm(id, c)
      && w.StepAt(path, id).nonce < w.Nonce(w.journals[path].Lane())
    case Adopt(path, a) => path in w.journals && w.journals[path].CanAdopt(a)
    case Refresh(path, id, c) => path in w.journals && w.journals[path].CanRefresh(id, c)
    case Supersede(path, id, r) =>
      && path in w.journals && w.journals[path].CanSupersede(id, r)
      && w.StepAt(path, id).nonce < w.Nonce(w.journals[path].Lane())
    case Complete(path, p) => path in w.journals && w.journals[path].CanComplete(p)
    case Broadcast(path, id) => w.Outstanding(path, id) && w.Holds(path, id)
    case AccountSpends(lane, nonce) => w.Nonce(lane) <= nonce
  }

  function Apply(w: World, e: Event): World
    requires Enabled(w, e)
  {
    match e
    case Claim(r) => w.(records := w.records[r.lane := r])
    case Release(r) => w.(records := w.records - {r.lane})
    case Create(path, j) => w.(journals := w.journals[path := j])
    case Sign(path, step) => w.(journals := w.journals[path := w.journals[path].Signed(step)])
    case Confirm(path, id, c) => w.(journals := w.journals[path := w.journals[path].Confirmed(id, c)])
    case Adopt(path, a) => w.(journals := w.journals[path := w.journals[path].Adopting(a)])
    case Refresh(path, id, c) => w.(journals := w.journals[path := w.journals[path].Refreshed(id, c)])
    case Supersede(path, id, r) => w.(journals := w.journals[path := w.journals[path].Superseded(id, r)])
    case Complete(path, p) => w.(journals := w.journals[path := w.journals[path].(completed := Some(p))])
    case Broadcast(path, id) => w.(sent := w.sent + [Sent(path, id, w.StepAt(path, id).raw)])
    case AccountSpends(lane, nonce) => w.(nonces := w.nonces[lane := nonce])
  }

  // What everyone but the publisher holding this journal's and this lane's locks may do.
  predicate Elsewhere(w: World, e: Event, path: string, lane: Lane) {
    match e
    case Claim(r) => r.lane != lane
    case Release(r) => r.lane != lane
    case Create(p, j) => p != path && j.Lane() != lane
    case AccountSpends(_, _) => true
    case Sign(p, _) => OtherJournal(w, p, path, lane)
    case Confirm(p, _, _) => OtherJournal(w, p, path, lane)
    case Adopt(p, _) => OtherJournal(w, p, path, lane)
    case Refresh(p, _, _) => OtherJournal(w, p, path, lane)
    case Supersede(p, _, _) => OtherJournal(w, p, path, lane)
    case Complete(p, _) => OtherJournal(w, p, path, lane)
    case Broadcast(p, _) => OtherJournal(w, p, path, lane)
  }

  predicate OtherJournal(w: World, p: string, path: string, lane: Lane) {
    p in w.journals && p != path && w.journals[p].Lane() != lane
  }

  ghost predicate SameJournal(w: World, n: World, path: string) {
    (path in n.journals <==> path in w.journals) && (path in w.journals ==> n.journals[path] == w.journals[path])
  }

  ghost predicate OnLane(w: World, path: string, lane: Lane) { path in w.journals && w.journals[path].Lane() == lane }

  // This journal, every journal of this lane and the lane's record are as before; its account nonce has not gone back.
  ghost predicate Spared(w: World, n: World, path: string, lane: Lane) {
    && SameJournal(w, n, path)
    && (forall p :: OnLane(w, p, lane) || OnLane(n, p, lane) ==> SameJournal(w, n, p))
    && (lane in n.records <==> lane in w.records) && (lane in w.records ==> n.records[lane] == w.records[lane])
    && w.Nonce(lane) <= n.Nonce(lane)
  }

  lemma ElsewhereSpares(w: World, e: Event, path: string, lane: Lane)
    requires Enabled(w, e) && Elsewhere(w, e, path, lane)
    ensures Spared(w, Apply(w, e), path, lane)
  {
  }

  lemma SparedTransitive(a: World, b: World, c: World, path: string, lane: Lane)
    requires Spared(a, b, path, lane) && Spared(b, c, path, lane)
    ensures Spared(a, c, path, lane)
  {
    forall p | OnLane(a, p, lane) || OnLane(c, p, lane) ensures SameJournal(a, c, p) {
      assert OnLane(b, p, lane);
    }
  }

  lemma SparedKeepsAbove(w: World, n: World, path: string, lane: Lane, nonce: nat)
    requires Spared(w, n, path, lane) && w.AboveSettled(lane, nonce)
    ensures n.AboveSettled(lane, nonce)
  {
    forall p | p in n.journals && n.journals[p].Lane() == lane ensures n.journals[p].SettledBelow(nonce) {
      assert OnLane(n, p, lane);
    }
  }

  // Every world some run of events leads to.
  function Exec(w: World, events: seq<Event>): Option<World> {
    if events == [] then Some(w)
    else
      match Exec(w, events[..|events| - 1])
      case None => None
      case Some(mid) =>
        var last := events[|events| - 1];
        if Enabled(mid, last) then Some(Apply(mid, last)) else None
  }

  lemma ExecAppend(w: World, events: seq<Event>, mid: World, e: Event)
    requires Exec(w, events) == Some(mid) && Enabled(mid, e)
    ensures Exec(w, events + [e]) == Some(Apply(mid, e))
  {
    assert (events + [e])[..|events + [e]| - 1] == events;
  }

  /** A run continued by a run is a run: crashes and restarts add no new behaviour. */
  lemma {:induction false} ExecConcat(w: World, first: seq<Event>, mid: World, second: seq<Event>)
    requires Exec(w, first) == Some(mid)
    ensures Exec(w, first + second) == Exec(mid, second)
    decreases |second|
  {
    if second == [] {
      assert first + second == first;
    } else {
      var before := second[..|second| - 1];
      ExecConcat(w, first, mid, before);
      assert (first + second)[..|first + second| - 1] == first + before;
    }
  }
}
