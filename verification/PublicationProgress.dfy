/**
  No reachable world is a dead end: whatever crashes and races happened, a publication whose lane no other
  publisher holds can still be completed, and then frees its lane.
*/
module PublicationProgress {
  import opened Wrappers
  import opened L1Finality
  import opened PublicationPlan
  import opened SignerLane
  import opened SignerLaneSafety

  // The token table names the lane each token is listed in.
  ghost predicate TableAgrees(plan: Plan) {
    forall l, t :: l in plan.lanes && t in l.tokens ==> t in plan.tokenLanes && plan.tokenLanes[t] == l.kind
  }

  // The lane is free, or held by this journal for one of its own actions.
  ghost predicate Available(w: World, path: string) {
    && path in w.journals
    && var j := w.journals[path];
    j.Lane() in w.records ==> exists id :: w.records[j.Lane()] == ReservationFor(path, j, id)
  }

  // The same publication with nothing finalized lost, and its lane free.
  ghost predicate Advanced(w: World, n: World, path: string) {
    && Safe(n) && path in w.journals && path in n.journals
    && var (j, k) := (w.journals[path], n.journals[path]);
    && k.binding == j.binding && k.signer == j.signer
    && (forall id :: j.ActionFinalized(id) ==> k.ActionFinalized(id))
    && k.Lane() !in n.records
  }

  lemma AdvancedTransitive(a: World, b: World, c: World, path: string)
    requires Advanced(a, b, path) && Advanced(b, c, path)
    ensures Advanced(a, c, path)
  {
  }

  // ---------- runs, one event at a time ----------

  lemma Then(w: World, events: seq<Event>, mid: World, e: Event) returns (n: World)
    requires Exec(w, events) == Some(mid) && Safe(mid) && Enabled(mid, e)
    ensures Exec(w, events + [e]) == Some(n) && n == Apply(mid, e) && Safe(n)
  {
    ExecAppend(w, events, mid, e);
    n := Apply(mid, e);
    SafeStep(mid, e);
  }

  // A receipt of this transaction one block below a finalized head.
  function ReceiptOf(chainId: nat, txHash: string): (r: Receipt)
    ensures chainId != 0 ==> r.txHash == txHash && r.Finalized(chainId)
  {
    Receipt(txHash, 1, 0, Checkpoint(chainId, 1, 1, 1, RpcFinalized))
  }

  function ProofOf(j: Journal, txHash: string): Confirmation {
    Confirmation(ReceiptOf(j.binding.plan.chainId, txHash), "", "")
  }

  // The chain includes this account's next transaction if it has not yet.
  lemma Spend(w: World, lane: Lane, nonce: nat) returns (events: seq<Event>, n: World)
    requires Safe(w)
    ensures Exec(w, events) == Some(n) && Safe(n) && n == w.(nonces := n.nonces) && nonce < n.Nonce(lane)
  {
    events, n := [], w;
    if w.Nonce(lane) <= nonce {
      n := Then(w, [], w, AccountSpends(lane, nonce + 1));
      events := [] + [AccountSpends(lane, nonce + 1)];
    }
  }

  // Settles the outstanding transaction of this slot: superseded if someone else's was adopted, else confirmed.
  lemma SettleSlot(w: World, path: string, id: ActionId) returns (events: seq<Event>, n: World)
    requires Safe(w) && w.Outstanding(path, id) && w.journals[path].binding.plan.chainId != 0
    ensures Exec(w, events) == Some(n) && Safe(n) && n.records == w.records && path in n.journals
    ensures
      var (j, k) := (w.journals[path], n.journals[path]);
      && k.binding == j.binding && k.signer == j.signer && k.ActionFinalized(id) && !n.Outstanding(path, id)
      && forall other :: j.ActionFinalized(other) ==> k.ActionFinalized(other)
  {
    var j := w.journals[path];
    var step := j.steps[id];
    var before, mid := Spend(w, j.Lane(), step.nonce);
    var proof := ProofOf(j, step.txHash);
    var e := if id in j.adopted then Supersede(path, id, proof.receipt) else Confirm(path, id, proof);
    assert mid.journals == w.journals && mid.StepAt(path, id) == step;
    n := Then(w, before, mid, e);
    events := before + [e];
  }

  // Whatever this journal left reserved, its lane can be freed.
  lemma FreeLane(w: World, path: string) returns (events: seq<Event>, n: World)
    requires Safe(w) && Available(w, path) && w.journals[path].binding.plan.chainId != 0
    ensures Exec(w, events) == Some(n) && Advanced(w, n, path)
  {
    var j := w.journals[path];
    events, n := [], w;
    if j.Lane() in w.records {
      var id :| w.records[j.Lane()] == ReservationFor(path, j, id);
      if w.Outstanding(path, id) {
        events, n := SettleSlot(w, path, id);
      }
      var e := Release(ReservationFor(path, j, id));
      var m := Then(w, events, n, e);
      events, n := events + [e], m;
    }
  }

  // ---------- one action, from a free lane ----------

  // On a free lane an action without a finalized outcome has no raw transaction yet.
  lemma NothingOutstanding(w: World, path: string, id: ActionId)
    requires Safe(w) && path in w.journals && w.journals[path].Lane() !in w.records
    requires !w.journals[path].ActionFinalized(id)
    ensures id !in w.journals[path].steps && id !in w.journals[path].adopted
  {
    var j := w.journals[path];
    assert SlotSound(j, id);
    assert !w.Holds(path, id);
  }

  lemma PublishOne(w: World, path: string, a: Action) returns (events: seq<Event>, n: World)
    requires Safe(w) && path in w.journals && w.journals[path].Lane() !in w.records
    requires w.journals[path].PlannedAndReady(a) && w.journals[path].binding.plan.chainId != 0
    ensures Exec(w, events) == Some(n) && Advanced(w, n, path) && n.journals[path].ActionFinalized(IdOf(a))
  {
    var j, id := w.journals[path], IdOf(a);
    if j.ActionFinalized(id) {
      events, n := [], w;
    } else {
      NothingOutstanding(w, path, id);
      var signed := SignOne(w, path, a);
      var r := ReservationFor(path, j, id);
      events := [] + [Claim(r)] + [Sign(path, signed.journals[path].steps[id])] + [Broadcast(path, id)];
      var sent := Then(w, [] + [Claim(r)] + [Sign(path, signed.journals[path].steps[id])], signed,
                       Broadcast(path, id));
      var more, settled := SettleSlot(sent, path, id);
      ExecConcat(w, events, sent, more);
      var e := Release(r);
      n := Then(w, events + more, settled, e);
      events := events + more + [e];
    }
  }

  // Reserves the lane and journals a transaction at the account's next nonce.
  lemma SignOne(w: World, path: string, a: Action) returns (n: World)
    requires Safe(w) && path in w.journals && w.journals[path].Lane() !in w.records
    requires w.journals[path].PlannedAndReady(a)
    requires IdOf(a) !in w.journals[path].steps && IdOf(a) !in w.journals[path].adopted
    ensures
      var j := w.journals[path];
      && path in n.journals && IdOf(a) in n.journals[path].steps
      && Exec(w, [] + [Claim(ReservationFor(path, j, IdOf(a)))] + [Sign(path, n.journals[path].steps[IdOf(a)])])
         == Some(n)
      && Safe(n) && n.Outstanding(path, IdOf(a)) && n.Holds(path, IdOf(a))
      && n.records == w.records[j.Lane() := ReservationFor(path, j, IdOf(a))]
      && n.journals[path] == j.Signed(n.journals[path].steps[IdOf(a)])
  {
    var j := w.journals[path];
    var r := ReservationFor(path, j, IdOf(a));
    var claimed := Then(w, [], w, Claim(r));
    var step := RawStep(a, w.Nonce(j.Lane()), "", "", None, None);
    UnspentIsAbove(claimed, j.Lane(), step.nonce);
    n := Then(w, [] + [Claim(r)], claimed, Sign(path, step));
  }

  // ---------- the whole plan ----------

  // The first n planned actions are finalized.
  ghost predicate DoneUpTo(j: Journal, n: nat) {
    n <= |PlannedActions(j.binding)| && forall i :: 0 <= i < n ==> j.ActionFinalized(IdOf(PlannedActions(j.binding)[i]))
  }

  lemma NextIsReady(j: Journal, n: nat)
    requires TableAgrees(j.binding.plan) && DoneUpTo(j, n) && n < |PlannedActions(j.binding)|
    ensures j.PlannedAndReady(PlannedActions(j.binding)[n])
  {
    if PlannedActions(j.binding)[n].IsPull() {
      var m := PlanMaterializesFirst(j.binding, n);
    }
  }

  lemma {:induction false} PublishRest(w: World, path: string, done: nat) returns (events: seq<Event>, n: World)
    requires Safe(w) && path in w.journals && w.journals[path].Lane() !in w.records
    requires TableAgrees(w.journals[path].binding.plan) && w.journals[path].binding.plan.chainId != 0
    requires DoneUpTo(w.journals[path], done)
    ensures Exec(w, events) == Some(n) && Advanced(w, n, path) && n.journals[path].AllFinalized()
    decreases |PlannedActions(w.journals[path].binding)| - done
  {
    var j := w.journals[path];
    var acts := PlannedActions(j.binding);
    if done == |acts| {
      events, n := [], w;
    } else {
      NextIsReady(j, done);
      var first, mid := PublishOne(w, path, acts[done]);
      var rest, end := PublishRest(mid, path, done + 1);
      ExecConcat(w, first, mid, rest);
      AdvancedTransitive(w, mid, end, path);
      events, n := first + rest, end;
    }
  }

  lemma FinishPublication(w: World, path: string) returns (e: Event)
    requires Safe(w) && path in w.journals && w.journals[path].completed.None?
    requires w.journals[path].AllFinalized() && w.journals[path].binding.plan.chainId != 0
    ensures e.Complete? && e.path == path && Enabled(w, e)
  {
    var j := w.journals[path];
    var acts := PlannedActions(j.binding);
    var txs := seq(|acts|, i requires 0 <= i < |acts| =>
      assert acts[i] in acts; j.SettledBy(IdOf(acts[i])));
    e := Complete(path, Publication(j.binding.digest, txs, Checkpoint(j.binding.plan.chainId, 1, 1, 1, RpcFinalized)));
  }

  /**
    From every reachable world, a journal whose lane is free or its own can be completed: some run of the protocol
    ends with its publication stored and its lane free.
  */
  lemma NeverStuck(past: seq<Event>, w: World, path: string) returns (events: seq<Event>, n: World)
    requires Exec(Genesis, past) == Some(w) && Available(w, path)
    requires TableAgrees(w.journals[path].binding.plan) && w.journals[path].binding.plan.chainId != 0
    ensures Exec(Genesis, past + events) == Some(n)
    ensures
      && path in n.journals && n.journals[path].binding == w.journals[path].binding
      && n.journals[path].completed.Some? && n.journals[path].Lane() !in n.records
  {
    RunsAreSafe(Genesis, past, w);
    var first, mid := FreeLane(w, path);
    events, n := first, mid;
    if mid.journals[path].completed.None? {
      var rest, end := PublishRest(mid, path, 0);
      ExecConcat(w, first, mid, rest);
      events, n := first + rest, end;
      if end.journals[path].completed.None? {
        var e := FinishPublication(end, path);
        n := Then(w, events, end, e);
        events := events + [e];
      }
    }
    ExecConcat(Genesis, past, w, events);
  }
}
