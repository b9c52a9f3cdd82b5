/** What every run of the payout store keeps, whatever calls arrive and whichever writes fail. */
module PayoutStoreSafety {
  import opened Wrappers
  import opened MachineWords
  import opened PayoutStore

  // ---------- one snapshot after another ----------

  // Everything journaled about a candidate stays; only later phases are filled in.
  predicate Progresses(a: Candidate, b: Candidate) {
    && b.id == a.id && b.request == a.request && b.lane == a.lane
    && (a.payoutBroadcast.Some? ==> b.payoutBroadcast == a.payoutBroadcast)
    && (a.payoutConfirmation.Some? ==> b.payoutConfirmation == a.payoutConfirmation)
    && (a.pullBroadcast.Some? ==> b.pullBroadcast == a.pullBroadcast)
    && (a.pullConfirmation.Some? ==> b.pullConfirmation == a.pullConfirmation)
    && (a.delegated ==> b.delegated)
    && a.payoutTxHashes <= b.payoutTxHashes && (a.payoutConfirmation.Some? ==> b.payoutTxHashes == a.payoutTxHashes)
    && a.pullTxHashes <= b.pullTxHashes && (a.pullConfirmation.Some? ==> b.pullTxHashes == a.pullTxHashes)
  }

  lemma UpdateProgresses(c: Candidate, u: Update)
    ensures Updated(c, u).Some? ==> Progresses(c, Updated(c, u).value)
  {
  }

  // A pull intent without a calldata hash is the one update the reload check refuses.
  predicate UnhashedPull(c: Candidate, u: Update) {
    u.MarkPullBroadcast? && u.intent.calldataHash == 0 && c.pullConfirmation.None?
  }

  lemma PushKeepsValid(hashes: seq<Bytes32>, h: Bytes32)
    requires TxHashesValid(hashes, true) && PushTxHash(hashes, h).Some?
    ensures TxHashesValid(PushTxHash(hashes, h).value, true) && h in PushTxHash(hashes, h).value
  {
  }

  /** An update the store accepts passes the reload check exactly when it is not an unhashed pull intent. */
  lemma AcceptedUpdateVerifies(env: Env, d: Snapshot, u: Update)
    requires VerifyDisk(env, d) && d.active.Some? && Updated(d.active.value, u).Some?
    ensures VerifyDisk(env, Recorded(d, Updated(d.active.value, u).value)) <==> !UnhashedPull(d.active.value, u)
  {
    var c := d.active.value;
    var next := Updated(c, u).value;
    match u
    case ConfirmPayout(k) =>
      if c.payoutConfirmation.None? {
        PushKeepsValid(c.payoutTxHashes, k.receipt.txHash);
      }
    case RecordPayoutTxHash(h) =>
      if c.payoutConfirmation.None? {
        PushKeepsValid(c.payoutTxHashes, h);
      }
    case ConfirmPull(k) =>
      if c.pullConfirmation.None? {
        PushKeepsValid(c.pullTxHashes, k.receipt.txHash);
      }
    case RecordPullTxHash(h) =>
      if c.pullConfirmation.None? {
        PushKeepsValid(c.pullTxHashes, h);
      }
    case _ =>
  }

  // A later snapshot keeps the ledger, and keeps the active candidate or has retired its nullifier for good.
  predicate Follows(x: Snapshot, y: Snapshot) {
    && x.completed <= y.completed
    && (x.active.Some? ==>
          || (y.active.Some? && Progresses(x.active.value, y.active.value))
          || (x.active.value.Nullifier() in y.completed
              && (y.active.Some? ==> y.active.value.Nullifier() != x.active.value.Nullifier())))
    && (y.active.Some? ==>
          || (x.active.Some? && Progresses(x.active.value, y.active.value))
          || y.active.value.Nullifier() !in x.completed)
  }

  lemma FollowsTransitive(x: Snapshot, y: Snapshot, z: Snapshot)
    requires Follows(x, y) && Follows(y, z)
    ensures Follows(x, z)
  {
    assert forall n :: n in y.completed ==> n in z.completed;
    assert forall n :: n in x.completed ==> n in y.completed;
  }

  lemma CallFollows(env: Env, d: Snapshot, call: Call)
    requires VerifyDisk(env, d)
    ensures
      var decision := Decide(env, d, call);
      decision.Write? ==> VerifyDisk(env, decision.next) && Follows(d, decision.next)
  {
    if call.Mutate? && d.active.Some? {
      UpdateProgresses(d.active.value, call.update);
    }
  }

  // ---------- runs ----------

  ghost predicate Sound(env: Env, s: Store) {
    && VerifyDisk(env, s.disk) && VerifyDisk(env, s.file)
    && Follows(s.disk, s.file)
    && (!s.poisoned ==> s.file == s.disk)
  }

  lemma FollowsItself(x: Snapshot)
    ensures Follows(x, x)
  {
  }

  lemma StepSound(env: Env, s: Store, e: Event)
    requires Sound(env, s)
    ensures Step(env, s, e).Some?
    ensures var t := Step(env, s, e).value; Sound(env, t) && Follows(s.file, t.file)
  {
    FollowsItself(s.file);
    if e.Called? && !s.poisoned {
      CallFollows(env, s.disk, e.call);
    }
  }

  /** Every run can continue after any crash: each durable snapshot verifies, and a healthy process holds it. */
  lemma {:induction false} RunsStaySound(env: Env, events: seq<Event>)
    ensures Exec(env, events).Some? && Sound(env, Exec(env, events).value)
  {
    if events != [] {
      RunsStaySound(env, events[..|events| - 1]);
      StepSound(env, Exec(env, events[..|events| - 1]).value, events[|events| - 1]);
    }
  }

  lemma {:induction false} RunsFollow(env: Env, events: seq<Event>, more: seq<Event>)
    ensures Exec(env, events).Some? && Exec(env, events + more).Some?
    ensures Follows(Exec(env, events).value.file, Exec(env, events + more).value.file)
    decreases |more|
  {
    RunsStaySound(env, events);
    RunsStaySound(env, events + more);
    var s := Exec(env, events).value;
    if more == [] {
      assert events + more == events;
      FollowsItself(s.file);
    } else {
      var all, less := events + more, more[..|more| - 1];
      assert all[..|all| - 1] == events + less;
      RunsFollow(env, events, less);
      var was := Exec(env, events + less).value;
      RunsStaySound(env, events + less);
      StepSound(env, was, all[|all| - 1]);
      FollowsTransitive(s.file, was.file, Exec(env, all).value.file);
    }
  }

  /**
    A nullifier belongs to one candidate for the life of the store: whenever two durable snapshots of a
    run are active on it, the later is the same candidate with everything already journaled unchanged.
    So it has at most one payout intent and one pull intent, ever.
  */
  lemma OneCandidatePerNullifier(env: Env, events: seq<Event>, more: seq<Event>, a: Candidate, b: Candidate)
    requires Exec(env, events).Some? && Exec(env, events).value.file.active == Some(a)
    requires Exec(env, events + more).Some? && Exec(env, events + more).value.file.active == Some(b)
    requires a.Nullifier() == b.Nullifier()
    ensures a.id == b.id && a.request == b.request && Progresses(a, b)
  {
    RunsFollow(env, events, more);
  }

  /** A local pull and a hand-off to the recipient exclude each other in every durable snapshot. */
  lemma PullOrDelegation(env: Env, events: seq<Event>, c: Candidate)
    requires Exec(env, events).Some? && Exec(env, events).value.file.active == Some(c)
    ensures !(c.delegated && (c.pullBroadcast.Some? || c.pullConfirmation.Some?))
    ensures c.pullConfirmation.Some? ==> c.pullBroadcast.Some?
    ensures c.pullBroadcast.Some? || c.delegated ==> c.payoutConfirmation.Some?
    ensures c.payoutConfirmation.Some? ==> c.payoutBroadcast.Some?
  {
    RunsStaySound(env, events);
  }

  /** Once an intent is journaled the payout is never suggested again, for as long as its nullifier is active. */
  lemma NoSecondBroadcast(env: Env, events: seq<Event>, more: seq<Event>, a: Candidate, b: Candidate, used: bool)
    requires Exec(env, events).Some? && Exec(env, events).value.file.active == Some(a) && a.payoutBroadcast.Some?
    requires Exec(env, events + more).Some? && Exec(env, events + more).value.file.active == Some(b)
    requires a.Nullifier() == b.Nullifier()
    ensures ResumeActionFor(b, used) != Some(BroadcastPayout)
  {
    OneCandidatePerNullifier(env, events, more, a, b);
  }

  /**
    The next action matches the durable phase: broadcast only before any intent, reconcile an unconfirmed
    one, continue a confirmed one, and stop when the chain and the journal disagree.
  */
  lemma ResumeMatchesPhase(env: Env, events: seq<Event>, c: Candidate, used: bool)
    requires Exec(env, events).Some? && Exec(env, events).value.file.active == Some(c)
    ensures ResumeActionFor(c, used) == Some(BroadcastPayout) <==> c.payoutBroadcast.None? && !used
    ensures ResumeActionFor(c, used) == Some(ReconcilePayout) <==> c.payoutBroadcast.Some? && c.payoutConfirmation.None?
    ensures ResumeActionFor(c, used) == Some(ContinueAfterPayout) <==> c.payoutConfirmation.Some? && used
  {
    PullOrDelegation(env, events, c);
  }

  // ---------- the ledger ----------

  // Some durable snapshot of the run held this nullifier's payout complete.
  ghost predicate CompletedAt(env: Env, events: seq<Event>, k: nat, nullifier: Bytes32) {
    && k <= |events| && Exec(env, events[..k]).Some?
    && var active := Exec(env, events[..k]).value.file.active;
    && active.Some? && active.value.Complete() && active.value.Nullifier() == nullifier
  }

  lemma CallLedger(env: Env, d: Snapshot, call: Call, n: Bytes32)
    requires VerifyDisk(env, d)
    ensures
      var decision := Decide(env, d, call);
      decision.Write? && n in decision.next.completed && n !in d.completed ==>
        && decision.next.active.Some? && decision.next.active.value.Complete()
        && decision.next.active.value.Nullifier() == n
  {
  }

  lemma StepLedger(env: Env, s: Store, e: Event, n: Bytes32)
    requires Sound(env, s)
    ensures Step(env, s, e).Some?
    ensures
      var file := Step(env, s, e).value.file;
      n in file.completed && n !in s.file.completed ==>
        file.active.Some? && file.active.value.Complete() && file.active.value.Nullifier() == n
  {
    StepSound(env, s, e);
    if e.Called? && !s.poisoned {
      CallLedger(env, s.disk, e.call, n);
    }
  }

  lemma {:induction false} LedgerHasHistory(env: Env, events: seq<Event>, n: Bytes32) returns (k: nat)
    requires Exec(env, events).Some? && n in Exec(env, events).value.file.completed
    ensures CompletedAt(env, events, k, n)
  {
    var last := |events| - 1;
    var before := events[..last];
    RunsStaySound(env, before);
    var s := Exec(env, before).value;
    if n in s.file.completed {
      k := LedgerHasHistory(env, before, n);
      assert before[..k] == events[..k];
    } else {
      StepLedger(env, s, events[last], n);
      k := |events|;
      assert events[..k] == events;
    }
  }

  lemma CompletionStays(env: Env, events: seq<Event>, k: nat, n: Bytes32)
    requires CompletedAt(env, events, k, n)
    ensures Exec(env, events).Some? && n in Exec(env, events).value.file.completed
  {
    RunsStaySound(env, events[..k]);
    RunsFollow(env, events[..k], events[k..]);
    assert events[..k] + events[k..] == events;
  }

  /** The completed ledger is exactly the duplicate-free list of nullifiers whose payouts ever completed. */
  lemma LedgerIsCompletions(env: Env, events: seq<Event>, n: Bytes32)
    ensures Exec(env, events).Some? && Distinct(Exec(env, events).value.file.completed)
    ensures n in Exec(env, events).value.file.completed <==> exists k: nat :: CompletedAt(env, events, k, n)
  {
    RunsStaySound(env, events);
    if n in Exec(env, events).value.file.completed {
      var k := LedgerHasHistory(env, events, n);
    }
    forall k: nat | CompletedAt(env, events, k, n) ensures n in Exec(env, events).value.file.completed {
      CompletionStays(env, events, k, n);
    }
  }
}
