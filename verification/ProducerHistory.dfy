/** Laws of the block producer over every run of accepted journal actions. */
module ProducerHistory {
  import opened Wrappers
  import opened MachineWords
  import opened ChannelTypes
  import opened CloseFunding
  import opened DelegateJoin
  import opened BlockProducer

  // ---------- what a run contributes to one channel, read off the actions alone ----------

  function StatesOf(a: Action, c: ChannelId): seq<ChannelState> {
    match a
    case Register(s, _) => if s.record.channelId == c then [s.state] else []
    case SyncOffchainHeads(states, _) => if states != [] && states[0].channelId == c then states else []
    case PostInterChannel(s, _, _, _) => if s.channelId == c then [s] else []
    case PostCloseFunding(s, _, _) => if s.channelId == c then [s] else []
    case StagedExitKit(s, _, _, _) => if s.channelId == c then [s] else []
    case _ => []
  }

  // The states accepted for a channel, oldest first.
  function History(actions: seq<Action>, c: ChannelId): seq<ChannelState> {
    if actions == [] then [] else History(actions[..|actions| - 1], c) + StatesOf(actions[|actions| - 1], c)
  }

  // The action spends from the channel's base account.
  predicate SendsFrom(a: Action, c: ChannelId) {
    match a
    case PostInterChannel(_, _, d, _) => d.sourceChannelId == c
    case StagedExitKit(_, _, d, _) => d.sourceChannelId == c
    case PostCloseFunding(_, plan, _) => plan.sourceChannelId == c
    case _ => false
  }

  function Sends(actions: seq<Action>, c: ChannelId): nat {
    if actions == [] then 0
    else Sends(actions[..|actions| - 1], c) + if SendsFrom(actions[|actions| - 1], c) then 1 else 0
  }

  predicate ClosesFunding(a: Action, c: ChannelId) { a.PostCloseFunding? && a.plan.sourceChannelId == c }

  // ---------- one step ----------

  // Registration writes a channel's record and its first head together; nothing else adds either.
  predicate Tracked(p: Producer) {
    && p.records.Keys == p.heads.Keys
    && p.terminal <= p.heads.Keys
    && p.nonces.Keys <= p.records.Keys
    && forall c :: c in p.records ==> p.records[c].channelId == c
  }

  // A child on every counter; a state that carries a block root always takes the next small block.
  predicate NextOn(previous: ChannelState, state: ChannelState) {
    && ExtendsHead(previous, state)
    && previous.smallBlockNumber <= state.smallBlockNumber <= previous.smallBlockNumber + 1
    && (state.h2Tag != 0 ==> state.smallBlockNumber == previous.smallBlockNumber + 1)
  }

  predicate LinkAt(h: seq<ChannelState>, i: nat)
    requires 0 < i < |h|
  {
    NextOn(h[i - 1], h[i])
  }

  // Each state is the next on the one before it.
  predicate Linked(h: seq<ChannelState>) {
    forall i {:trigger LinkAt(h, i)} :: 0 < i < |h| ==> LinkAt(h, i)
  }

  predicate Authentic(env: Env, s: ChannelState, c: ChannelId) {
    OwnIds(s, c) && s.digest == env.cr.SigningDigest(s)
  }

  predicate Certified(env: Env, h: seq<ChannelState>, c: ChannelId) {
    forall i :: 0 <= i < |h| ==> Authentic(env, h[i], c)
  }

  // One channel's head between two producers: untouched, or extended by exactly the given states.
  predicate HeadStep(env: Env, p: Producer, q: Producer, states: seq<ChannelState>, c: ChannelId) {
    if states == [] then (c in q.heads <==> c in p.heads) && (c in p.heads ==> q.heads[c] == p.heads[c])
    else
      && c in q.heads && q.heads[c] == states[|states| - 1]
      && c !in p.terminal
      && Certified(env, states, c) && Linked(states)
      && (c in p.heads ==> NextOn(p.heads[c], states[0]))
  }

  lemma OffchainStates(env: Env, record: ChannelRecord, c: ChannelId, head: ChannelState, states: seq<ChannelState>)
    requires OffchainChain(env, record, c, head, states) && states != []
    ensures Certified(env, states, c) && Linked(states) && NextOn(head, states[0])
  {
    forall i | 0 <= i < |states| ensures Authentic(env, states[i], c) && NextOn(Before(head, states, i), states[i]) {
      assert ExtendsOffchain(env, record, c, Before(head, states, i), states[i]);
    }
    assert NextOn(Before(head, states, 0), states[0]);
    forall i | 0 < i < |states| ensures LinkAt(states, i) {
      assert NextOn(Before(head, states, i), states[i]);
    }
  }

  lemma SyncStep(env: Env, p: Producer, states: seq<ChannelState>, q: Producer, c: ChannelId)
    requires Synced(env, p, states) == Some(q)
    ensures HeadStep(env, p, q, if states[0].channelId == c then states else [], c)
  {
    var d := states[0].channelId;
    OffchainStates(env, p.records[d], d, p.heads[d], states);
  }

  lemma BlockStep(env: Env, p: Producer, s: ChannelState, t: u64, root: Bytes32, tx: BlockTx, mode: CosignMode,
                  q: Producer, c: ChannelId)
    requires Tracked(p) && Cosigned(env, p, s, t, root, tx, mode) == Some(q)
    ensures HeadStep(env, p, q, if s.channelId == c then [s] else [], c)
    ensures Tracked(q) && s.channelId in p.heads
  {
  }

  lemma DescriptorStep(env: Env, p: Producer, s: ChannelState, debit: DebitPayload, d: Descriptor, t: u64,
                       mode: CosignMode, q: Producer, c: ChannelId)
    requires Tracked(p) && DescriptorSent(env, p, s, debit, d, t, mode) == Some(q)
    ensures HeadStep(env, p, q, if s.channelId == c then [s] else [], c) && Tracked(q)
  {
    var slot := BlockTx(d.sourceChannelId, d.txV2, d.proof, false);
    var mid := InterChannelBlock(env, p, s, d.tx, t, slot, mode).value;
    BlockStep(env, p, s, t, d.tx.message.txTreeRoot, slot, mode, mid, c);
  }

  lemma CloseStep(env: Env, p: Producer, s: ChannelState, plan: Plan, t: u64, q: Producer, c: ChannelId)
    requires Tracked(p) && CloseFunded(env, p, s, plan, t) == Some(q)
    ensures HeadStep(env, p, q, if s.channelId == c then [s] else [], c) && Tracked(q)
  {
    var slot := BlockTx(plan.sourceChannelId, plan.txV2, plan.proof, false);
    var mid := Cosigned(env, p, s, t, plan.txTreeRoot, slot, Verified).value;
    BlockStep(env, p, s, t, plan.txTreeRoot, slot, Verified, mid, c);
  }

  // The effect of one accepted action on one channel's head.
  lemma StepHead(env: Env, p: Producer, a: Action, q: Producer, c: ChannelId)
    requires Tracked(p) && Apply(env, p, a) == Some(q)
    ensures Tracked(q) && HeadStep(env, p, q, StatesOf(a, c), c)
  {
    match a
    case SyncOffchainHeads(states, _) => SyncStep(env, p, states, q, c);
    case PostInterChannel(s, debit, d, t) => DescriptorStep(env, p, s, debit, d, t, Verified, q, c);
    case StagedExitKit(s, debit, d, t) => DescriptorStep(env, p, s, debit, d, t, UnsignedStaging, q, c);
    case PostCloseFunding(s, plan, t) => CloseStep(env, p, s, plan, t, q, c);
    case _ =>
  }

  predicate NonceStep(p: Producer, a: Action, q: Producer, c: ChannelId) {
    && (if SendsFrom(a, c) then c !in p.terminal && c in q.nonces && NextNonce(p, c) == Some(q.nonces[c])
        else (c in q.nonces <==> c in p.nonces) && (c in p.nonces ==> q.nonces[c] == p.nonces[c]))
    && (c in q.terminal <==> c in p.terminal || ClosesFunding(a, c))
  }

  lemma StepNonce(env: Env, p: Producer, a: Action, q: Producer, c: ChannelId)
    requires Apply(env, p, a) == Some(q)
    ensures NonceStep(p, a, q, c)
  {
  }

  // ---------- whole runs ----------

  predicate HeadsExplained(env: Env, h: seq<ChannelState>, p: Producer, c: ChannelId) {
    && (c in p.heads <==> h != [])
    && (h != [] ==> p.heads[c] == h[|h| - 1])
    && Linked(h) && Certified(env, h, c)
  }

  predicate SendsExplained(actions: seq<Action>, p: Producer, c: ChannelId) {
    && (c in p.nonces <==> Sends(actions, c) > 0)
    && (c in p.nonces ==> p.nonces[c] == Sends(actions, c) - 1)
    && (c in p.terminal <==> exists i :: 0 <= i < |actions| && ClosesFunding(actions[i], c))
  }

  lemma HistoryGrows(env: Env, h: seq<ChannelState>, p: Producer, q: Producer, states: seq<ChannelState>, c: ChannelId)
    requires HeadsExplained(env, h, p, c) && HeadStep(env, p, q, states, c)
    ensures HeadsExplained(env, h + states, q, c)
  {
    var g := h + states;
    if states == [] {
      assert g == h;
    } else {
      forall i | 0 < i < |g| ensures LinkAt(g, i) {
        if i < |h| {
          assert LinkAt(h, i);
        } else if i > |h| {
          assert LinkAt(states, i - |h|);
        }
      }
    }
  }

  lemma SendsGrow(actions: seq<Action>, a: Action, p: Producer, q: Producer, c: ChannelId)
    requires SendsExplained(actions, p, c) && NonceStep(p, a, q, c)
    ensures SendsExplained(actions + [a], q, c)
  {
    var all := actions + [a];
    assert all[..|all| - 1] == actions;
    if i :| 0 <= i < |actions| && ClosesFunding(actions[i], c) {
      assert ClosesFunding(all[i], c);
    }
    if ClosesFunding(a, c) {
      assert ClosesFunding(all[|actions|], c);
    }
  }

  lemma RunSplits(env: Env, actions: seq<Action>, p: Producer) returns (was: Producer)
    requires actions != [] && Run(env, actions) == Some(p)
    ensures Run(env, actions[..|actions| - 1]) == Some(was)
    ensures Apply(env, was, actions[|actions| - 1]) == Some(p)
  {
    was := Run(env, actions[..|actions| - 1]).value;
  }

  lemma StepBoth(env: Env, p: Producer, a: Action, q: Producer, c: ChannelId)
    requires Tracked(p) && Apply(env, p, a) == Some(q)
    ensures Tracked(q) && HeadStep(env, p, q, StatesOf(a, c), c) && NonceStep(p, a, q, c)
  {
    StepHead(env, p, a, q, c);
    StepNonce(env, p, a, q, c);
  }

  predicate Explained(env: Env, actions: seq<Action>, p: Producer, c: ChannelId) {
    Tracked(p) && HeadsExplained(env, History(actions, c), p, c) && SendsExplained(actions, p, c)
  }

  lemma ExplainedGrows(env: Env, before: seq<Action>, a: Action, p: Producer, q: Producer, c: ChannelId)
    requires Explained(env, before, p, c) && Tracked(q)
    requires HeadStep(env, p, q, StatesOf(a, c), c) && NonceStep(p, a, q, c)
    ensures Explained(env, before + [a], q, c)
  {
    HistoryGrows(env, History(before, c), p, q, StatesOf(a, c), c);
    SendsGrow(before, a, p, q, c);
    assert (before + [a])[..|before|] == before;
  }

  lemma ExplainedStep(env: Env, before: seq<Action>, a: Action, p: Producer, q: Producer, c: ChannelId)
    requires Explained(env, before, p, c) && Apply(env, p, a) == Some(q)
    ensures Explained(env, before + [a], q, c)
  {
    StepBoth(env, p, a, q, c);
    ExplainedGrows(env, before, a, p, q, c);
  }

  /**
    After any run of accepted actions a channel's head is the last of one digest-linked history with
    contiguous counters, its base nonce is its number of sends less one, and it is terminal exactly
    when a close funding of it was accepted.
  */
  lemma {:induction false} RunExplained(env: Env, actions: seq<Action>, p: Producer, c: ChannelId)
    requires Run(env, actions) == Some(p)
    ensures Explained(env, actions, p, c)
  {
    if actions != [] {
      var before, a := actions[..|actions| - 1], actions[|actions| - 1];
      var was := RunSplits(env, actions, p);
      RunExplained(env, before, was, c);
      ExplainedStep(env, before, a, was, p, c);
      assert actions == before + [a];
    }
  }

  // ---------- counters ----------

  lemma {:induction false} CountersAdvance(h: seq<ChannelState>, i: nat)
    requires i < |h| && Linked(h)
    ensures h[i].epoch == h[0].epoch + i
    ensures h[i].balance.stateVersion == h[0].balance.stateVersion + i
    ensures h[i].closeFreezeNonce == h[0].closeFreezeNonce
    ensures h[0].smallBlockNumber <= h[i].smallBlockNumber <= h[0].smallBlockNumber + i
  {
    if i > 0 {
      CountersAdvance(h, i - 1);
      assert LinkAt(h, i);
    }
  }

  /**
    The replay fence: the head's epoch and state version are the first state's plus the number of states
    accepted after it, the close era never moves, and the base nonce counts the channel's sends.
  */
  lemma ChannelCounters(env: Env, actions: seq<Action>, p: Producer, c: ChannelId)
    requires Run(env, actions) == Some(p) && c in p.heads
    ensures
      var h := History(actions, c);
      && h != []
      && p.heads[c].epoch == h[0].epoch + |h| - 1
      && p.heads[c].balance.stateVersion == h[0].balance.stateVersion + |h| - 1
      && p.heads[c].closeFreezeNonce == h[0].closeFreezeNonce
    ensures Sends(actions, c) <= U32_LIMIT
    ensures if Sends(actions, c) == 0 then c !in p.nonces else c in p.nonces && p.nonces[c] == Sends(actions, c) - 1
  {
    RunExplained(env, actions, p, c);
    CountersAdvance(History(actions, c), |History(actions, c)| - 1);
  }

  /**
    No state is accepted twice: the states of one channel pairwise differ in their signed content, so two of
    them share a digest only as a digest collision.
  */
  lemma NoStateReplayed(env: Env, actions: seq<Action>, p: Producer, c: ChannelId, i: nat, j: nat)
    requires Run(env, actions) == Some(p) && i < j < |History(actions, c)|
    ensures
      var h := History(actions, c);
      && h[i].Unsigned() != h[j].Unsigned()
      && (h[i].digest != h[j].digest || StatesCollide(env.cr, h[i], h[j]))
  {
    var h := History(actions, c);
    RunExplained(env, actions, p, c);
    CountersAdvance(h, i);
    CountersAdvance(h, j);
    assert Authentic(env, h[i], c) && Authentic(env, h[j], c);
    assert h[i].Unsigned().epoch != h[j].Unsigned().epoch;
  }

  // ---------- where a history starts ----------

  predicate Registers(a: Action, c: ChannelId) { a.Register? && a.snapshot.record.channelId == c }

  // The channel's history begins with the action at this position, its only registration.
  predicate StartsAt(actions: seq<Action>, c: ChannelId, at: nat) {
    && at < |actions| && Registers(actions[at], c)
    && History(actions, c) != [] && History(actions, c)[0] == actions[at].snapshot.state
    && History(actions[..at], c) == []
    && forall i :: 0 <= i < |actions| && Registers(actions[i], c) ==> i == at
  }

  lemma StartStays(before: seq<Action>, a: Action, c: ChannelId, at: nat)
    requires StartsAt(before, c, at) && !Registers(a, c)
    ensures StartsAt(before + [a], c, at)
  {
    var all := before + [a];
    assert all[..|before|] == before && all[..at] == before[..at];
  }

  lemma StartsHere(before: seq<Action>, a: Action, c: ChannelId)
    requires History(before, c) == [] && Registers(a, c)
    ensures StartsAt(before + [a], c, |before|)
  {
    var all := before + [a];
    assert all[..|before|] == before;
    forall i | 0 <= i < |before| ensures !Registers(before[i], c) {
      if Registers(before[i], c) {
        HistoryHasRegistration(before, i, c);
      }
    }
  }

  lemma {:induction false} HistoryHasRegistration(actions: seq<Action>, i: nat, c: ChannelId)
    requires i < |actions| && Registers(actions[i], c)
    ensures History(actions, c) != []
  {
    if i < |actions| - 1 {
      HistoryHasRegistration(actions[..|actions| - 1], i, c);
    }
  }

  lemma StepRegisters(env: Env, p: Producer, a: Action, q: Producer, c: ChannelId)
    requires Tracked(p) && Apply(env, p, a) == Some(q)
    ensures Registers(a, c) <==> c !in p.heads && c in q.heads
  {
  }

  lemma HeadIffHistory(env: Env, actions: seq<Action>, p: Producer, c: ChannelId)
    requires Run(env, actions) == Some(p)
    ensures Tracked(p) && (c in p.heads <==> History(actions, c) != [])
  {
    RunExplained(env, actions, p, c);
  }

  lemma LastRegisters(env: Env, actions: seq<Action>, p: Producer, c: ChannelId) returns (was: Producer)
    requires actions != [] && Run(env, actions) == Some(p) && c in p.heads
    ensures Run(env, actions[..|actions| - 1]) == Some(was)
    ensures c in was.heads <==> History(actions[..|actions| - 1], c) != []
    ensures Registers(actions[|actions| - 1], c) <==> c !in was.heads
  {
    was := RunSplits(env, actions, p);
    HeadIffHistory(env, actions[..|actions| - 1], was, c);
    StepRegisters(env, was, actions[|actions| - 1], p, c);
  }

  // One more action moves the start only by being the registration itself.
  lemma StartGrows(before: seq<Action>, a: Action, c: ChannelId, at: nat)
    requires if Registers(a, c) then History(before, c) == [] && at == |before| else StartsAt(before, c, at)
    ensures StartsAt(before + [a], c, at)
  {
    if Registers(a, c) {
      StartsHere(before, a, c);
    } else {
      StartStays(before, a, c, at);
    }
  }

  /** A history starts with the one registration of its channel, and with nothing else. */
  lemma {:induction false} HistoryStartsAtRegistration(env: Env, actions: seq<Action>, p: Producer, c: ChannelId)
    returns (at: nat)
    requires Run(env, actions) == Some(p) && c in p.heads
    ensures StartsAt(actions, c, at)
  {
    var before, a := actions[..|actions| - 1], actions[|actions| - 1];
    var was := LastRegisters(env, actions, p, c);
    at := |before|;
    if c in was.heads {
      at := HistoryStartsAtRegistration(env, before, was, c);
    }
    StartGrows(before, a, c, at);
    assert actions == before + [a];
  }

  // ---------- terminal channels ----------

  // A terminal channel takes no state and no send, whatever is accepted next.
  lemma TerminalStep(env: Env, p: Producer, a: Action, q: Producer, c: ChannelId)
    requires c in p.terminal && c in p.heads && c in p.nonces
    requires HeadStep(env, p, q, StatesOf(a, c), c) && NonceStep(p, a, q, c)
    ensures StatesOf(a, c) == [] && !SendsFrom(a, c)
    ensures c in q.terminal && c in q.heads && c in q.nonces && q.heads[c] == p.heads[c] && q.nonces[c] == p.nonces[c]
  {
  }

  // Nothing about a channel differs between two producers.
  predicate SameChannel(p: Producer, q: Producer, c: ChannelId) {
    && c in p.terminal && c in p.heads && c in p.nonces
    && c in q.terminal && c in q.heads && c in q.nonces
    && q.heads[c] == p.heads[c] && q.nonces[c] == p.nonces[c]
  }

  lemma LastStep(env: Env, actions: seq<Action>, q: Producer, c: ChannelId) returns (was: Producer)
    requires actions != [] && Run(env, actions) == Some(q)
    ensures Run(env, actions[..|actions| - 1]) == Some(was)
    ensures HeadStep(env, was, q, StatesOf(actions[|actions| - 1], c), c)
    ensures NonceStep(was, actions[|actions| - 1], q, c)
  {
    was := RunSplits(env, actions, q);
    RunTracked(env, actions[..|actions| - 1], was);
    StepBoth(env, was, actions[|actions| - 1], q, c);
  }

  /** After its close funding a channel takes no state, spends no nonce and never reopens. */
  lemma {:induction false} TerminalIsFinal(env: Env, actions: seq<Action>, more: seq<Action>, p: Producer, q: Producer,
                                           c: ChannelId)
    requires Run(env, actions) == Some(p) && c in p.terminal && Run(env, actions + more) == Some(q)
    ensures SameChannel(p, q, c)
    ensures History(actions + more, c) == History(actions, c) && Sends(actions + more, c) == Sends(actions, c)
    decreases |more|
  {
    if more == [] {
      assert actions + more == actions;
      RunExplained(env, actions, p, c);
      ClosingIsSending(actions, c);
    } else {
      var before, a := actions + more[..|more| - 1], more[|more| - 1];
      assert actions + more == before + [a] && (actions + more)[..|actions + more| - 1] == before;
      var was := LastStep(env, actions + more, q, c);
      TerminalIsFinal(env, actions, more[..|more| - 1], p, was, c);
      TerminalStep(env, was, a, q, c);
    }
  }

  lemma RunTracked(env: Env, actions: seq<Action>, p: Producer)
    requires Run(env, actions) == Some(p)
    ensures Tracked(p)
  {
    RunExplained(env, actions, p, 0);
  }

  lemma {:induction false} ClosingIsSending(actions: seq<Action>, c: ChannelId)
    requires exists i :: 0 <= i < |actions| && ClosesFunding(actions[i], c)
    ensures Sends(actions, c) > 0
  {
    var last := |actions| - 1;
    if !ClosesFunding(actions[last], c) {
      var i :| 0 <= i < |actions| && ClosesFunding(actions[i], c);
      assert ClosesFunding(actions[..last][i], c);
      ClosingIsSending(actions[..last], c);
    }
  }

  // ---------- transactions ----------

  function TxHashOf(a: Action): Option<Bytes32> {
    if a.PostInterChannel? || a.StagedExitKit? then Some(a.descriptor.txHash) else None
  }

  predicate TxStep(was: set<Bytes32>, a: Action, now: set<Bytes32>) {
    match TxHashOf(a)
    case None => now == was
    case Some(hash) => hash !in was && now == was + {hash}
  }

  lemma StepTxs(env: Env, p: Producer, a: Action, q: Producer)
    requires Apply(env, p, a) == Some(q)
    ensures TxStep(p.acceptedTxs, a, q.acceptedTxs)
  {
  }

  predicate Admits(actions: seq<Action>, i: nat, hash: Bytes32)
    requires i < |actions|
  {
    TxHashOf(actions[i]) == Some(hash)
  }

  // A transaction is remembered exactly when some action admitted it, and at most one did.
  ghost predicate TxsExplained(actions: seq<Action>, txs: set<Bytes32>) {
    && (forall hash :: hash in txs <==> exists i :: 0 <= i < |actions| && Admits(actions, i, hash))
    && forall i, j, hash :: 0 <= i < j < |actions| && Admits(actions, i, hash) ==> !Admits(actions, j, hash)
  }

  lemma TxsGrow(before: seq<Action>, a: Action, was: set<Bytes32>, now: set<Bytes32>)
    requires TxsExplained(before, was) && TxStep(was, a, now)
    ensures TxsExplained(before + [a], now)
  {
    var all := before + [a];
    assert forall i, hash :: 0 <= i < |before| ==> Admits(all, i, hash) == Admits(before, i, hash);
    forall hash ensures hash in now <==> exists i :: 0 <= i < |all| && Admits(all, i, hash) {
      if hash in was {
        var i :| 0 <= i < |before| && Admits(before, i, hash);
        assert Admits(all, i, hash);
      } else {
        assert Admits(all, |before|, hash) <==> TxHashOf(a) == Some(hash);
        assert forall i :: 0 <= i < |before| ==> !Admits(before, i, hash);
      }
    }
  }

  /** The producer remembers exactly the transactions it admitted, and admits none twice. */
  lemma {:induction false} TransactionsAdmittedOnce(env: Env, actions: seq<Action>, p: Producer)
    requires Run(env, actions) == Some(p)
    ensures TxsExplained(actions, p.acceptedTxs)
  {
    if actions != [] {
      var before, a := actions[..|actions| - 1], actions[|actions| - 1];
      var was := RunSplits(env, actions, p);
      TransactionsAdmittedOnce(env, before, was);
      StepTxs(env, was, a, p);
      TxsGrow(before, a, was.acceptedTxs, p.acceptedTxs);
      assert actions == before + [a];
    }
  }

  // ---------- authorization ----------

  lemma JoinKeepsAuthorization(env: Env, old_: ChannelRecord, new_: ChannelRecord, head: ChannelState)
    requires DelegatesAppended(old_, new_) && AllSigned(env, old_, head)
    ensures AllSigned(env, new_, head)
  {
    forall slot | 0 <= slot < new_.memberCount ensures SlotSigned(env, new_, head, slot) {
      assert SlotAccepted(old_, new_, slot);
      assert SlotSigned(env, old_, head, slot);
    }
  }

  lemma StepAuthorized(env: Env, p: Producer, a: Action, q: Producer, c: ChannelId)
    requires Tracked(p) && Apply(env, p, a) == Some(q) && !a.StagedExitKit?
    requires c in p.heads ==> AllSigned(env, p.records[c], p.heads[c])
    requires c in q.heads && c in q.records
    ensures AllSigned(env, q.records[c], q.heads[c])
  {
    match a
    case AdoptDelegateJoin(record, s, _) =>
      if c == record.channelId && q.records[c] != p.records[c] {
        JoinKeepsAuthorization(env, p.records[c], record, p.heads[c]);
      }
    case SyncOffchainHeads(states, _) =>
      var d := states[0].channelId;
      assert ExtendsOffchain(env, p.records[d], d, Before(p.heads[d], states, |states| - 1), states[|states| - 1]);
    case _ =>
  }

  /**
    On a run without staged blocks every committed head carries the signature of every co-signer of the
    channel's current record, delegate joins notwithstanding.
  */
  lemma {:induction false} HeadsAreAuthorized(env: Env, actions: seq<Action>, p: Producer, c: ChannelId)
    requires Run(env, actions) == Some(p) && c in p.heads
    requires forall i :: 0 <= i < |actions| ==> !actions[i].StagedExitKit?
    ensures c in p.records && AllSigned(env, p.records[c], p.heads[c])
  {
    var last := |actions| - 1;
    RunExplained(env, actions, p, c);
    var was := RunSplits(env, actions, p);
    RunExplained(env, actions[..last], was, c);
    if c in was.heads {
      HeadsAreAuthorized(env, actions[..last], was, c);
    }
    StepAuthorized(env, was, actions[last], p, c);
  }

  // ---------- records ----------

  // The same record, or the same one with delegates appended.
  predicate SameCluster(old_: ChannelRecord, new_: ChannelRecord) { new_ == old_ || DelegatesAppended(old_, new_) }

  lemma StepRecord(env: Env, p: Producer, a: Action, q: Producer, c: ChannelId)
    requires Apply(env, p, a) == Some(q) && c in p.records
    ensures c in q.records && SameCluster(p.records[c], q.records[c])
  {
  }

  lemma LastRecord(env: Env, actions: seq<Action>, q: Producer, c: ChannelId) returns (was: Producer)
    requires actions != [] && Run(env, actions) == Some(q)
    ensures Run(env, actions[..|actions| - 1]) == Some(was)
    ensures c in was.records ==> c in q.records && SameCluster(was.records[c], q.records[c])
  {
    was := RunSplits(env, actions, q);
    if c in was.records {
      StepRecord(env, was, actions[|actions| - 1], q, c);
    }
  }

  /** A registered record never loses or replaces a co-signer: over any run it only gains delegates at its boundary. */
  lemma {:induction false} RecordsOnlyGainDelegates(env: Env, actions: seq<Action>, more: seq<Action>, p: Producer,
                                                    q: Producer, c: ChannelId)
    requires Run(env, actions) == Some(p) && Run(env, actions + more) == Some(q) && c in p.records
    ensures c in q.records && SameCluster(p.records[c], q.records[c])
    decreases |more|
  {
    if more == [] {
      assert actions + more == actions;
    } else {
      var was := LastRecord(env, actions + more, q, c);
      assert (actions + more)[..|actions + more| - 1] == actions + more[..|more| - 1];
      RecordsOnlyGainDelegates(env, actions, more[..|more| - 1], p, was, c);
      ClusterTransitive(p.records[c], was.records[c], q.records[c]);
    }
  }

  lemma ClusterTransitive(a: ChannelRecord, b: ChannelRecord, c: ChannelRecord)
    requires SameCluster(a, b) && SameCluster(b, c)
    ensures SameCluster(a, c)
  {
    if DelegatesAppended(a, b) && DelegatesAppended(b, c) {
      AppendIsTransitive(a, b, c);
    }
  }

  /**
    A join that changes the record leaves it agreeing with the committed head on every participant count, or
    the presented state and the head are a digest collision.
  */
  lemma JoinMatchesHead(env: Env, actions: seq<Action>, p: Producer, record: ChannelRecord, s: ChannelState,
                        q: Producer)
    requires Run(env, actions) == Some(p)
    requires Joined(env, p, record, s) == Some(q) && q != p
    ensures
      var c := record.channelId;
      && c in q.heads && q.heads == p.heads && q.records[c] == record
      && (|| (q.heads[c].balance.memberCount == record.memberCount
              && q.heads[c].balance.delegateCount == record.delegateCount)
          || StatesCollide(env.cr, s, q.heads[c]))
  {
    var c := record.channelId;
    HeadIffHistory(env, actions, p, c);
    RunExplained(env, actions, p, c);
    var h := History(actions, c);
    assert Authentic(env, h[|h| - 1], c);
    assert s.Unsigned() == p.heads[c].Unsigned() ==> s.Unsigned().balance == p.heads[c].Unsigned().balance;
  }

  // ---------- sends and blocks ----------

  // The send's signed state belongs to this channel; the account it charges may be another's.
  predicate Commits(a: Action, c: ChannelId) {
    match a
    case PostInterChannel(s, _, _, _) => s.channelId == c
    case StagedExitKit(s, _, _, _) => s.channelId == c
    case PostCloseFunding(s, _, _) => s.channelId == c
    case _ => false
  }

  // Sends charged to another account whose state is of this channel, and the other way round.
  function Arrivals(actions: seq<Action>, c: ChannelId): nat {
    if actions == [] then 0
    else
      var a := actions[|actions| - 1];
      Arrivals(actions[..|actions| - 1], c) + if Commits(a, c) && !SendsFrom(a, c) then 1 else 0
  }

  function Departures(actions: seq<Action>, c: ChannelId): nat {
    if actions == [] then 0
    else
      var a := actions[|actions| - 1];
      Departures(actions[..|actions| - 1], c) + if SendsFrom(a, c) && !Commits(a, c) then 1 else 0
  }

  // The states of a history after the first that carry a block root.
  function BlockStates(h: seq<ChannelState>): nat {
    if |h| <= 1 then 0 else BlockStates(h[..|h| - 1]) + if h[|h| - 1].h2Tag != 0 then 1 else 0
  }

  lemma {:induction false} BlockStatesAppend(h: seq<ChannelState>, states: seq<ChannelState>)
    requires h != [] && forall i :: 0 <= i < |states| ==> states[i].h2Tag == 0
    ensures BlockStates(h + states) == BlockStates(h)
  {
    if states == [] {
      assert h + states == h;
    } else {
      var g := h + states;
      assert g[..|g| - 1] == h + states[..|states| - 1];
      BlockStatesAppend(h, states[..|states| - 1]);
    }
  }

  lemma StepBlocks(env: Env, p: Producer, a: Action, q: Producer, c: ChannelId)
    requires Tracked(p) && Apply(env, p, a) == Some(q) && c in p.heads
    ensures if Commits(a, c) then |StatesOf(a, c)| == 1 && StatesOf(a, c)[0].h2Tag != 0
            else forall i :: 0 <= i < |StatesOf(a, c)| ==> StatesOf(a, c)[i].h2Tag == 0
  {
    match a
    case SyncOffchainHeads(states, _) =>
      forall i | 0 <= i < |StatesOf(a, c)| ensures states[i].h2Tag == 0 {
        assert ExtendsOffchain(env, p.records[c], c, Before(p.heads[c], states, i), states[i]);
      }
    case _ =>
  }

  lemma BlocksGrow(h: seq<ChannelState>, states: seq<ChannelState>, send: bool)
    requires h != []
    requires if send then |states| == 1 && states[0].h2Tag != 0
             else forall i :: 0 <= i < |states| ==> states[i].h2Tag == 0
    ensures BlockStates(h + states) == BlockStates(h) + if send then 1 else 0
  {
    if send {
      assert (h + states)[..|h + states| - 1] == h;
    } else {
      BlockStatesAppend(h, states);
    }
  }

  /**
    The balance of sends and blocks, over every run: what a channel's account was charged for plus what others
    were charged for its states equals its block-bearing states plus its charges for others' states.
  */
  lemma {:induction false} SendsBalanceBlocks(env: Env, actions: seq<Action>, p: Producer, c: ChannelId)
    requires Run(env, actions) == Some(p)
    ensures Sends(actions, c) + Arrivals(actions, c) == BlockStates(History(actions, c)) + Departures(actions, c)
  {
    if actions != [] {
      var before, a := actions[..|actions| - 1], actions[|actions| - 1];
      var was := RunSplits(env, actions, p);
      HeadIffHistory(env, before, was, c);
      SendsBalanceBlocks(env, before, was, c);
      if c in was.heads {
        StepBlocks(env, was, a, p, c);
        BlocksGrow(History(before, c), StatesOf(a, c), Commits(a, c));
      } else {
        NoSendBeforeRegistration(env, was, a, p, c);
      }
    }
  }

  lemma NoSendBeforeRegistration(env: Env, p: Producer, a: Action, q: Producer, c: ChannelId)
    requires Tracked(p) && Apply(env, p, a) == Some(q) && c !in p.heads
    ensures !SendsFrom(a, c) && !Commits(a, c) && |StatesOf(a, c)| <= 1
  {
  }

  /** A channel's sends are exactly its block-bearing states if and only if its arrivals match its departures. */
  lemma SendsAreBlocks(env: Env, actions: seq<Action>, p: Producer, c: ChannelId)
    requires Run(env, actions) == Some(p)
    ensures Sends(actions, c) == BlockStates(History(actions, c)) <==> Arrivals(actions, c) == Departures(actions, c)
  {
    SendsBalanceBlocks(env, actions, p, c);
  }

  /** A close funding charges the channel of its own state, or that state and the canonical child collide. */
  lemma CloseFundingIsAligned(env: Env, p: Producer, s: ChannelState, plan: Plan, t: u64)
    requires CloseFunded(env, p, s, plan, t).Some?
    ensures
      && plan.sourceChannelId in p.heads
      && var built := BuildProposal(env.cr, p.heads[plan.sourceChannelId], plan.chainId, plan.rollup, plan.manager,
                                    plan.baseNonce);
      && built.Ok? && (s.channelId == plan.sourceChannelId || StatesCollide(env.cr, s, built.value.child))
  {
    AcceptedChildExtendsHead(env.cr, p.heads[plan.sourceChannelId], s, plan);
  }

  // ---------- close funding reaches the producer ----------

  /**
    The canonical close-funding proposal for a committed head, once every co-signer signed its child,
    passes the producer's link and counter fence and is admitted.
  */
  lemma CanonicalCloseFundingAdmitted(env: Env, p: Producer, c: ChannelId, chainId: u64, rollup: Address,
                                      manager: Address, nonce: u32, sigs: seq<MemberSignature>, timestamp: u64)
    requires Tracked(p) && c in p.heads && p.heads[c].channelId == c && c !in p.terminal
    requires BuildProposal(env.cr, p.heads[c], chainId, rollup, manager, nonce).Ok?
    requires NextNonce(p, c) == Some(nonce) && env.servesOneChannel(p.witness_)
    requires timestamp > env.lastTimestamp(p.witness_)
    requires
      var built := BuildProposal(env.cr, p.heads[c], chainId, rollup, manager, nonce).value;
      var signed := built.child.(memberSignatures := sigs);
      && built.plan.txTreeRoot != 0 && OpensItsLeaf(env.cr, built.plan)
      && AllSigned(env, p.records[c], signed)
      && env.addBlock(p.witness_, signed, Verified, timestamp,
                      BlockTx(c, built.plan.txV2, built.plan.proof, false)).Some?
    ensures
      var built := BuildProposal(env.cr, p.heads[c], chainId, rollup, manager, nonce).value;
      && ExtendsOnBlock(p.heads[c], built.child)
      && CloseFunded(env, p, built.child.(memberSignatures := sigs), built.plan, timestamp).Some?
  {
    var built := BuildProposal(env.cr, p.heads[c], chainId, rollup, manager, nonce).value;
    var signed := built.child.(memberSignatures := sigs);
    CanonicalProposalAccepted(env.cr, p.heads[c], chainId, rollup, manager, nonce);
    assert signed.Unsigned() == built.child.Unsigned();
    assert VerifyProposal(env.cr, p.heads[c], signed, built.plan);
    assert CosignAdmitted(env, p, signed, timestamp, built.plan.txTreeRoot,
                          BlockTx(c, built.plan.txV2, built.plan.proof, false), Verified);
  }
}
