/**
  The producer service itself: one journal on disk, one producer in memory, and a flag that stops it after an
  uncertain write.
*/
module ProducerService {
  import opened Wrappers
  import opened MachineWords
  import opened ChannelTypes
  import opened CloseFunding
  import opened BlockProducer
  import opened ProducerJournal
  import opened ProducerJournalSafety

  /** The restart loop: running producer, previous hash, seen request ids and previous timestamp. */
  method RunReplay<P>(e: Engine<P>, counts: seq<u32>, entries: seq<Entry>) returns (r: Option<P>)
    ensures r == Replay(e, counts, entries)
  {
    var producer := e.genesis(counts);
    var expectedPrev := e.genesisHash(counts);
    var requestIds: set<string> := {};
    var priorTimestamp: u64 := 0;
    for i := 0 to |entries|
      invariant Replay(e, counts, entries[..i]) == Some(producer)
      invariant expectedPrev == TailHash(e, counts, entries[..i])
      invariant priorTimestamp == PriorTimestamp(entries[..i])
      invariant forall id :: id in requestIds <==> Find(entries[..i], id).Some?
    {
      var x := entries[i];
      ghost var before, upTo := entries[..i], entries[..i + 1];
      assert upTo[..|upTo| - 1] == before;
      if x.generation != i + 1 || x.prevHash != expectedPrev || !ValidRequestId(x.requestId)
         || x.requestId in requestIds
         || x.fingerprint != e.bodyHash(BodyOf(x.action)) || x.action.timestamp <= priorTimestamp
         || x.entryHash != e.entryHash(x.Material())
      {
        assert !EntryFollows(e, counts, before, x);
        ReplayFails(e, counts, entries, i + 1);
        return None;
      }
      var applied := Reproduce(e, producer, x);
      if applied.None? {
        ReplayFails(e, counts, entries, i + 1);
        return None;
      }
      producer := applied.value;
      requestIds := requestIds + {x.requestId};
      priorTimestamp := x.action.timestamp;
      expectedPrev := x.entryHash;
    }
    assert entries[..|entries|] == entries;
    return Some(producer);
  }

  lemma {:induction false} ReplayFails<P>(e: Engine<P>, counts: seq<u32>, entries: seq<Entry>, n: nat)
    requires n <= |entries| && Replay(e, counts, entries[..n]).None?
    ensures Replay(e, counts, entries).None?
    decreases |entries|
  {
    if n == |entries| {
      assert entries[..n] == entries;
    } else {
      assert entries[..|entries| - 1][..n] == entries[..n];
      ReplayFails(e, counts, entries[..|entries| - 1], n);
    }
  }

  method RunVerifyAndReplay<P>(e: Engine<P>, d: Disk) returns (r: Option<(P, Option<P>)>)
    ensures r == VerifyAndReplay(e, d)
  {
    if !WellFramed(d) {
      return None;
    }
    var replayed := RunReplay(e, d.counts, d.entries);
    if replayed.None? || d.tailHash != TailHash(e, d.counts, d.entries) {
      return None;
    }
    var prepared := ReplayPrepared(e, d, replayed.value);
    if prepared.None? {
      return None;
    }
    return Some((replayed.value, prepared.value));
  }

  method FindEntry(entries: seq<Entry>, id: string) returns (found: Option<Entry>)
    ensures found == Find(entries, id)
  {
    for i := 0 to |entries|
      invariant Find(entries[..i], id).None?
    {
      ghost var upTo := entries[..i + 1];
      assert upTo[..|upTo| - 1] == entries[..i];
      if entries[i].requestId == id {
        FindStays(upTo, entries[i + 1..], id);
        assert upTo + entries[i + 1..] == entries;
        return Some(entries[i]);
      }
    }
    assert entries[..|entries|] == entries;
    return None;
  }

  class BlockProducerService<P> {
    const e: Engine<P>
    var disk: Disk
    var producer: P
    var preparedProducer: Option<P>
    var poisoned: bool
    // The journal file as the next process would find it.
    var file: Disk

    ghost function Model(): Service<P>
      reads this
    {
      Service(disk, producer, preparedProducer, poisoned, file)
    }

    constructor (e: Engine<P>, file: Disk, producer: P, prepared: Option<P>)
      ensures this.e == e && Model() == Service(file, producer, prepared, false, file)
    {
      this.e := e;
      disk, this.producer, preparedProducer, poisoned, this.file := file, producer, prepared, false, file;
    }

    static method OpenJournal(e: Engine<P>, counts: seq<u32>, found: Option<Disk>)
      returns (r: Option<BlockProducerService<P>>)
      ensures
        var service := Open(e, counts, if found.Some? then found.value else EmptyDisk(e, counts));
        && r.Some? == service.Some?
        && (r.Some? ==> fresh(r.value) && r.value.e == e && r.value.Model() == service.value)
    {
      if !CountsValid(counts) {
        return None;
      }
      var file := if found.Some? then found.value else EmptyDisk(e, counts);
      if file.counts != counts {
        return None;
      }
      var replayed := RunVerifyAndReplay(e, file);
      if replayed.None? {
        return None;
      }
      var service := new BlockProducerService(e, file, replayed.value.0, replayed.value.1);
      return Some(service);
    }

    // Write the next journal durably; on failure the old or the new file survives.
    method PersistJournal(next: Disk) returns (outcome: Persisted)
      modifies this`file
      ensures file == if outcome.FailedOld? then old(file) else next
    {
      outcome := *;
      if !outcome.FailedOld? {
        file := next;
      }
    }

    // The model after a decision was persisted with some outcome, and the answer the caller gets.
    twostate predicate Carried(d: Decision<P>, outcome: Persisted, reply: Reply)
      reads this
    {
      Model() == Settle(old(Model()), d, outcome) && reply == ReplyOf(d, outcome)
    }

    method BuildCandidateEntry(id: string, a: Action) returns (r: Option<(P, Entry)>)
      ensures r == Candidate(e, Model(), id, a)
    {
      var applied := e.apply(producer, a);
      if applied.None? || !e.clean(applied.value) || disk.generation + 1 >= U64_LIMIT {
        return None;
      }
      var entry := Entry(disk.generation + 1, id, e.bodyHash(BodyOf(a)), disk.tailHash, a, e.head(applied.value), 0);
      entry := entry.(entryHash := e.entryHash(entry));
      return Some((applied.value, entry));
    }

    method NextTimestampAt(wall: u64) returns (t: Option<u64>)
      ensures t == NextTimestamp(e, Model(), wall)
    {
      var own := e.lastTimestamp(producer);
      var prior := own;
      if disk.entries != [] && disk.entries[|disk.entries| - 1].action.timestamp > prior {
        prior := disk.entries[|disk.entries| - 1].action.timestamp;
      }
      if prior + 1 >= U64_LIMIT {
        return None;
      }
      return Some(if wall > prior + 1 then wall else prior + 1);
    }

    method IdempotentReceipt(id: string, fingerprint: Bytes32) returns (r: Lookup)
      ensures r == Idempotent(disk.entries, id, fingerprint)
    {
      var found := FindEntry(disk.entries, id);
      if found.None? {
        return Unknown;
      }
      return if found.value.fingerprint == fingerprint then Known(found.value) else Conflict;
    }

    method ApplyAndPersist(id: string, a: Action) returns (reply: Reply, outcome: Persisted)
      requires !poisoned
      modifies this
      ensures Carried(AppendDecision(e, old(Model()), id, a), outcome, reply)
    {
      outcome := Done;
      if disk.prepared.Some? {
        return Error, outcome;
      }
      var built := BuildCandidateEntry(id, a);
      if built.None? {
        return Error, outcome;
      }
      var (candidate, entry) := built.value;
      var next := Appended(disk, entry);
      outcome := PersistJournal(next);
      if !outcome.Done? {
        poisoned := true;
        return Error, outcome;
      }
      disk, producer := next, candidate;
      reply := Success(Some(ReceiptOf(e, entry)));
    }

    // The common shape of register, deposit, synchronize and join.
    method SubmitSimple(id: string, body: Action, conflict: bool, wall: u64) returns (reply: Reply, outcome: Persisted)
      modifies this
      ensures Carried(SimpleDecision(e, old(Model()), id, body, conflict, wall), outcome, reply)
    {
      outcome := Done;
      if poisoned || disk.prepared.Some? || !ValidRequestId(id) {
        return Error, outcome;
      }
      var known := IdempotentReceipt(id, e.bodyHash(BodyOf(body)));
      match known {
        case Conflict => return Error, outcome;
        case Known(x) => return Success(Some(ReceiptOf(e, x))), outcome;
        case Unknown =>
      }
      var t := NextTimestampAt(wall);
      if conflict || t.None? {
        return Error, outcome;
      }
      reply, outcome := ApplyAndPersist(id, AtTime(body, t.value));
    }

    method RegisterChannel(id: string, snapshot: Snapshot, wall: u64) returns (reply: Reply, outcome: Persisted)
      modifies this
      ensures Carried(Decide(e, old(Model()), RegisterRequest(id, snapshot), wall), outcome, reply)
    {
      reply, outcome := SubmitSimple(id, Register(snapshot, 0), false, wall);
    }

    method PostDepositBlock(id: string, deposit: DepositRequest, wall: u64) returns (reply: Reply, outcome: Persisted)
      modifies this
      ensures Carried(Decide(e, old(Model()), DepositRequested(id, deposit), wall), outcome, reply)
    {
      reply, outcome := SubmitSimple(id, PostDeposit(deposit, 0), false, wall);
    }

    method JoinDelegate(id: string, record: ChannelRecord, signed: ChannelState, wall: u64)
      returns (reply: Reply, outcome: Persisted)
      modifies this
      ensures Carried(Decide(e, old(Model()), JoinRequest(id, record, signed), wall), outcome, reply)
    {
      reply, outcome := SubmitSimple(id, AdoptDelegateJoin(record, signed, 0), false, wall);
    }

    // Has any of the states been admitted by an earlier entry?
    method FindSyncConflict(states: seq<ChannelState>) returns (found: bool)
      ensures found == SyncConflict(disk.entries, states)
    {
      for k := 0 to |states|
        invariant forall i, j :: 0 <= i < |disk.entries| && 0 <= j < k ==>
            !SyncedBefore(disk.entries[i].action, states[j].digest)
      {
        for i := 0 to |disk.entries|
          invariant forall j :: 0 <= j < i ==> !SyncedBefore(disk.entries[j].action, states[k].digest)
        {
          if SyncedBefore(disk.entries[i].action, states[k].digest) {
            return true;
          }
        }
      }
      return false;
    }

    method SyncHeads(id: string, states: seq<ChannelState>, wall: u64) returns (reply: Reply, outcome: Persisted)
      modifies this
      ensures Carried(Decide(e, old(Model()), SyncRequest(id, states), wall), outcome, reply)
    {
      if states == [] {
        return Error, Done;
      }
      var conflict := FindSyncConflict(states);
      reply, outcome := SubmitSimple(id, SyncOffchainHeads(states, 0), conflict, wall);
    }

    // Promote the staged block of exactly this transition in place.
    method PromoteStagedEntry(id: string, a: Action, staged: Entry) returns (reply: Reply, outcome: Persisted)
      requires !poisoned
      modifies this
      ensures Carried(PromoteStaged(e, old(Model()), id, a, staged), outcome, reply)
    {
      outcome := Done;
      var built := BuildCandidateEntry(id, a);
      if built.None? || built.value.1.result != staged.result {
        return Error, outcome;
      }
      var (candidate, entry) := built.value;
      var next := Appended(disk.(prepared := None), entry);
      outcome := PersistJournal(next);
      if !outcome.Done? {
        poisoned := true;
        return Error, outcome;
      }
      disk, producer, preparedProducer := next, candidate, None;
      reply := Success(Some(ReceiptOf(e, entry)));
    }

    method PostInterChannelBlock(id: string, signed: ChannelState, debit: DebitPayload, d: Descriptor, wall: u64)
      returns (reply: Reply, outcome: Persisted)
      modifies this
      ensures Carried(Decide(e, old(Model()), PostRequest(id, signed, debit, d), wall), outcome, reply)
    {
      outcome := Done;
      if poisoned || !ValidRequestId(id) {
        return Error, outcome;
      }
      var known := IdempotentReceipt(id, e.bodyHash(PostBody(signed, debit, d)));
      match known {
        case Conflict => return Error, outcome;
        case Known(x) => return Success(Some(ReceiptOf(e, x))), outcome;
        case Unknown =>
      }
      if disk.prepared.Some? {
        var x := disk.prepared.value;
        if !x.action.StagedExitKit? || x.fingerprint != e.bodyHash(StagedBodyOf(signed, debit, d)) {
          return Error, outcome;
        }
        reply, outcome := PromoteStagedEntry(id, PostInterChannel(signed, debit, d, x.action.timestamp), x);
        return;
      }
      for i := 0 to |disk.entries|
        invariant Model() == old(Model())
        invariant forall j :: 0 <= j < i ==> !SentBefore(disk.entries[j].action, signed.digest, d.txHash)
      {
        if SentBefore(disk.entries[i].action, signed.digest, d.txHash) {
          return Error, outcome;
        }
      }
      var t := NextTimestampAt(wall);
      if t.None? {
        return Error, outcome;
      }
      reply, outcome := ApplyAndPersist(id, PostInterChannel(signed, debit, d, t.value));
    }

    method FindAdmitted(digest: Bytes32) returns (found: bool)
      ensures found == StateAdmitted(disk.entries, digest)
    {
      for i := 0 to |disk.entries|
        invariant forall j :: 0 <= j < i ==> !AdmittedBefore(disk.entries[j].action, digest)
      {
        if AdmittedBefore(disk.entries[i].action, digest) {
          return true;
        }
      }
      return false;
    }

    // Stage a candidate durably without advancing the journal or the producer.
    method StageEntry(id: string, a: Action) returns (reply: Reply, outcome: Persisted)
      requires !poisoned
      modifies this
      ensures Carried(PrepareDecision(e, old(Model()), id, a), outcome, reply)
    {
      outcome := Done;
      var built := BuildCandidateEntry(id, a);
      if built.None? {
        return Error, outcome;
      }
      var (candidate, entry) := built.value;
      var next := disk.(prepared := Some(entry));
      outcome := PersistJournal(next);
      if !outcome.Done? {
        poisoned := true;
        return Error, outcome;
      }
      disk, preparedProducer := next, Some(candidate);
      reply := Success(Some(ReceiptOf(e, entry)));
    }

    method PrepareCloseFunding(id: string, signed: ChannelState, plan: Plan, wall: u64)
      returns (reply: Reply, outcome: Persisted)
      modifies this
      ensures Carried(Decide(e, old(Model()), PrepareClose(id, signed, plan), wall), outcome, reply)
    {
      outcome := Done;
      if poisoned || !ValidRequestId(id) {
        return Error, outcome;
      }
      var fingerprint := e.bodyHash(CloseBody(signed, plan));
      var known := IdempotentReceipt(id, fingerprint);
      match known {
        case Conflict => return Error, outcome;
        case Known(x) => return Success(Some(ReceiptOf(e, x))), outcome;
        case Unknown =>
      }
      if disk.prepared.Some? {
        var x := disk.prepared.value;
        if x.requestId != id || x.fingerprint != fingerprint {
          return Error, outcome;
        }
        return Success(Some(ReceiptOf(e, x))), outcome;
      }
      var admitted := FindAdmitted(signed.digest);
      var t := NextTimestampAt(wall);
      if admitted || t.None? {
        return Error, outcome;
      }
      reply, outcome := StageEntry(id, PostCloseFunding(signed, plan, t.value));
    }

    method PromotePreparedEntry(anchor: Anchor) returns (reply: Reply, outcome: Persisted)
      requires !poisoned
      modifies this
      ensures Carried(PromotePrepared(e, old(Model()), anchor), outcome, reply)
    {
      outcome := Done;
      if disk.prepared.None? || AnchorOf(e, disk.prepared.value) != anchor
         || !disk.prepared.value.action.PostCloseFunding?
         || preparedProducer.None?
      {
        return Error, outcome;
      }
      var entry := disk.prepared.value;
      var next := Appended(disk.(prepared := None), entry);
      outcome := PersistJournal(next);
      if !outcome.Done? {
        poisoned := true;
        return Error, outcome;
      }
      disk, producer, preparedProducer := next, preparedProducer.value, None;
      reply := Success(Some(ReceiptOf(e, entry)));
    }

    method CommitPreparedCloseFunding(id: string, signed: ChannelState, plan: Plan, anchor: Anchor)
      returns (reply: Reply, outcome: Persisted)
      modifies this
      ensures Carried(Decide(e, old(Model()), CommitClose(id, signed, plan, anchor), 0), outcome, reply)
    {
      outcome := Done;
      if poisoned || !ValidRequestId(id) {
        return Error, outcome;
      }
      var fingerprint := e.bodyHash(CloseBody(signed, plan));
      var known := IdempotentReceipt(id, fingerprint);
      match known {
        case Conflict => return Error, outcome;
        case Known(x) =>
          if AnchorOf(e, x) != anchor {
            return Error, outcome;
          }
          return Success(Some(ReceiptOf(e, x))), outcome;
        case Unknown =>
      }
      if disk.prepared.None? || disk.prepared.value.requestId != id || disk.prepared.value.fingerprint != fingerprint {
        return Error, outcome;
      }
      reply, outcome := PromotePreparedEntry(anchor);
    }

    method CommitPreparedAtAnchor(anchor: Anchor) returns (reply: Reply, outcome: Persisted)
      modifies this
      ensures Carried(Decide(e, old(Model()), CommitCloseAt(anchor), 0), outcome, reply)
    {
      outcome := Done;
      if poisoned {
        return Error, outcome;
      }
      var committed := CommittedAt(e, disk, anchor);
      if committed.Some? {
        if !committed.value.action.PostCloseFunding? {
          return Error, outcome;
        }
        return Success(Some(ReceiptOf(e, committed.value))), outcome;
      }
      reply, outcome := PromotePreparedEntry(anchor);
    }

    method PrepareExitKit(id: string, proposed: ChannelState, debit: DebitPayload, d: Descriptor, wall: u64)
      returns (reply: Reply, outcome: Persisted)
      modifies this
      ensures Carried(Decide(e, old(Model()), PrepareKit(id, proposed, debit, d), wall), outcome, reply)
    {
      outcome := Done;
      if poisoned || !ValidRequestId(id) {
        return Error, outcome;
      }
      var fingerprint := e.bodyHash(StagedBodyOf(proposed, debit, d));
      if disk.prepared.Some? {
        var x := disk.prepared.value;
        if x.requestId != id || x.fingerprint != fingerprint {
          return Error, outcome;
        }
        return Success(Some(ReceiptOf(e, x))), outcome;
      }
      var named := FindEntry(disk.entries, id);
      var admitted := FindAdmitted(proposed.digest);
      var t := NextTimestampAt(wall);
      if named.Some? || admitted || t.None? {
        return Error, outcome;
      }
      reply, outcome := StageEntry(id, StagedExitKit(proposed, debit, d, t.value));
    }

    method AbandonExitKit(id: string) returns (reply: Reply, outcome: Persisted)
      modifies this
      ensures Carried(Decide(e, old(Model()), AbandonKit(id), 0), outcome, reply)
    {
      outcome := Done;
      if poisoned {
        return Error, outcome;
      }
      if disk.prepared.None? {
        return Success(None), outcome;
      }
      if disk.prepared.value.requestId != id || !disk.prepared.value.action.StagedExitKit? {
        return Error, outcome;
      }
      var next := disk.(prepared := None);
      outcome := PersistJournal(next);
      if !outcome.Done? {
        poisoned := true;
        return Error, outcome;
      }
      disk, preparedProducer := next, None;
      reply := Success(None);
    }

    /** Replay a committed prefix, or hand out the live producer when the anchor is the current head. */
    method ReplayToAnchor(anchor: Anchor) returns (r: Option<P>)
      ensures r == ProducerAtAnchor(e, Model(), anchor)
    {
      if poisoned || AnchorAt(e, disk, anchor.generation) != Some(anchor) {
        return None;
      }
      if anchor.generation == disk.generation {
        return Some(producer);
      }
      var p := e.genesis(disk.counts);
      var prefix := disk.entries[..anchor.generation];
      for i := 0 to |prefix|
        invariant Reproduced(e, disk.counts, prefix[..i]) == Some(p)
      {
        ghost var upTo := prefix[..i + 1];
        assert upTo[..|upTo| - 1] == prefix[..i];
        var applied := e.apply(p, prefix[i].action);
        if applied.None? || e.head(applied.value) != prefix[i].result {
          ReproducedFails(e, disk.counts, prefix, i + 1);
          return None;
        }
        p := applied.value;
      }
      assert prefix[..|prefix|] == prefix;
      return if e.clean(p) then Some(p) else None;
    }
  }

  lemma {:induction false} ReproducedFails<P>(e: Engine<P>, counts: seq<u32>, entries: seq<Entry>, n: nat)
    requires n <= |entries| && Reproduced(e, counts, entries[..n]).None?
    ensures Reproduced(e, counts, entries).None?
    decreases |entries|
  {
    if n == |entries| {
      assert entries[..n] == entries;
    } else {
      assert entries[..|entries| - 1][..n] == entries[..n];
      ReproducedFails(e, counts, entries[..|entries| - 1], n);
    }
  }
}
