/**
  What every run of the producer service keeps: restart equals the live state, history is append-only, staging is
  inert.
*/
module ProducerJournalSafety {
  import opened Wrappers
  import opened MachineWords
  import opened ChannelTypes
  import opened CloseFunding
  import opened BlockProducer
  import opened ProducerJournal

  // ---------- the invariant ----------

  // The memory image is exactly what its own journal replays to; a healthy process has that journal on disk.
  ghost predicate Sound<P(!new)>(e: Engine<P>, s: Service<P>) {
    && VerifyAndReplay(e, s.disk) == Some((s.producer, s.prepared))
    && VerifyAndReplay(e, s.file).Some?
    && s.file.counts == s.disk.counts
    && s.disk.entries <= s.file.entries
    && (!s.poisoned ==> s.file == s.disk)
  }

  // A successor journal of a sound service: it replays to the given producers and only appends.
  ghost predicate Succeeds<P(!new)>(e: Engine<P>, s: Service<P>, next: Disk, p: P, q: Option<P>) {
    && VerifyAndReplay(e, next) == Some((p, q))
    && next.counts == s.disk.counts
    && s.disk.entries <= next.entries
  }

  lemma AppendedReplays<P>(e: Engine<P>, d: Disk, p: P, x: Entry, q: P)
    requires WellFramed(d) && Replay(e, d.counts, d.entries) == Some(p)
    requires ReplayOne(e, d.counts, d.entries, p, x) == Some(q) && Authoritative(x.action)
    ensures VerifyAndReplay(e, Appended(d, x).(prepared := None)) == Some((q, None))
  {
    var all := d.entries + [x];
    assert all[..|all| - 1] == d.entries;
  }

  lemma FreshTimestamp<P>(e: Engine<P>, s: Service<P>, wall: u64)
    ensures
      var t := NextTimestamp(e, s, wall);
      t.Some? ==> t.value > PriorTimestamp(s.disk.entries) && t.value > e.lastTimestamp(s.producer) && t.value >= wall
  {
  }

  lemma {:induction false} LastIsLatest<P>(e: Engine<P>, counts: seq<u32>, entries: seq<Entry>, i: nat)
    requires Replay(e, counts, entries).Some? && i < |entries|
    ensures entries[i].action.timestamp <= PriorTimestamp(entries)
  {
    if i < |entries| - 1 {
      LastIsLatest(e, counts, entries[..|entries| - 1], i);
    }
  }

  // A block time the journal and the producer would both accept, not before the wall clock.
  ghost predicate TimeFits<P(!new)>(e: Engine<P>, s: Service<P>, wall: u64, t: nat) {
    && t >= wall && t > e.lastTimestamp(s.producer)
    && forall i :: 0 <= i < |s.disk.entries| ==> t > s.disk.entries[i].action.timestamp
  }

  /** The next timestamp is the earliest that follows every committed entry, and is refused only at the end of time. */
  lemma NextTimestampIsEarliest<P(!new)>(e: Engine<P>, s: Service<P>, wall: u64, other: nat)
    requires Sound(e, s)
    ensures
      var t := NextTimestamp(e, s, wall);
      && (t.Some? ==> TimeFits(e, s, wall, t.value) && (TimeFits(e, s, wall, other) ==> t.value <= other))
      && (t.None? ==> (TimeFits(e, s, wall, other) ==> other >= U64_LIMIT))
  {
    var entries := s.disk.entries;
    forall i | 0 <= i < |entries| ensures entries[i].action.timestamp <= PriorTimestamp(entries) {
      LastIsLatest(e, s.disk.counts, entries, i);
    }
  }

  // A candidate entry passes every check a restart will make of it.
  lemma CandidateReplays<P(!new)>(e: Engine<P>, s: Service<P>, id: string, a: Action)
    requires Sound(e, s) && Candidate(e, s, id, a).Some?
    requires ValidRequestId(id) && Find(s.disk.entries, id).None? && a.timestamp > PriorTimestamp(s.disk.entries)
    ensures
      var (q, x) := Candidate(e, s, id, a).value;
      && x.action == a && x.requestId == id && x.generation == s.disk.generation + 1 < U64_LIMIT
      && ReplayOne(e, s.disk.counts, s.disk.entries, s.producer, x) == Some(q)
  {
    var (q, x) := Candidate(e, s, id, a).value;
    assert x.Material() == x.(entryHash := 0);
  }

  lemma AppendSucceeds<P(!new)>(e: Engine<P>, s: Service<P>, id: string, a: Action)
    requires Sound(e, s) && Authoritative(a)
    requires ValidRequestId(id) && Find(s.disk.entries, id).None? && a.timestamp > PriorTimestamp(s.disk.entries)
    ensures
      var d := AppendDecision(e, s, id, a);
      d.Write? ==> Succeeds(e, s, d.next, d.producer, d.prepared)
  {
    var d := AppendDecision(e, s, id, a);
    if d.Write? {
      CandidateReplays(e, s, id, a);
      var (q, x) := Candidate(e, s, id, a).value;
      AppendedReplays(e, s.disk, s.producer, x, q);
      assert d.next == Appended(s.disk, x).(prepared := None);
    }
  }

  lemma PrepareSucceeds<P(!new)>(e: Engine<P>, s: Service<P>, id: string, a: Action)
    requires Sound(e, s) && Preparable(a)
    requires ValidRequestId(id) && Find(s.disk.entries, id).None? && a.timestamp > PriorTimestamp(s.disk.entries)
    ensures
      var d := PrepareDecision(e, s, id, a);
      d.Write? ==> Succeeds(e, s, d.next, d.producer, d.prepared)
  {
    if PrepareDecision(e, s, id, a).Write? {
      CandidateReplays(e, s, id, a);
    }
  }

  // What soundness says of a prepared entry: it replays on the committed producer.
  lemma PreparedReplays<P(!new)>(e: Engine<P>, s: Service<P>)
    requires Sound(e, s) && s.disk.prepared.Some?
    ensures
      var x := s.disk.prepared.value;
      && s.prepared.Some? && Preparable(x.action) && s.disk.generation + 1 < U64_LIMIT
      && ReplayOne(e, s.disk.counts, s.disk.entries, s.producer, x) == s.prepared
      && EntryFollows(e, s.disk.counts, s.disk.entries, x)
  {
  }

  lemma PromoteStagedSucceeds<P(!new)>(e: Engine<P>, s: Service<P>, id: string, a: Action)
    requires Sound(e, s) && s.disk.prepared.Some? && Authoritative(a)
    requires ValidRequestId(id) && Find(s.disk.entries, id).None?
    requires a.timestamp == s.disk.prepared.value.action.timestamp
    ensures
      var d := PromoteStaged(e, s, id, a, s.disk.prepared.value);
      d.Write? ==> Succeeds(e, s, d.next, d.producer, d.prepared)
  {
    PreparedReplays(e, s);
    var d := PromoteStaged(e, s, id, a, s.disk.prepared.value);
    if d.Write? {
      CandidateReplays(e, s, id, a);
      var (q, x) := Candidate(e, s, id, a).value;
      AppendedReplays(e, s.disk, s.producer, x, q);
      assert d.next == Appended(s.disk, x).(prepared := None);
    }
  }

  lemma PromotePreparedSucceeds<P(!new)>(e: Engine<P>, s: Service<P>, anchor: Anchor)
    requires Sound(e, s)
    ensures
      var d := PromotePrepared(e, s, anchor);
      d.Write? ==> Succeeds(e, s, d.next, d.producer, d.prepared)
  {
    var d := PromotePrepared(e, s, anchor);
    if d.Write? {
      PreparedReplays(e, s);
      var x := s.disk.prepared.value;
      AppendedReplays(e, s.disk, s.producer, x, s.prepared.value);
      assert d.next == Appended(s.disk, x).(prepared := None);
    }
  }

  lemma SimpleSucceeds<P(!new)>(e: Engine<P>, s: Service<P>, id: string, body: Action, conflict: bool, wall: u64)
    requires Sound(e, s) && Authoritative(body)
    ensures
      var d := SimpleDecision(e, s, id, body, conflict, wall);
      d.Write? ==> Succeeds(e, s, d.next, d.producer, d.prepared)
  {
    if SimpleDecision(e, s, id, body, conflict, wall).Write? {
      FreshTimestamp(e, s, wall);
      AppendSucceeds(e, s, id, AtTime(body, NextTimestamp(e, s, wall).value));
    }
  }

  lemma PostSucceeds<P(!new)>(e: Engine<P>, s: Service<P>, id: string, signed: ChannelState, debit: DebitPayload,
                              t: Descriptor, wall: u64)
    requires Sound(e, s)
    ensures
      var d := PostDecision(e, s, id, signed, debit, t, wall);
      d.Write? ==> Succeeds(e, s, d.next, d.producer, d.prepared)
  {
    if PostDecision(e, s, id, signed, debit, t, wall).Write? {
      if s.disk.prepared.Some? {
        PromoteStagedSucceeds(e, s, id, PostInterChannel(signed, debit, t, s.disk.prepared.value.action.timestamp));
      } else {
        FreshTimestamp(e, s, wall);
        AppendSucceeds(e, s, id, PostInterChannel(signed, debit, t, NextTimestamp(e, s, wall).value));
      }
    }
  }

  lemma PrepareCloseSucceeds<P(!new)>(e: Engine<P>, s: Service<P>, id: string, signed: ChannelState, plan: Plan,
                                      wall: u64)
    requires Sound(e, s)
    ensures
      var d := PrepareCloseDecision(e, s, id, signed, plan, wall);
      d.Write? ==> Succeeds(e, s, d.next, d.producer, d.prepared)
  {
    if PrepareCloseDecision(e, s, id, signed, plan, wall).Write? {
      FreshTimestamp(e, s, wall);
      PrepareSucceeds(e, s, id, PostCloseFunding(signed, plan, NextTimestamp(e, s, wall).value));
    }
  }

  lemma PrepareKitSucceeds<P(!new)>(e: Engine<P>, s: Service<P>, id: string, proposed: ChannelState,
                                    debit: DebitPayload, t: Descriptor, wall: u64)
    requires Sound(e, s)
    ensures
      var d := PrepareKitDecision(e, s, id, proposed, debit, t, wall);
      d.Write? ==> Succeeds(e, s, d.next, d.producer, d.prepared)
  {
    if PrepareKitDecision(e, s, id, proposed, debit, t, wall).Write? {
      FreshTimestamp(e, s, wall);
      PrepareSucceeds(e, s, id, StagedExitKit(proposed, debit, t, NextTimestamp(e, s, wall).value));
    }
  }

  lemma CommitCloseSucceeds<P(!new)>(e: Engine<P>, s: Service<P>, id: string, signed: ChannelState, plan: Plan,
                                     anchor: Anchor)
    requires Sound(e, s)
    ensures
      var d := CommitCloseDecision(e, s, id, signed, plan, anchor);
      d.Write? ==> Succeeds(e, s, d.next, d.producer, d.prepared)
    ensures
      var d := CommitCloseAtDecision(e, s, anchor);
      d.Write? ==> Succeeds(e, s, d.next, d.producer, d.prepared)
  {
    PromotePreparedSucceeds(e, s, anchor);
  }

  lemma AbandonSucceeds<P(!new)>(e: Engine<P>, s: Service<P>, id: string)
    requires Sound(e, s)
    ensures
      var d := AbandonDecision(s, id);
      d.Write? ==> Succeeds(e, s, d.next, d.producer, d.prepared)
  {
  }

  /** Whatever any request decides to write replays to exactly the producers it installs, and only appends. */
  lemma WritesReplay<P(!new)>(e: Engine<P>, s: Service<P>, r: Request, wall: u64)
    requires Sound(e, s)
    ensures
      var d := Decide(e, s, r, wall);
      d.Write? ==> Succeeds(e, s, d.next, d.producer, d.prepared)
  {
    match r
    case RegisterRequest(id, snapshot) => SimpleSucceeds(e, s, id, Register(snapshot, 0), false, wall);
    case DepositRequested(id, deposit) => SimpleSucceeds(e, s, id, PostDeposit(deposit, 0), false, wall);
    case SyncRequest(id, states) =>
      SimpleSucceeds(e, s, id, SyncOffchainHeads(states, 0), SyncConflict(s.disk.entries, states), wall);
    case JoinRequest(id, record, signed) => SimpleSucceeds(e, s, id, AdoptDelegateJoin(record, signed, 0), false, wall);
    case PostRequest(id, signed, debit, t) => PostSucceeds(e, s, id, signed, debit, t, wall);
    case PrepareClose(id, signed, plan) => PrepareCloseSucceeds(e, s, id, signed, plan, wall);
    case CommitClose(id, signed, plan, anchor) => CommitCloseSucceeds(e, s, id, signed, plan, anchor);
    case CommitCloseAt(anchor) => PromotePreparedSucceeds(e, s, anchor);
    case PrepareKit(id, proposed, debit, t) => PrepareKitSucceeds(e, s, id, proposed, debit, t, wall);
    case AbandonKit(id) => AbandonSucceeds(e, s, id);
  }

  lemma PoisonedRefuses<P>(e: Engine<P>, s: Service<P>, r: Request, wall: u64)
    requires s.poisoned
    ensures Decide(e, s, r, wall).Refuse?
  {
  }

  lemma StepSound<P(!new)>(e: Engine<P>, s: Service<P>, ev: Event)
    requires Sound(e, s) && CountsValid(s.disk.counts)
    ensures Step(e, s, ev).Some?
    ensures
      var t := Step(e, s, ev).value;
      Sound(e, t) && t.disk.counts == s.disk.counts && s.disk.entries <= t.disk.entries
  {
    match ev
    case Requested(r, wall, outcome) =>
      if s.poisoned {
        PoisonedRefuses(e, s, r, wall);
      } else {
        WritesReplay(e, s, r, wall);
      }
    case Restart =>
  }

  /**
    Restart equals the live state, over every run: whatever requests arrive, whichever writes fail and
    whichever file survives, a restart is never refused, and a healthy service's memory is exactly what
    its journal on disk replays to.
  */
  lemma {:induction false} RunsStaySound<P(!new)>(e: Engine<P>, counts: seq<u32>, events: seq<Event>)
    requires CountsValid(counts)
    ensures Exec(e, counts, events).Some?
    ensures
      var s := Exec(e, counts, events).value;
      && Sound(e, s) && s.disk.counts == counts
      && (!s.poisoned ==> VerifyAndReplay(e, s.file) == Some((s.producer, s.prepared)))
  {
    if events != [] {
      RunsStaySound(e, counts, events[..|events| - 1]);
      StepSound(e, Exec(e, counts, events[..|events| - 1]).value, events[|events| - 1]);
    }
  }

  /** A failed write is all or nothing: reopening gives the state before the request or the state after it. */
  lemma FailedWriteReopens<P(!new)>(e: Engine<P>, s: Service<P>, r: Request, wall: u64)
    requires Sound(e, s) && !s.poisoned && CountsValid(s.disk.counts)
    ensures
      var d := Decide(e, s, r, wall);
      d.Write? ==>
        && Open(e, s.disk.counts, Settle(s, d, FailedOld).file) == Some(s)
        && Open(e, s.disk.counts, Settle(s, d, FailedNew).file) == Some(Settle(s, d, Done))
        && Settle(s, d, FailedOld).poisoned && Settle(s, d, FailedNew).poisoned
  {
    WritesReplay(e, s, r, wall);
  }

  // ---------- history is append-only ----------

  lemma LastEventAppends<P(!new)>(e: Engine<P>, counts: seq<u32>, events: seq<Event>, t: Service<P>)
    returns (s: Service<P>)
    requires CountsValid(counts) && events != [] && Exec(e, counts, events) == Some(t)
    ensures Exec(e, counts, events[..|events| - 1]) == Some(s) && s.disk.entries <= t.disk.entries
  {
    RunsStaySound(e, counts, events[..|events| - 1]);
    s := Exec(e, counts, events[..|events| - 1]).value;
    StepSound(e, s, events[|events| - 1]);
  }

  lemma {:induction false} EntriesOnlyAppend<P(!new)>(e: Engine<P>, counts: seq<u32>, events: seq<Event>,
                                                      more: seq<Event>, s: Service<P>, t: Service<P>)
    requires CountsValid(counts) && Exec(e, counts, events) == Some(s) && Exec(e, counts, events + more) == Some(t)
    ensures s.disk.entries <= t.disk.entries
    decreases |more|
  {
    if more == [] {
      assert events + more == events;
    } else {
      var was := LastEventAppends(e, counts, events + more, t);
      assert (events + more)[..|events + more| - 1] == events + more[..|more| - 1];
      EntriesOnlyAppend(e, counts, events, more[..|more| - 1], s, was);
    }
  }

  lemma {:induction false} FindStays(entries: seq<Entry>, more: seq<Entry>, id: string)
    requires Find(entries, id).Some?
    ensures Find(entries + more, id) == Find(entries, id)
    decreases |more|
  {
    if more == [] {
      assert entries + more == entries;
    } else {
      var all := entries + more;
      assert all[..|all| - 1] == entries + more[..|more| - 1];
      FindStays(entries, more[..|more| - 1], id);
    }
  }

  // The anchor of a generation: the genesis anchor, then one per entry.
  function AnchorAt<P>(e: Engine<P>, d: Disk, generation: nat): Option<Anchor> {
    if generation > d.generation || generation > |d.entries| then None
    else if generation == 0 then
      var head := e.head(e.genesis(d.counts));
      Some(Anchor(0, e.genesisHash(d.counts), head.blockNumber, head.timestamp, e.commitment(head), head.bpSigChain))
    else
      var x := d.entries[generation - 1];
      Some(AnchorOf(e, x).(generation := generation))
  }

  // Growing a journal moves no receipt and no anchor.
  lemma GrowthKeeps<P>(e: Engine<P>, d: Disk, grown: Disk, id: string, generation: nat)
    requires WellFramed(d) && WellFramed(grown) && d.counts == grown.counts && d.entries <= grown.entries
    ensures Find(d.entries, id).Some? ==> Find(grown.entries, id) == Find(d.entries, id)
    ensures AnchorAt(e, d, generation).Some? ==> AnchorAt(e, grown, generation) == AnchorAt(e, d, generation)
  {
    var tail := grown.entries[|d.entries|..];
    assert grown.entries == d.entries + tail;
    if Find(d.entries, id).Some? {
      FindStays(d.entries, tail, id);
    }
  }

  /** A committed request's receipt and a generation's anchor are fixed forever, across restarts and failed writes. */
  lemma ReceiptsAndAnchorsAreFixed<P(!new)>(e: Engine<P>, counts: seq<u32>, events: seq<Event>, more: seq<Event>,
                                            s: Service<P>, t: Service<P>, id: string, generation: nat)
    requires CountsValid(counts) && Exec(e, counts, events) == Some(s) && Exec(e, counts, events + more) == Some(t)
    ensures Find(s.disk.entries, id).Some? ==> Find(t.disk.entries, id) == Find(s.disk.entries, id)
    ensures AnchorAt(e, s.disk, generation).Some? ==> AnchorAt(e, t.disk, generation) == AnchorAt(e, s.disk, generation)
  {
    EntriesOnlyAppend(e, counts, events, more, s, t);
    RunsStaySound(e, counts, events);
    RunsStaySound(e, counts, events + more);
    GrowthKeeps(e, s.disk, t.disk, id, generation);
  }

  // ---------- anchors and historical producers ----------

  function ProducerAtAnchor<P>(e: Engine<P>, s: Service<P>, anchor: Anchor): Option<P> {
    if s.poisoned || AnchorAt(e, s.disk, anchor.generation) != Some(anchor) then None
    else if anchor.generation == s.disk.generation then Some(s.producer)
    else
      match Reproduced(e, s.disk.counts, s.disk.entries[..anchor.generation])
      case None => None
      case Some(p) => if e.clean(p) then Some(p) else None
  }

  // Plain re-application of a prefix, checking recorded heads only.
  function Reproduced<P>(e: Engine<P>, counts: seq<u32>, entries: seq<Entry>): Option<P> {
    if entries == [] then Some(e.genesis(counts))
    else
      match Reproduced(e, counts, entries[..|entries| - 1])
      case None => None
      case Some(p) =>
        match e.apply(p, entries[|entries| - 1].action)
        case None => None
        case Some(q) => if e.head(q) == entries[|entries| - 1].result then Some(q) else None
  }

  lemma {:induction false} ReplayPrefix<P>(e: Engine<P>, counts: seq<u32>, entries: seq<Entry>, n: nat)
    requires n <= |entries| && Replay(e, counts, entries).Some?
    ensures Replay(e, counts, entries[..n]).Some?
    ensures Reproduced(e, counts, entries[..n]) == Replay(e, counts, entries[..n])
    ensures n > 0 ==> e.clean(Replay(e, counts, entries[..n]).value)
    decreases |entries|, n
  {
    if n < |entries| {
      ReplayPrefix(e, counts, entries[..|entries| - 1], n);
      assert entries[..|entries| - 1][..n] == entries[..n];
    } else {
      assert entries[..n] == entries;
      if n > 0 {
        ReplayPrefix(e, counts, entries, n - 1);
      }
    }
  }

  /**
    In a healthy reachable service every committed anchor yields a producer, the replay of exactly that
    journal prefix; the shortcut for the current head included.
  */
  lemma ProducerAtAnchorIsReplay<P(!new)>(e: Engine<P>, s: Service<P>, anchor: Anchor)
    requires Sound(e, s) && !s.poisoned && e.clean(e.genesis(s.disk.counts))
    ensures AnchorAt(e, s.disk, anchor.generation) == Some(anchor) ==>
              && anchor.generation <= |s.disk.entries|
              && Replay(e, s.disk.counts, s.disk.entries[..anchor.generation]).Some?
              && ProducerAtAnchor(e, s, anchor) == Replay(e, s.disk.counts, s.disk.entries[..anchor.generation])
    ensures AnchorAt(e, s.disk, anchor.generation) != Some(anchor) ==> ProducerAtAnchor(e, s, anchor).None?
  {
    if AnchorAt(e, s.disk, anchor.generation) == Some(anchor) {
      ReplayPrefix(e, s.disk.counts, s.disk.entries, anchor.generation);
      if anchor.generation == s.disk.generation {
        assert s.disk.entries[..anchor.generation] == s.disk.entries;
      }
    }
  }

  // ---------- staging ----------

  /** No staged block is ever authoritative: it is in no committed entry of any reachable journal. */
  lemma StagedNeverCommitted<P(!new)>(e: Engine<P>, counts: seq<u32>, events: seq<Event>, s: Service<P>, i: nat)
    requires CountsValid(counts) && Exec(e, counts, events) == Some(s) && i < |s.file.entries|
    ensures !s.file.entries[i].action.StagedExitKit?
  {
    RunsStaySound(e, counts, events);
  }

  // The promoted entry names the same block as the staged one.
  predicate SameBlock<P>(e: Engine<P>, staged: Entry, committed: Entry) {
    && committed.generation == staged.generation
    && committed.prevHash == staged.prevHash
    && committed.action.timestamp == staged.action.timestamp
    && committed.result == staged.result
    && AnchorOf(e, committed) == AnchorOf(e, staged).(entryHash := committed.entryHash)
  }

  // The prepared entry of `d` is gone in `n`: dropped if it was staged, or committed as the same block.
  ghost predicate Released<P(!new)>(e: Engine<P>, d: Disk, n: Disk)
    requires d.prepared.Some?
  {
    var x := d.prepared.value;
    && n.prepared.None?
    && (|| (n.entries == d.entries && x.action.StagedExitKit?)
        || (&& |n.entries| == |d.entries| + 1 && n.entries[..|d.entries|] == d.entries
            && SameBlock(e, x, n.entries[|d.entries|])
            && (if x.action.StagedExitKit? then n.entries[|d.entries|].action.PostInterChannel?
                else n.entries[|d.entries|] == x)))
  }

  lemma PostWhileStaged<P(!new)>(e: Engine<P>, s: Service<P>, id: string, signed: ChannelState, debit: DebitPayload,
                                 t: Descriptor, wall: u64)
    requires Sound(e, s) && s.disk.prepared.Some?
    ensures
      var d := PostDecision(e, s, id, signed, debit, t, wall);
      d.Write? ==> Released(e, s.disk, d.next)
  {
    PreparedReplays(e, s);
    var d := PostDecision(e, s, id, signed, debit, t, wall);
    if d.Write? {
      var a := PostInterChannel(signed, debit, t, s.disk.prepared.value.action.timestamp);
      CandidateReplays(e, s, id, a);
      var (q, x) := Candidate(e, s, id, a).value;
      assert d.next.entries == s.disk.entries + [x];
    }
  }

  lemma PromoteWhilePrepared<P(!new)>(e: Engine<P>, s: Service<P>, anchor: Anchor)
    requires Sound(e, s) && s.disk.prepared.Some?
    ensures
      var d := PromotePrepared(e, s, anchor);
      d.Write? ==> Released(e, s.disk, d.next)
  {
    var d := PromotePrepared(e, s, anchor);
    if d.Write? {
      assert d.next.entries == s.disk.entries + [s.disk.prepared.value];
    }
  }

  // While an entry is prepared, the only thing any request can write is its release.
  lemma WritesRelease<P(!new)>(e: Engine<P>, s: Service<P>, r: Request, wall: u64)
    requires Sound(e, s) && s.disk.prepared.Some?
    ensures
      var d := Decide(e, s, r, wall);
      d.Write? ==> Released(e, s.disk, d.next)
  {
    match r
    case PostRequest(id, signed, debit, t) => PostWhileStaged(e, s, id, signed, debit, t, wall);
    case CommitClose(id, signed, plan, anchor) => PromoteWhilePrepared(e, s, anchor);
    case CommitCloseAt(anchor) => PromoteWhilePrepared(e, s, anchor);
    case _ =>
  }

  lemma FrozenStep<P(!new)>(e: Engine<P>, s: Service<P>, ev: Event)
    requires Sound(e, s) && CountsValid(s.disk.counts) && s.file.prepared.Some?
    ensures Step(e, s, ev).Some?
    ensures var file := Step(e, s, ev).value.file; file == s.file || Released(e, s.file, file)
  {
    if ev.Requested? {
      if s.poisoned {
        PoisonedRefuses(e, s, ev.request, ev.wall);
      } else {
        WritesRelease(e, s, ev.request, ev.wall);
      }
    }
  }

  // After these events the journal file is this one, and a healthy process holds exactly its producers.
  ghost predicate HeldAt<P(!new)>(e: Engine<P>, counts: seq<u32>, events: seq<Event>, file: Disk) {
    && Exec(e, counts, events).Some?
    && var u := Exec(e, counts, events).value;
    && u.file == file && (!u.poisoned ==> VerifyAndReplay(e, file) == Some((u.producer, u.prepared)))
  }

  lemma HeldWhenSame<P(!new)>(e: Engine<P>, counts: seq<u32>, events: seq<Event>, file: Disk)
    requires CountsValid(counts) && Exec(e, counts, events).Some? && Exec(e, counts, events).value.file == file
    ensures HeldAt(e, counts, events, file)
  {
    RunsStaySound(e, counts, events);
  }

  ghost predicate ReleasedAt<P(!new)>(e: Engine<P>, counts: seq<u32>, events: seq<Event>, file: Disk)
    requires file.prepared.Some?
  {
    Exec(e, counts, events).Some? && Released(e, file, Exec(e, counts, events).value.file)
  }

  lemma NextHeldOrReleased<P(!new)>(e: Engine<P>, counts: seq<u32>, events: seq<Event>, ev: Event, file: Disk)
    requires CountsValid(counts) && HeldAt(e, counts, events, file) && file.prepared.Some?
    ensures HeldAt(e, counts, events + [ev], file) || ReleasedAt(e, counts, events + [ev], file)
  {
    var all := events + [ev];
    assert all[..|all| - 1] == events;
    RunsStaySound(e, counts, events);
    FrozenStep(e, Exec(e, counts, events).value, ev);
    if Exec(e, counts, all).value.file == file {
      HeldWhenSame(e, counts, all, file);
    }
  }

  lemma HeldOrReleasedAfter<P(!new)>(e: Engine<P>, counts: seq<u32>, events: seq<Event>, more: seq<Event>, file: Disk,
                                     k: nat)
    requires CountsValid(counts) && file.prepared.Some? && k < |more|
    requires HeldAt(e, counts, events + more[..k], file)
    ensures HeldAt(e, counts, events + more[..k + 1], file) || ReleasedAt(e, counts, events + more[..k + 1], file)
  {
    assert (events + more[..k]) + [more[k]] == events + more[..k + 1];
    NextHeldOrReleased(e, counts, events + more[..k], more[k], file);
  }

  lemma HeldSteps<P(!new)>(e: Engine<P>, counts: seq<u32>, events: seq<Event>, more: seq<Event>, file: Disk,
                           held: seq<bool>, released: seq<bool>)
    requires CountsValid(counts) && file.prepared.Some? && |held| == |released| == |more| + 1
    requires forall i :: 0 <= i <= |more| ==> held[i] == HeldAt(e, counts, events + more[..i], file)
    requires forall i :: 0 <= i <= |more| ==> released[i] == ReleasedAt(e, counts, events + more[..i], file)
    ensures forall i :: 0 <= i < |more| && held[i] ==> held[i + 1] || released[i + 1]
  {
    forall i | 0 <= i < |more| && held[i] ensures held[i + 1] || released[i + 1] {
      HeldOrReleasedAfter(e, counts, events, more, file, i);
    }
  }

  // What holds at first and holds on or is released at every step holds until one release.
  lemma {:induction false} HoldsUntilReleased(held: seq<bool>, released: seq<bool>, from: nat) returns (k: nat)
    requires |held| == |released| && from < |held| && held[from]
    requires forall i :: 0 <= i < |held| - 1 && held[i] ==> held[i + 1] || released[i + 1]
    ensures from <= k < |held| && forall i :: from <= i <= k ==> held[i]
    ensures k < |held| - 1 ==> released[k + 1]
    decreases |held| - from
  {
    k := from;
    if from < |held| - 1 && held[from + 1] {
      k := HoldsUntilReleased(held, released, from + 1);
    }
  }

  /**
    A prepared entry freezes the service over every run, through failed writes and restarts: the journal file,
    and with it entries and producers, stays exactly as it was until one event releases the entry, which drops
    a staged block or commits the same block: its generation, timestamps and whole recorded head.
  */
  lemma PreparedFreezes<P(!new)>(e: Engine<P>, counts: seq<u32>, events: seq<Event>, more: seq<Event>, file: Disk)
    returns (k: nat)
    requires CountsValid(counts) && HeldAt(e, counts, events, file) && file.prepared.Some?
    ensures k <= |more| && forall i :: 0 <= i <= k ==> HeldAt(e, counts, events + more[..i], file)
    ensures k < |more| ==> ReleasedAt(e, counts, events + more[..k + 1], file)
  {
    var held := seq(|more| + 1, i requires 0 <= i <= |more| => HeldAt(e, counts, events + more[..i], file));
    var released := seq(|more| + 1, i requires 0 <= i <= |more| => ReleasedAt(e, counts, events + more[..i], file));
    HeldSteps(e, counts, events, more, file, held, released);
    assert events + more[..0] == events;
    k := HoldsUntilReleased(held, released, 0);
  }

  /**
    A promoted exit-kit entry differs from the staged one in what its hash covers, so it keeps the staged hash
    only as a hash collision of those two entries.
  */
  lemma PromotedHashDiffers<P(!new)>(e: Engine<P>, s: Service<P>, id: string, signed: ChannelState, debit: DebitPayload,
                                     t: Descriptor, wall: u64)
    requires Sound(e, s) && s.disk.prepared.Some?
    ensures
      var d := PostDecision(e, s, id, signed, debit, t, wall);
      d.Write? ==>
        && |d.next.entries| == |s.disk.entries| + 1
        && var (staged, promoted) := (s.disk.prepared.value, d.next.entries[|s.disk.entries|]);
        && promoted.Material() != staged.Material()
        && (promoted.entryHash != staged.entryHash
             || e.entryHash(promoted.Material()) == e.entryHash(staged.Material()))
  {
    PreparedReplays(e, s);
    var staged := s.disk.prepared.value;
    var d := PostDecision(e, s, id, signed, debit, t, wall);
    if d.Write? {
      var a := PostInterChannel(signed, debit, t, staged.action.timestamp);
      var (q, x) := Candidate(e, s, id, a).value;
      assert x.entryHash == e.entryHash(x.Material()) && staged.entryHash == e.entryHash(staged.Material());
      assert x.Material().action != staged.Material().action;
    }
  }
}
