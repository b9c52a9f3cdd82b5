/**
  What each request of the producer service is answered and writes, read off the journal alone: known ids, new
  requests, staging and promotion.
*/
module ProducerRequests {
  import opened Wrappers
  import opened MachineWords
  import opened ChannelTypes
  import opened CloseFunding
  import opened BlockProducer
  import opened ProducerJournal
  import opened ProducerJournalSafety
  import opened JournalChain

  // ---------- fingerprints ----------

  /**
    A fingerprint is taken over the whole request but its block time: bodies differ when requests differ, except for
    the signatures of a staged proposal.
  */
  lemma BodiesAreRequests(a: Action, b: Action, t: u64)
    ensures BodyOf(AtTime(a, t)) == BodyOf(a)
    ensures BodyOf(a) == BodyOf(b) && !a.StagedExitKit? ==> AtTime(a, t) == AtTime(b, t)
    ensures BodyOf(a) == BodyOf(b) && a.StagedExitKit? ==>
              && b.StagedExitKit? && a.descriptor == b.descriptor
              && a.proposed == b.proposed.(memberSignatures := a.proposed.memberSignatures)
              && a.debit == b.debit.(proposed := a.debit.proposed)
              && a.debit.proposed == b.debit.proposed.(memberSignatures := a.debit.proposed.memberSignatures)
  {
  }

  // ---------- what a receipt and an anchor say ----------

  // The receipt of an entry: its id, place and hash, and the head it recorded.
  predicate ReceiptFor<P>(e: Engine<P>, x: Entry, r: Receipt) {
    && (r.requestId, r.generation, r.entryHash) == (x.requestId, x.generation, x.entryHash)
    && (r.blockNumber, r.timestamp, r.bpSigChain) == (x.result.blockNumber, x.result.timestamp, x.result.bpSigChain)
    && r.commitment == e.commitment(x.result)
  }

  // The anchor names exactly this entry and its head.
  predicate Anchors<P>(e: Engine<P>, x: Entry, a: Anchor) {
    && (a.generation, a.entryHash) == (x.generation, x.entryHash)
    && (a.blockNumber, a.timestamp, a.bpSigChain) == (x.result.blockNumber, x.result.timestamp, x.result.bpSigChain)
    && a.commitment == e.commitment(x.result)
  }

  predicate Answered<P>(e: Engine<P>, x: Entry, reply: Reply) {
    reply.Success? && reply.receipt.Some? && ReceiptFor(e, x, reply.receipt.value)
  }

  lemma AnchorsExactly<P>(e: Engine<P>, x: Entry, a: Anchor)
    ensures AnchorOf(e, x) == a <==> Anchors(e, x, a)
  {
  }

  // ---------- known requests ----------

  // Requests that name new content under a request id.
  predicate Submits(r: Request) { !r.CommitCloseAt? && !r.PrepareKit? && !r.AbandonKit? }

  function ContentOf(r: Request): Body
    requires Submits(r)
  {
    match r
    case RegisterRequest(_, snapshot) => RegisterBody(snapshot)
    case DepositRequested(_, deposit) => DepositBody(deposit)
    case SyncRequest(_, states) => SyncBody(states)
    case JoinRequest(_, record, signed) => JoinBody(record, signed)
    case PostRequest(_, signed, debit, d) => PostBody(signed, debit, d)
    case PrepareClose(_, signed, plan) => CloseBody(signed, plan)
    case CommitClose(_, signed, plan, _) => CloseBody(signed, plan)
  }

  // Requests that are refused while an entry is prepared, whatever they ask.
  predicate Frozen<P>(s: Service<P>, r: Request) {
    && s.disk.prepared.Some?
    && (r.RegisterRequest? || r.DepositRequested? || r.SyncRequest? || r.JoinRequest?)
  }

  lemma FindsTheEntry<P(!new)>(e: Engine<P>, s: Service<P>, i: nat)
    requires Sound(e, s) && i < |s.disk.entries|
    ensures Find(s.disk.entries, s.disk.entries[i].requestId) == Some(s.disk.entries[i])
    ensures ValidRequestId(s.disk.entries[i].requestId)
  {
    var entries := s.disk.entries;
    ReplayIsChain(e, s.disk.counts, entries, s.producer);
    var ps :| Chain(e, s.disk.counts, entries, ps) && ps[|entries|] == s.producer;
    FindExactly(entries, entries[i].requestId);
    var k :| 0 <= k < |entries| && Find(entries, entries[i].requestId) == Some(entries[k])
             && entries[k].requestId == entries[i].requestId;
    assert Linked(e, s.disk.counts, entries, i) && Linked(e, s.disk.counts, entries, k);
    IdExactly(entries[i].requestId);
  }

  /**
    A request id that a committed entry carries is answered from that entry and writes nothing: with its receipt when
    the content is the same by fingerprint (and, for a commit, the anchor is its own), and with an error otherwise.
  */
  lemma KnownRequestIsAnswered<P(!new)>(e: Engine<P>, s: Service<P>, r: Request, wall: u64, i: nat, outcome: Persisted)
    requires Sound(e, s) && !s.poisoned && Submits(r) && (r.SyncRequest? ==> r.states != [])
    requires i < |s.disk.entries| && s.disk.entries[i].requestId == r.id
    ensures
      var (d, x) := (Decide(e, s, r, wall), s.disk.entries[i]);
      && Settle(s, d, outcome) == s
      && (if Frozen(s, r) || x.fingerprint != e.bodyHash(ContentOf(r)) || (r.CommitClose? && !Anchors(e, x, r.anchor))
          then ReplyOf(d, outcome) == Error else Answered(e, x, ReplyOf(d, outcome)))
  {
    FindsTheEntry(e, s, i);
  }

  lemma EntriesAreNumbered<P(!new)>(e: Engine<P>, s: Service<P>, i: nat)
    requires Sound(e, s) && i < |s.disk.entries|
    ensures s.disk.entries[i].generation == i + 1 && s.disk.generation == |s.disk.entries|
  {
    ReplayIsChain(e, s.disk.counts, s.disk.entries, s.producer);
    var ps :| Chain(e, s.disk.counts, s.disk.entries, ps) && ps[|s.disk.entries|] == s.producer;
    assert Linked(e, s.disk.counts, s.disk.entries, i);
  }

  /** An id a committed entry carries cannot name an exit kit. */
  lemma KnownIdIsNoKit<P(!new)>(e: Engine<P>, s: Service<P>, r: Request, wall: u64, i: nat)
    requires Sound(e, s) && !s.poisoned && i < |s.disk.entries| && r.PrepareKit? && s.disk.entries[i].requestId == r.id
    ensures Decide(e, s, r, wall).Refuse?
  {
    FindsTheEntry(e, s, i);
    if s.disk.prepared.Some? {
      PreparedReplays(e, s);
    }
  }

  /** A commit at the anchor of a committed entry writes nothing, and answers it if it is a close funding. */
  lemma KnownAnchorIsAnswered<P(!new)>(e: Engine<P>, s: Service<P>, anchor: Anchor, wall: u64, i: nat,
                                       outcome: Persisted)
    requires Sound(e, s) && !s.poisoned && i < |s.disk.entries| && Anchors(e, s.disk.entries[i], anchor)
    ensures
      var (d, x) := (Decide(e, s, CommitCloseAt(anchor), wall), s.disk.entries[i]);
      && Settle(s, d, outcome) == s
      && if x.action.PostCloseFunding? then Answered(e, x, ReplyOf(d, outcome)) else ReplyOf(d, outcome) == Error
  {
    EntriesAreNumbered(e, s, i);
    assert CommittedAt(e, s.disk, anchor) == Some(s.disk.entries[i]);
  }

  // ---------- new requests ----------

  // An entry already admitted this state as a head, by a send or a synchronization.
  predicate HeadAdmitted(a: Action, digest: Bytes32) {
    || (a.PostInterChannel? && a.signed.digest == digest)
    || (a.SyncOffchainHeads? && exists k :: 0 <= k < |a.states| && a.states[k].digest == digest)
  }

  // Nothing committed stands in the way of the request's states and transactions.
  predicate Unseen(entries: seq<Entry>, r: Request) {
    match r
    case SyncRequest(_, states) =>
      && states != []
      && forall i, k :: 0 <= i < |entries| && 0 <= k < |states| ==> !HeadAdmitted(entries[i].action, states[k].digest)
    case PostRequest(_, signed, _, d) =>
      forall i :: 0 <= i < |entries| && entries[i].action.PostInterChannel? ==>
        entries[i].action.signed.digest != signed.digest && entries[i].action.descriptor.txHash != d.txHash
    case PrepareClose(_, signed, _) => NeverAdmitted(entries, signed.digest)
    case PrepareKit(_, proposed, _, _) => NeverAdmitted(entries, proposed.digest)
    case _ => true
  }

  predicate NeverAdmitted(entries: seq<Entry>, digest: Bytes32) {
    forall i :: 0 <= i < |entries| ==>
      && !HeadAdmitted(entries[i].action, digest)
      && !(entries[i].action.PostCloseFunding? && entries[i].action.signed.digest == digest)
  }

  // The request as a journal action at a block time.
  function ActionFor(r: Request, t: u64): Option<Action> {
    match r
    case RegisterRequest(_, snapshot) => Some(Register(snapshot, t))
    case DepositRequested(_, deposit) => Some(PostDeposit(deposit, t))
    case SyncRequest(_, states) => Some(SyncOffchainHeads(states, t))
    case JoinRequest(_, record, signed) => Some(AdoptDelegateJoin(record, signed, t))
    case PostRequest(_, signed, debit, d) => Some(PostInterChannel(signed, debit, d, t))
    case PrepareClose(_, signed, plan) => Some(PostCloseFunding(signed, plan, t))
    case PrepareKit(_, proposed, debit, d) => Some(StagedExitKit(proposed, debit, d, t))
    case _ => None
  }

  // The entry that records an action as the next of the journal.
  ghost predicate NextEntry<P(!new)>(e: Engine<P>, s: Service<P>, id: string, a: Action, q: P, x: Entry) {
    && x.generation == |s.disk.entries| + 1 && x.requestId == id && x.action == a && x.result == e.head(q)
    && x.prevHash == (if s.disk.entries == [] then e.genesisHash(s.disk.counts)
                      else s.disk.entries[|s.disk.entries| - 1].entryHash)
    && x.fingerprint == e.bodyHash(BodyOf(a)) && x.entryHash == e.entryHash(x.(entryHash := 0))
  }

  // The journal with one more entry and nothing prepared.
  ghost predicate Extended(d: Disk, x: Entry, next: Disk) {
    && next.entries == d.entries + [x] && next.prepared.None?
    && (next.magic, next.version, next.counts) == (d.magic, d.version, d.counts)
    && next.generation == x.generation && next.tailHash == x.entryHash
  }

  // The producer takes the action and the journal has a generation left for it.
  predicate Takes<P>(e: Engine<P>, s: Service<P>, a: Action) {
    e.apply(s.producer, a).Some? && e.clean(e.apply(s.producer, a).value) && |s.disk.entries| + 1 < U64_LIMIT
  }

  lemma CandidateExactly<P(!new)>(e: Engine<P>, s: Service<P>, id: string, a: Action)
    requires Sound(e, s)
    ensures Candidate(e, s, id, a).Some? <==> Takes(e, s, a)
    ensures Candidate(e, s, id, a).Some? ==>
              var (q, x) := Candidate(e, s, id, a).value;
              Some(q) == e.apply(s.producer, a) && NextEntry(e, s, id, a, q, x)
  {
    if Candidate(e, s, id, a).Some? {
      var (q, x) := Candidate(e, s, id, a).value;
      assert x.(entryHash := 0)
          == Entry(s.disk.generation + 1, id, e.bodyHash(BodyOf(a)), s.disk.tailHash, a, e.head(q), 0);
    }
  }

  lemma UnseenExactly(entries: seq<Entry>, r: Request)
    ensures r.SyncRequest? ==> (Unseen(entries, r) <==> r.states != [] && !SyncConflict(entries, r.states))
    ensures r.PostRequest? ==>
              (Unseen(entries, r) <==>
                 !exists i :: 0 <= i < |entries| && SentBefore(entries[i].action, r.signed.digest, r.descriptor.txHash))
    ensures r.PrepareClose? ==> (Unseen(entries, r) <==> !StateAdmitted(entries, r.signed.digest))
    ensures r.PrepareKit? ==> (Unseen(entries, r) <==> !StateAdmitted(entries, r.proposed.digest))
  {
    assert forall a: Action, digest :: SyncedBefore(a, digest) <==> HeadAdmitted(a, digest);
    if r.SyncRequest? && SyncConflict(entries, r.states) {
      var i, k :| 0 <= i < |entries| && 0 <= k < |r.states| && SyncedBefore(entries[i].action, r.states[k].digest);
      assert HeadAdmitted(entries[i].action, r.states[k].digest);
    }
  }

  /**
    With nothing prepared, a register, deposit, synchronization, join or send under a new id is written exactly when
    its id is usable, nothing committed stands in its way and the producer takes it at the earliest fitting time; it
    is then the next entry, the producer is the action's result, and the answer is its receipt.
  */
  lemma NewRequestIsAppended<P(!new)>(e: Engine<P>, s: Service<P>, r: Request, wall: u64)
    requires Sound(e, s) && !s.poisoned && s.disk.prepared.None?
    requires r.RegisterRequest? || r.DepositRequested? || r.SyncRequest? || r.JoinRequest? || r.PostRequest?
    requires forall i :: 0 <= i < |s.disk.entries| ==> s.disk.entries[i].requestId != r.id
    ensures
      var (d, t) := (Decide(e, s, r, wall), NextTimestamp(e, s, wall));
      && !d.Answer?
      && (d.Write? <==>
            UsableId(r.id) && Unseen(s.disk.entries, r) && t.Some? && Takes(e, s, ActionFor(r, t.value).value))
      && (d.Write? ==>
            && Some(d.producer) == e.apply(s.producer, ActionFor(r, t.value).value) && d.prepared.None?
            && |d.next.entries| == |s.disk.entries| + 1
            && var x := d.next.entries[|s.disk.entries|];
            && Extended(s.disk, x, d.next) && NextEntry(e, s, r.id, ActionFor(r, t.value).value, d.producer, x)
            && Answered(e, x, ReplyOf(d, Done)))
  {
    FindExactly(s.disk.entries, r.id);
    IdExactly(r.id);
    UnseenExactly(s.disk.entries, r);
    var t := NextTimestamp(e, s, wall);
    if t.Some? {
      CandidateExactly(e, s, r.id, ActionFor(r, t.value).value);
    }
  }

  /**
    With nothing prepared, a close funding or exit kit under a new id is staged exactly when its id is usable, its
    state was never admitted and the producer takes it; entries and producer stay, the staged entry is the next one.
  */
  lemma NewRequestIsStaged<P(!new)>(e: Engine<P>, s: Service<P>, r: Request, wall: u64)
    requires Sound(e, s) && !s.poisoned && s.disk.prepared.None? && (r.PrepareClose? || r.PrepareKit?)
    requires forall i :: 0 <= i < |s.disk.entries| ==> s.disk.entries[i].requestId != r.id
    ensures
      var (d, t) := (Decide(e, s, r, wall), NextTimestamp(e, s, wall));
      && !d.Answer?
      && (d.Write? <==>
            UsableId(r.id) && Unseen(s.disk.entries, r) && t.Some? && Takes(e, s, ActionFor(r, t.value).value))
      && (d.Write? ==>
            && d.producer == s.producer && d.prepared == e.apply(s.producer, ActionFor(r, t.value).value)
            && d.next.prepared.Some? && d.next == s.disk.(prepared := d.next.prepared)
            && NextEntry(e, s, r.id, ActionFor(r, t.value).value, d.prepared.value, d.next.prepared.value)
            && Answered(e, d.next.prepared.value, ReplyOf(d, Done)))
  {
    FindExactly(s.disk.entries, r.id);
    IdExactly(r.id);
    UnseenExactly(s.disk.entries, r);
    var t := NextTimestamp(e, s, wall);
    if t.Some? {
      CandidateExactly(e, s, r.id, ActionFor(r, t.value).value);
    }
  }

  // ---------- while an entry is prepared ----------

  /** Staging the prepared content again under its own id answers its receipt; any other staging is refused. */
  lemma StagingAgain<P(!new)>(e: Engine<P>, s: Service<P>, r: Request, wall: u64, outcome: Persisted)
    requires Sound(e, s) && !s.poisoned && s.disk.prepared.Some? && (r.PrepareClose? || r.PrepareKit?)
    requires forall i :: 0 <= i < |s.disk.entries| ==> s.disk.entries[i].requestId != r.id
    ensures
      var (d, x) := (Decide(e, s, r, wall), s.disk.prepared.value);
      var body := BodyOf(ActionFor(r, 0).value);
      && Settle(s, d, outcome) == s
      && if x.requestId == r.id && x.fingerprint == e.bodyHash(body) then Answered(e, x, ReplyOf(d, outcome))
         else ReplyOf(d, outcome) == Error
  {
    FindExactly(s.disk.entries, r.id);
    PreparedReplays(e, s);
  }

  /**
    A send under a new id while an entry is prepared is written exactly when that entry is a staged block with this
    send's content but for signatures and the producer reproduces its head from the signed send at the staged time;
    the send then becomes the next entry and nothing is prepared.
  */
  lemma SendPromotesItsKit<P(!new)>(e: Engine<P>, s: Service<P>, r: Request, wall: u64)
    requires Sound(e, s) && !s.poisoned && s.disk.prepared.Some? && r.PostRequest?
    requires forall i :: 0 <= i < |s.disk.entries| ==> s.disk.entries[i].requestId != r.id
    ensures
      var (d, x) := (Decide(e, s, r, wall), s.disk.prepared.value);
      var a := PostInterChannel(r.signed, r.debit, r.descriptor, x.action.timestamp);
      && !d.Answer?
      && (d.Write? <==>
            && UsableId(r.id) && x.action.StagedExitKit?
            && x.fingerprint == e.bodyHash(BodyOf(StagedExitKit(r.signed, r.debit, r.descriptor, 0)))
            && Takes(e, s, a) && e.head(e.apply(s.producer, a).value) == x.result)
      && (d.Write? ==>
            && Some(d.producer) == e.apply(s.producer, a) && d.prepared.None?
            && |d.next.entries| == |s.disk.entries| + 1
            && var y := d.next.entries[|s.disk.entries|];
            && Extended(s.disk, y, d.next) && NextEntry(e, s, r.id, a, d.producer, y)
            && Answered(e, y, ReplyOf(d, Done)))
  {
    FindExactly(s.disk.entries, r.id);
    IdExactly(r.id);
    CandidateExactly(e, s, r.id,
                     PostInterChannel(r.signed, r.debit, r.descriptor, s.disk.prepared.value.action.timestamp));
  }

  // The commit names the prepared close funding: by its id and content, or by its anchor alone.
  predicate Commits<P>(e: Engine<P>, x: Entry, r: Request) {
    && x.action.PostCloseFunding?
    && match r
       case CommitClose(id, signed, plan, anchor) =>
         x.requestId == id && x.fingerprint == e.bodyHash(CloseBody(signed, plan)) && Anchors(e, x, anchor)
       case CommitCloseAt(anchor) => Anchors(e, x, anchor)
       case _ => false
  }

  /**
    A commit that no committed entry answers is written exactly when it names the prepared close funding; that very
    entry then ends the journal and its producer takes over.
  */
  lemma CommitPromotesItsEntry<P(!new)>(e: Engine<P>, s: Service<P>, r: Request, wall: u64)
    requires Sound(e, s) && !s.poisoned && (r.CommitClose? || r.CommitCloseAt?)
    requires r.CommitClose? ==> forall i :: 0 <= i < |s.disk.entries| ==> s.disk.entries[i].requestId != r.id
    requires r.CommitCloseAt? ==> forall i :: 0 <= i < |s.disk.entries| ==> !Anchors(e, s.disk.entries[i], r.anchor)
    ensures
      var d := Decide(e, s, r, wall);
      && !d.Answer?
      && (d.Write? <==> s.disk.prepared.Some? && Commits(e, s.disk.prepared.value, r))
      && (d.Write? ==>
            && Extended(s.disk, s.disk.prepared.value, d.next)
            && Some(d.producer) == s.prepared && d.prepared.None?
            && Answered(e, s.disk.prepared.value, ReplyOf(d, Done)))
  {
    if r.CommitClose? {
      FindExactly(s.disk.entries, r.id);
    }
    if s.disk.prepared.Some? {
      PreparedReplays(e, s);
    }
  }

  /** Abandoning drops exactly a staged block of this id, answers when there is nothing prepared, and else refuses. */
  lemma AbandonDropsItsKit<P(!new)>(e: Engine<P>, s: Service<P>, id: string, wall: u64)
    requires !s.poisoned
    ensures
      var d := Decide(e, s, AbandonKit(id), wall);
      match s.disk.prepared
      case None => d == Answer(None)
      case Some(x) =>
        if x.requestId == id && x.action.StagedExitKit?
        then d == Write(s.disk.(prepared := None), s.producer, None, None) else d == Refuse
  {
  }

  /** While an entry is prepared the four plain requests are refused, and a poisoned service refuses everything. */
  lemma FrozenAndPoisonedRefuse<P(!new)>(e: Engine<P>, s: Service<P>, r: Request, wall: u64, outcome: Persisted)
    ensures s.poisoned || Frozen(s, r) ==>
              Settle(s, Decide(e, s, r, wall), outcome) == s && ReplyOf(Decide(e, s, r, wall), outcome) == Error
  {
  }

  // ---------- anchors ----------

  /** The anchor of a generation is the genesis head's for zero and its own entry's otherwise; there are no others. */
  lemma AnchorOfGeneration<P(!new)>(e: Engine<P>, s: Service<P>, a: Anchor)
    requires Sound(e, s)
    ensures
      var head := e.head(e.genesis(s.disk.counts));
      AnchorAt(e, s.disk, a.generation) == Some(a) <==>
        && a.generation <= |s.disk.entries|
        && if a.generation > 0 then Anchors(e, s.disk.entries[a.generation - 1], a)
           else && a.entryHash == e.genesisHash(s.disk.counts) && a.commitment == e.commitment(head)
                && (a.blockNumber, a.timestamp, a.bpSigChain) == (head.blockNumber, head.timestamp, head.bpSigChain)
  {
    if 0 < a.generation <= |s.disk.entries| {
      EntriesAreNumbered(e, s, a.generation - 1);
    }
  }
}
