/** The producer service's durable, hash-chained journal: its replay, and what each request decides to write. */
module ProducerJournal {
  import opened Wrappers
  import opened MachineWords
  import opened ChannelTypes
  import opened CloseFunding
  import opened BlockProducer

  const JOURNAL_MAGIC := "INTMAX_KEYLESS_BLOCK_PRODUCER"
  const JOURNAL_VERSION: u32 := 1
  const MAX_REQUEST_ID_BYTES := 128

  // The part of a producer a journal entry records as its result; `rest` stands for the roots and channel heads.
  datatype Head = Head(blockNumber: u64, timestamp: u64, bpSigChain: Bytes32, rest: nat)

  // The content a request fingerprint is taken over; timestamps are not part of it.
  datatype Body =
    | RegisterBody(snapshot: Snapshot)
    | DepositBody(deposit: DepositRequest)
    | SyncBody(states: seq<ChannelState>)
    | PostBody(signed: ChannelState, debit: DebitPayload, descriptor: Descriptor)
    | CloseBody(signed: ChannelState, plan: Plan)
    | StagedBody(proposed: ChannelState, debit: DebitPayload, descriptor: Descriptor)
    | JoinBody(record: ChannelRecord, signed: ChannelState)
    | UpdateBody(rest: nat)

  function Stripped(s: ChannelState): ChannelState { s.(memberSignatures := []) }

  function StagedBodyOf(s: ChannelState, debit: DebitPayload, d: Descriptor): Body {
    StagedBody(Stripped(s), debit.(proposed := Stripped(debit.proposed)), d)
  }

  function AtTime(a: Action, t: u64): Action { a.(timestamp := t) }

  function BodyOf(a: Action): Body {
    match a
    case Register(s, _) => RegisterBody(s)
    case PostDeposit(d, _) => DepositBody(d)
    case SyncOffchainHeads(states, _) => SyncBody(states)
    case PostInterChannel(s, debit, d, _) => PostBody(s, debit, d)
    case PostCloseFunding(s, plan, _) => CloseBody(s, plan)
    case StagedExitKit(s, debit, d, _) => StagedBodyOf(s, debit, d)
    case AdoptDelegateJoin(r, s, _) => JoinBody(r, s)
    case PostMemberSetUpdate(rest, _) => UpdateBody(rest)
  }

  datatype Entry = Entry(
    generation: u64, requestId: string, fingerprint: Bytes32, prevHash: Bytes32, action: Action, result: Head,
    entryHash: Bytes32)
  {
    // What the entry hash covers.
    function Material(): Entry { this.(entryHash := 0) }
  }

  datatype Disk = Disk(
    magic: string, version: u32, counts: seq<u32>, generation: u64, tailHash: Bytes32, entries: seq<Entry>,
    prepared: Option<Entry>)

  // The producer as the journal sees it; the journal's guarantees hold for any of them.
  datatype Engine<!P> = Engine(
    genesis: seq<u32> -> P,
    apply: (P, Action) -> Option<P>,
    head: P -> Head,
    clean: P -> bool,
    lastTimestamp: P -> u64,
    bodyHash: Body -> Bytes32,
    entryHash: Entry -> Bytes32,
    genesisHash: seq<u32> -> Bytes32,
    commitment: Head -> Bytes32)

  datatype Receipt = Receipt(
    requestId: string, generation: u64, entryHash: Bytes32, blockNumber: u64, timestamp: u64, commitment: Bytes32,
    bpSigChain: Bytes32)

  datatype Anchor = Anchor(
    generation: u64, entryHash: Bytes32, blockNumber: u64, timestamp: u64, commitment: Bytes32, bpSigChain: Bytes32)

  function ReceiptOf<P>(e: Engine<P>, x: Entry): Receipt {
    Receipt(x.requestId, x.generation, x.entryHash, x.result.blockNumber, x.result.timestamp, e.commitment(x.result),
            x.result.bpSigChain)
  }

  function AnchorOf<P>(e: Engine<P>, x: Entry): Anchor {
    Anchor(x.generation, x.entryHash, x.result.blockNumber, x.result.timestamp, e.commitment(x.result),
           x.result.bpSigChain)
  }

  predicate CountsValid(counts: seq<u32>) {
    && counts != []
    && (forall i :: 0 <= i < |counts| ==> counts[i] > 0)
    && forall i :: 0 <= i < |counts| - 1 ==> counts[i] < counts[i + 1]
  }

  predicate RequestIdByte(ch: char) {
    'a' <= ch <= 'z' || 'A' <= ch <= 'Z' || '0' <= ch <= '9' || ch == '-' || ch == '_' || ch == '.' || ch == ':'
  }

  predicate ValidRequestId(id: string) {
    0 < |id| <= MAX_REQUEST_ID_BYTES && forall i :: 0 <= i < |id| ==> RequestIdByte(id[i])
  }

  // ---------- replay ----------

  function Find(entries: seq<Entry>, id: string): Option<Entry> {
    if entries == [] then None
    else
      var earlier := Find(entries[..|entries| - 1], id);
      if earlier.Some? then earlier
      else if entries[|entries| - 1].requestId == id then Some(entries[|entries| - 1]) else None
  }

  function TailHash<P>(e: Engine<P>, counts: seq<u32>, entries: seq<Entry>): Bytes32 {
    if entries == [] then e.genesisHash(counts) else entries[|entries| - 1].entryHash
  }

  function PriorTimestamp(entries: seq<Entry>): u64 {
    if entries == [] then 0 else entries[|entries| - 1].action.timestamp
  }

  // Links, identity, uniqueness, fingerprint, time and hash of an entry that follows `before`.
  predicate EntryFollows<P>(e: Engine<P>, counts: seq<u32>, before: seq<Entry>, x: Entry) {
    && x.generation == |before| + 1
    && x.prevHash == TailHash(e, counts, before)
    && ValidRequestId(x.requestId)
    && Find(before, x.requestId).None?
    && x.fingerprint == e.bodyHash(BodyOf(x.action))
    && x.action.timestamp > PriorTimestamp(before)
    && x.entryHash == e.entryHash(x.Material())
  }

  // Apply an entry's action and insist on the recorded head.
  function Reproduce<P>(e: Engine<P>, p: P, x: Entry): Option<P> {
    match e.apply(p, x.action)
    case None => None
    case Some(q) => if e.head(q) == x.result && e.clean(q) then Some(q) else None
  }

  function ReplayOne<P>(e: Engine<P>, counts: seq<u32>, before: seq<Entry>, p: P, x: Entry): Option<P> {
    if EntryFollows(e, counts, before, x) then Reproduce(e, p, x) else None
  }

  function Replay<P>(e: Engine<P>, counts: seq<u32>, entries: seq<Entry>): Option<P> {
    if entries == [] then Some(e.genesis(counts))
    else
      match Replay(e, counts, entries[..|entries| - 1])
      case None => None
      case Some(p) => ReplayOne(e, counts, entries[..|entries| - 1], p, entries[|entries| - 1])
  }

  predicate Authoritative(a: Action) { !a.PostMemberSetUpdate? && !a.StagedExitKit? }

  predicate Preparable(a: Action) { a.PostCloseFunding? || a.StagedExitKit? }

  predicate WellFramed(d: Disk) {
    && d.magic == JOURNAL_MAGIC && d.version == JOURNAL_VERSION && CountsValid(d.counts)
    && (forall i :: 0 <= i < |d.entries| ==> Authoritative(d.entries[i].action))
    && d.generation == |d.entries|
  }

  function ReplayPrepared<P>(e: Engine<P>, d: Disk, p: P): Option<Option<P>> {
    match d.prepared
    case None => Some(None)
    case Some(x) =>
      if d.generation + 1 >= U64_LIMIT || !Preparable(x.action) then None
      else
        match ReplayOne(e, d.counts, d.entries, p, x)
        case None => None
        case Some(q) => Some(Some(q))
  }

  /** Everything a restart checks, and the two producers it rebuilds. */
  function VerifyAndReplay<P>(e: Engine<P>, d: Disk): Option<(P, Option<P>)> {
    if !WellFramed(d) then None
    else
      match Replay(e, d.counts, d.entries)
      case None => None
      case Some(p) =>
        if d.tailHash != TailHash(e, d.counts, d.entries) then None
        else
          match ReplayPrepared(e, d, p)
          case None => None
          case Some(q) => Some((p, q))
  }

  // ---------- service state and requests ----------

  // `file` is what is durable; it differs from `disk` only after a failed write.
  datatype Service<!P> = Service(disk: Disk, producer: P, prepared: Option<P>, poisoned: bool, file: Disk)

  function EmptyDisk<P>(e: Engine<P>, counts: seq<u32>): Disk {
    Disk(JOURNAL_MAGIC, JOURNAL_VERSION, counts, 0, e.genesisHash(counts), [], None)
  }

  function Open<P>(e: Engine<P>, counts: seq<u32>, file: Disk): Option<Service<P>> {
    if !CountsValid(counts) || file.counts != counts then None
    else
      match VerifyAndReplay(e, file)
      case None => None
      case Some((p, q)) => Some(Service(file, p, q, false, file))
  }

  // What a request comes to: refused, answered from the record, or a new journal to persist.
  datatype Decision<!P> =
    | Refuse
    | Answer(receipt: Option<Receipt>)
    | Write(next: Disk, producer: P, prepared: Option<P>, receipt: Option<Receipt>)

  datatype Persisted = Done | FailedOld | FailedNew

  // A failed write leaves the old or the new file and poisons the process.
  function Settle<P>(s: Service<P>, d: Decision<P>, outcome: Persisted): Service<P> {
    match d
    case Write(next, p, q, _) =>
      (match outcome
       case Done => Service(next, p, q, false, next)
       case FailedOld => s.(poisoned := true)
       case FailedNew => s.(poisoned := true, file := next))
    case _ => s
  }

  datatype Reply = Error | Success(receipt: Option<Receipt>)

  function ReplyOf<P>(d: Decision<P>, outcome: Persisted): Reply {
    match d
    case Refuse => Error
    case Answer(r) => Success(r)
    case Write(_, _, _, r) => if outcome.Done? then Success(r) else Error
  }

  function NextTimestamp<P>(e: Engine<P>, s: Service<P>, wall: u64): Option<u64> {
    var own := e.lastTimestamp(s.producer);
    var last := if s.disk.entries == [] then own else PriorTimestamp(s.disk.entries);
    var prior := if last > own then last else own;
    if prior + 1 >= U64_LIMIT then None else if wall > prior + 1 then Some(wall) else Some(prior + 1)
  }

  function Candidate<P>(e: Engine<P>, s: Service<P>, id: string, a: Action): Option<(P, Entry)> {
    match e.apply(s.producer, a)
    case None => None
    case Some(q) =>
      if !e.clean(q) || s.disk.generation + 1 >= U64_LIMIT then None
      else
        var blank := Entry(s.disk.generation + 1, id, e.bodyHash(BodyOf(a)), s.disk.tailHash, a, e.head(q), 0);
        Some((q, blank.(entryHash := e.entryHash(blank))))
  }

  function Appended(d: Disk, x: Entry): Disk {
    d.(entries := d.entries + [x], generation := x.generation, tailHash := x.entryHash)
  }

  function AppendDecision<P>(e: Engine<P>, s: Service<P>, id: string, a: Action): Decision<P> {
    if s.disk.prepared.Some? then Refuse
    else
      match Candidate(e, s, id, a)
      case None => Refuse
      case Some((q, x)) => Write(Appended(s.disk, x), q, s.prepared, Some(ReceiptOf(e, x)))
  }

  function PrepareDecision<P>(e: Engine<P>, s: Service<P>, id: string, a: Action): Decision<P> {
    match Candidate(e, s, id, a)
    case None => Refuse
    case Some((q, x)) => Write(s.disk.(prepared := Some(x)), s.producer, Some(q), Some(ReceiptOf(e, x)))
  }

  // Promote a staged exit-kit block to its co-signed twin, which must reproduce the staged head.
  function PromoteStaged<P>(e: Engine<P>, s: Service<P>, id: string, a: Action, staged: Entry): Decision<P> {
    match Candidate(e, s, id, a)
    case None => Refuse
    case Some((q, x)) =>
      if x.result != staged.result then Refuse
      else Write(Appended(s.disk.(prepared := None), x), q, None, Some(ReceiptOf(e, x)))
  }

  function PromotePrepared<P>(e: Engine<P>, s: Service<P>, anchor: Anchor): Decision<P> {
    match s.disk.prepared
    case None => Refuse
    case Some(x) =>
      if AnchorOf(e, x) != anchor || !x.action.PostCloseFunding? || s.prepared.None? then Refuse
      else Write(Appended(s.disk.(prepared := None), x), s.prepared.value, None, Some(ReceiptOf(e, x)))
  }

  datatype Lookup = Unknown | Conflict | Known(entry: Entry)

  // A known request id answers with its receipt, or conflicts when it named other content.
  function Idempotent(entries: seq<Entry>, id: string, fingerprint: Bytes32): Lookup {
    match Find(entries, id)
    case None => Unknown
    case Some(x) => if x.fingerprint == fingerprint then Known(x) else Conflict
  }

  predicate CarriesState(states: seq<ChannelState>, digest: Bytes32) {
    exists k :: 0 <= k < |states| && states[k].digest == digest
  }

  // Already admitted by an earlier send, under this state or this transaction.
  predicate SentBefore(a: Action, digest: Bytes32, txHash: Bytes32) {
    a.PostInterChannel? && (a.signed.digest == digest || a.descriptor.txHash == txHash)
  }

  // Already admitted as a head, by a send or a synchronization.
  predicate SyncedBefore(a: Action, digest: Bytes32) {
    match a
    case PostInterChannel(s, _, _, _) => s.digest == digest
    case SyncOffchainHeads(states, _) => CarriesState(states, digest)
    case _ => false
  }

  predicate AdmittedBefore(a: Action, digest: Bytes32) {
    SyncedBefore(a, digest) || (a.PostCloseFunding? && a.signed.digest == digest)
  }

  datatype Request =
    | RegisterRequest(id: string, snapshot: Snapshot)
    | DepositRequested(id: string, deposit: DepositRequest)
    | SyncRequest(id: string, states: seq<ChannelState>)
    | JoinRequest(id: string, record: ChannelRecord, signed: ChannelState)
    | PostRequest(id: string, signed: ChannelState, debit: DebitPayload, descriptor: Descriptor)
    | PrepareClose(id: string, signed: ChannelState, plan: Plan)
    | CommitClose(id: string, signed: ChannelState, plan: Plan, anchor: Anchor)
    | CommitCloseAt(anchor: Anchor)
    | PrepareKit(id: string, proposed: ChannelState, debit: DebitPayload, descriptor: Descriptor)
    | AbandonKit(id: string)

  // Register, deposit, synchronize and join: frozen while an entry is prepared, before any idempotent answer.
  function SimpleDecision<P>(e: Engine<P>, s: Service<P>, id: string, body: Action, conflict: bool, wall: u64)
    : Decision<P> {
    if s.poisoned || s.disk.prepared.Some? || !ValidRequestId(id) then Refuse
    else
      match Idempotent(s.disk.entries, id, e.bodyHash(BodyOf(body)))
      case Conflict => Refuse
      case Known(x) => Answer(Some(ReceiptOf(e, x)))
      case Unknown =>
        if conflict then Refuse
        else
          match NextTimestamp(e, s, wall)
          case None => Refuse
          case Some(t) => AppendDecision(e, s, id, AtTime(body, t))
  }

  predicate SyncConflict(entries: seq<Entry>, states: seq<ChannelState>) {
    exists i, k :: 0 <= i < |entries| && 0 <= k < |states| && SyncedBefore(entries[i].action, states[k].digest)
  }

  function PostDecision<P>(e: Engine<P>, s: Service<P>, id: string, signed: ChannelState, debit: DebitPayload,
                           d: Descriptor, wall: u64): Decision<P> {
    if s.poisoned || !ValidRequestId(id) then Refuse
    else
      match Idempotent(s.disk.entries, id, e.bodyHash(PostBody(signed, debit, d)))
      case Conflict => Refuse
      case Known(x) => Answer(Some(ReceiptOf(e, x)))
      case Unknown =>
        match s.disk.prepared
        case Some(x) =>
          if x.action.StagedExitKit? && x.fingerprint == e.bodyHash(StagedBodyOf(signed, debit, d))
          then PromoteStaged(e, s, id, PostInterChannel(signed, debit, d, x.action.timestamp), x)
          else Refuse
        case None =>
          if exists i :: 0 <= i < |s.disk.entries| && SentBefore(s.disk.entries[i].action, signed.digest, d.txHash)
          then Refuse
          else
            match NextTimestamp(e, s, wall)
            case None => Refuse
            case Some(t) => AppendDecision(e, s, id, PostInterChannel(signed, debit, d, t))
  }

  predicate StateAdmitted(entries: seq<Entry>, digest: Bytes32) {
    exists i :: 0 <= i < |entries| && AdmittedBefore(entries[i].action, digest)
  }

  function PrepareCloseDecision<P>(e: Engine<P>, s: Service<P>, id: string, signed: ChannelState, plan: Plan, wall: u64)
    : Decision<P> {
    if s.poisoned || !ValidRequestId(id) then Refuse
    else
      match Idempotent(s.disk.entries, id, e.bodyHash(CloseBody(signed, plan)))
      case Conflict => Refuse
      case Known(x) => Answer(Some(ReceiptOf(e, x)))
      case Unknown =>
        match s.disk.prepared
        case Some(x) =>
          if x.requestId == id && x.fingerprint == e.bodyHash(CloseBody(signed, plan))
          then Answer(Some(ReceiptOf(e, x)))
          else Refuse
        case None =>
          if StateAdmitted(s.disk.entries, signed.digest) then Refuse
          else
            match NextTimestamp(e, s, wall)
            case None => Refuse
            case Some(t) => PrepareDecision(e, s, id, PostCloseFunding(signed, plan, t))
  }

  function CommitCloseDecision<P>(e: Engine<P>, s: Service<P>, id: string, signed: ChannelState, plan: Plan,
                                  anchor: Anchor)
    : Decision<P> {
    var fingerprint := e.bodyHash(CloseBody(signed, plan));
    if s.poisoned || !ValidRequestId(id) then Refuse
    else
      match Idempotent(s.disk.entries, id, fingerprint)
      case Conflict => Refuse
      case Known(x) => if AnchorOf(e, x) == anchor then Answer(Some(ReceiptOf(e, x))) else Refuse
      case Unknown =>
        match s.disk.prepared
        case None => Refuse
        case Some(x) =>
          if x.requestId != id || x.fingerprint != fingerprint then Refuse else PromotePrepared(e, s, anchor)
  }

  // The committed entry an anchor names exactly, if any.
  function CommittedAt<P>(e: Engine<P>, d: Disk, anchor: Anchor): Option<Entry> {
    if anchor.generation == 0 || anchor.generation > d.generation || anchor.generation > |d.entries| then None
    else
      var x := d.entries[anchor.generation - 1];
      if AnchorOf(e, x) == anchor then Some(x) else None
  }

  function CommitCloseAtDecision<P>(e: Engine<P>, s: Service<P>, anchor: Anchor): Decision<P> {
    if s.poisoned then Refuse
    else
      match CommittedAt(e, s.disk, anchor)
      case Some(x) => if x.action.PostCloseFunding? then Answer(Some(ReceiptOf(e, x))) else Refuse
      case None => PromotePrepared(e, s, anchor)
  }

  function PrepareKitDecision<P>(e: Engine<P>, s: Service<P>, id: string, proposed: ChannelState, debit: DebitPayload,
                                 d: Descriptor, wall: u64): Decision<P> {
    var fingerprint := e.bodyHash(StagedBodyOf(proposed, debit, d));
    if s.poisoned || !ValidRequestId(id) then Refuse
    else
      match s.disk.prepared
      case Some(x) =>
        if x.requestId == id && x.fingerprint == fingerprint then Answer(Some(ReceiptOf(e, x))) else Refuse
      case None =>
        if Find(s.disk.entries, id).Some? || StateAdmitted(s.disk.entries, proposed.digest) then Refuse
        else
          match NextTimestamp(e, s, wall)
          case None => Refuse
          case Some(t) => PrepareDecision(e, s, id, StagedExitKit(proposed, debit, d, t))
  }

  function AbandonDecision<P>(s: Service<P>, id: string): Decision<P> {
    if s.poisoned then Refuse
    else
      match s.disk.prepared
      case None => Answer(None)
      case Some(x) =>
        if x.requestId != id || !x.action.StagedExitKit? then Refuse
        else Write(s.disk.(prepared := None), s.producer, None, None)
  }

  function Decide<P>(e: Engine<P>, s: Service<P>, r: Request, wall: u64): Decision<P> {
    match r
    case RegisterRequest(id, snapshot) => SimpleDecision(e, s, id, Register(snapshot, 0), false, wall)
    case DepositRequested(id, deposit) => SimpleDecision(e, s, id, PostDeposit(deposit, 0), false, wall)
    case SyncRequest(id, states) =>
      if states == [] then Refuse
      else SimpleDecision(e, s, id, SyncOffchainHeads(states, 0), SyncConflict(s.disk.entries, states), wall)
    case JoinRequest(id, record, signed) => SimpleDecision(e, s, id, AdoptDelegateJoin(record, signed, 0), false, wall)
    case PostRequest(id, signed, debit, d) => PostDecision(e, s, id, signed, debit, d, wall)
    case PrepareClose(id, signed, plan) => PrepareCloseDecision(e, s, id, signed, plan, wall)
    case CommitClose(id, signed, plan, anchor) => CommitCloseDecision(e, s, id, signed, plan, anchor)
    case CommitCloseAt(anchor) => CommitCloseAtDecision(e, s, anchor)
    case PrepareKit(id, proposed, debit, d) => PrepareKitDecision(e, s, id, proposed, debit, d, wall)
    case AbandonKit(id) => AbandonDecision(s, id)
  }

  // ---------- runs ----------

  datatype Event = Requested(request: Request, wall: u64, outcome: Persisted) | Restart

  function Step<P>(e: Engine<P>, s: Service<P>, ev: Event): Option<Service<P>> {
    match ev
    case Requested(r, wall, outcome) => Some(Settle(s, Decide(e, s, r, wall), outcome))
    case Restart => Open(e, s.disk.counts, s.file)
  }

  // From an empty journal through requests, failed writes and restarts; None if a restart is refused.
  function Exec<P>(e: Engine<P>, counts: seq<u32>, events: seq<Event>): Option<Service<P>> {
    if events == [] then Open(e, counts, EmptyDisk(e, counts))
    else
      match Exec(e, counts, events[..|events| - 1])
      case None => None
      case Some(s) => Step(e, s, events[|events| - 1])
  }
}
