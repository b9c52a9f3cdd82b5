/** Per-channel promise queues: registration order, waiting, and what runs may overlap. */
module ChannelLocks {
  import opened Wrappers

  const MAX_SAFE_INTEGER: int := 0x1F_FFFF_FFFF_FFFF

  // A channel argument after numeric conversion; NaN, fractions and infinities name no channel.
  datatype Number = Integer(value: int) | NotAnInteger

  predicate Safe(n: Number) { n.Integer? && -MAX_SAFE_INTEGER <= n.value <= MAX_SAFE_INTEGER }

  // The channels an operation locks.
  function Ids(channels: seq<Number>): set<int> { set n | n in channels && Safe(n) :: n.value }

  // ---------- promises ----------

  datatype Promise = Pending | Fulfilled | Rejected

  // A handler that swallows a rejection.
  function Catch(p: Promise): Promise { if p.Rejected? then Fulfilled else p }

  datatype Phase = Queued | Running | Finished(ok: bool)

  // An operation and the registrations whose tails it saw.
  datatype Op = Op(ids: set<int>, waits: set<nat>, phase: Phase)
  {
    // The promise handed to the caller: it settles as the operation does.
    function Next(): Promise {
      match phase
      case Finished(ok) => if ok then Fulfilled else Rejected
      case _ => Pending
    }

    // The promise left in the table for successors.
    function Tail(): Promise { Catch(Next()) }
  }

  // What the operation waits for at one predecessor.
  function Awaited(ops: seq<Op>, i: nat): Promise { if i < |ops| then Catch(ops[i].Tail()) else Pending }

  // All of the awaited promises: rejected by any rejection, fulfilled once every one is.
  function Ready(ops: seq<Op>, waits: set<nat>): Promise {
    if exists i :: i in waits && Awaited(ops, i).Rejected? then Rejected
    else if forall i :: i in waits ==> Awaited(ops, i).Fulfilled? then Fulfilled
    else Pending
  }

  // `table` maps a channel to the operation whose settling is its current tail.
  datatype Locks = Locks(table: map<int, nat>, ops: seq<Op>)

  const EMPTY := Locks(map[], [])

  // An operation whose readiness is rejected settles as a failure without its body ever running.
  datatype Event = Register(channels: seq<Number>) | Start(op: nat) | Skip(op: nat) | Finish(op: nat, ok: bool)

  predicate Enabled(s: Locks, e: Event) {
    match e
    case Register(channels) => Ids(channels) != {}
    case Start(i) => i < |s.ops| && s.ops[i].phase.Queued? && Ready(s.ops, s.ops[i].waits).Fulfilled?
    case Skip(i) => i < |s.ops| && s.ops[i].phase.Queued? && Ready(s.ops, s.ops[i].waits).Rejected?
    case Finish(i, _) => i < |s.ops| && s.ops[i].phase.Running?
  }

  predicate AllFinished(s: Locks, waits: set<nat>) {
    forall i :: i in waits ==> i < |s.ops| && s.ops[i].phase.Finished?
  }

  /**
    The awaited tails never reject, so readiness is never rejected and comes exactly when every predecessor settled.
  */
  lemma TailsAlwaysFulfil(s: Locks, waits: set<nat>)
    ensures Ready(s.ops, waits) != Rejected
    ensures Ready(s.ops, waits) == Fulfilled <==> AllFinished(s, waits)
  {
    if AllFinished(s, waits) {
      assert forall i :: i in waits ==> Awaited(s.ops, i) == Fulfilled;
    } else {
      var i :| i in waits && !(i < |s.ops| && s.ops[i].phase.Finished?);
      assert Awaited(s.ops, i) == Pending;
    }
  }

  function Registered(s: Locks, ids: set<int>): Locks {
    var waits := set c | c in ids && c in s.table :: s.table[c];
    Locks(s.table + map c | c in ids :: |s.ops|, s.ops + [Op(ids, waits, Queued)])
  }

  function Apply(s: Locks, e: Event): Locks
    requires Enabled(s, e)
  {
    match e
    case Register(channels) => Registered(s, Ids(channels))
    case Start(i) => s.(ops := s.ops[i := s.ops[i].(phase := Running)])
    case Skip(i) => s.(ops := s.ops[i := s.ops[i].(phase := Finished(false))])
    case Finish(i, ok) => s.(ops := s.ops[i := s.ops[i].(phase := Finished(ok))])
  }

  function Exec(events: seq<Event>): Option<Locks> {
    if events == [] then Some(EMPTY)
    else
      match Exec(events[..|events| - 1])
      case None => None
      case Some(s) => if Enabled(s, events[|events| - 1]) then Some(Apply(s, events[|events| - 1])) else None
  }

  // ---------- the invariant ----------

  // The last of the first n operations that locks a channel.
  function Latest(ops: seq<Op>, c: int, n: nat): Option<nat>
    requires n <= |ops|
  {
    if n == 0 then None else if c in ops[n - 1].ids then Some(n - 1) else Latest(ops, c, n - 1)
  }

  predicate TailAt(s: Locks, c: int) {
    Latest(s.ops, c, |s.ops|) == if c in s.table then Some(s.table[c]) else None
  }

  // It waits exactly on the latest earlier operation of each of its channels.
  ghost predicate WaitsOnLatest(ops: seq<Op>, j: nat)
    requires j < |ops|
  {
    forall i :: i in ops[j].waits <==> exists c :: c in ops[j].ids && Latest(ops, c, j) == Some(i)
  }

  predicate StartedFairly(s: Locks, j: nat)
    requires j < |s.ops|
  {
    !s.ops[j].phase.Queued? ==> AllFinished(s, s.ops[j].waits)
  }

  ghost predicate Sound(s: Locks) {
    && (forall c :: TailAt(s, c))
    && forall j :: 0 <= j < |s.ops| ==> WaitsOnLatest(s.ops, j) && StartedFairly(s, j)
  }

  lemma {:induction false} LatestIsEarlier(ops: seq<Op>, c: int, n: nat)
    requires n <= |ops|
    ensures
      match Latest(ops, c, n)
      case Some(k) => k < n && c in ops[k].ids && forall i :: k < i < n ==> c !in ops[i].ids
      case None => forall i :: 0 <= i < n ==> c !in ops[i].ids
  {
    if n > 0 && c !in ops[n - 1].ids {
      LatestIsEarlier(ops, c, n - 1);
    }
  }

  // Latest depends on the channels of the operations, not on their phases or successors.
  lemma {:induction false} LatestSame(a: seq<Op>, b: seq<Op>, c: int, n: nat)
    requires n <= |a| && n <= |b| && forall i :: 0 <= i < n ==> a[i].ids == b[i].ids
    ensures Latest(a, c, n) == Latest(b, c, n)
  {
    if n > 0 {
      LatestSame(a, b, c, n - 1);
    }
  }

  lemma RegisterSound(s: Locks, ids: set<int>)
    requires Sound(s)
    ensures Sound(Registered(s, ids))
  {
    var t, n := Registered(s, ids), |s.ops|;
    forall c ensures TailAt(t, c) {
      LatestSame(s.ops, t.ops, c, n);
      assert TailAt(s, c);
    }
    forall j | 0 <= j < |t.ops| ensures WaitsOnLatest(t.ops, j) && StartedFairly(t, j) {
      forall c ensures Latest(t.ops, c, j) == Latest(s.ops, c, j) {
        LatestSame(s.ops, t.ops, c, j);
      }
      if j < n {
        assert WaitsOnLatest(s.ops, j) && StartedFairly(s, j);
      } else {
        forall i ensures i in t.ops[j].waits <==> exists c :: c in ids && Latest(t.ops, c, j) == Some(i) {
          if i in t.ops[j].waits {
            var c :| c in ids && c in s.table && s.table[c] == i;
            assert TailAt(s, c) && Latest(t.ops, c, j) == Some(i);
          }
          if c :| c in ids && Latest(t.ops, c, j) == Some(i) {
            assert TailAt(s, c) && c in s.table && s.table[c] == i;
          }
        }
      }
    }
  }

  lemma PhaseSound(s: Locks, i: nat, phase: Phase)
    requires Sound(s) && i < |s.ops| && !phase.Queued? && !s.ops[i].phase.Finished?
    requires AllFinished(s, s.ops[i].waits)
    ensures Sound(s.(ops := s.ops[i := s.ops[i].(phase := phase)]))
  {
    var t := s.(ops := s.ops[i := s.ops[i].(phase := phase)]);
    forall c ensures TailAt(t, c) {
      LatestSame(s.ops, t.ops, c, |s.ops|);
      assert TailAt(s, c);
    }
    forall j | 0 <= j < |t.ops| ensures WaitsOnLatest(t.ops, j) && StartedFairly(t, j) {
      forall c ensures Latest(t.ops, c, j) == Latest(s.ops, c, j) {
        LatestSame(s.ops, t.ops, c, j);
      }
      assert WaitsOnLatest(s.ops, j) && StartedFairly(s, j);
    }
  }

  lemma {:induction false} RunsStaySound(events: seq<Event>, s: Locks)
    requires Exec(events) == Some(s)
    ensures Sound(s)
  {
    if events != [] {
      var was, e := Exec(events[..|events| - 1]).value, events[|events| - 1];
      RunsStaySound(events[..|events| - 1], was);
      match e
      case Register(channels) => RegisterSound(was, Ids(channels));
      case Start(i) =>
        TailsAlwaysFulfil(was, was.ops[i].waits);
        PhaseSound(was, i, Running);
      case Skip(i) => TailsAlwaysFulfil(was, was.ops[i].waits);
      case Finish(i, ok) =>
        assert StartedFairly(was, i);
        PhaseSound(was, i, Finished(ok));
    }
  }

  // ---------- laws ----------

  lemma {:induction false} EarlierFinishes(s: Locks, c: int, i: nat, j: nat)
    requires Sound(s) && i < j < |s.ops| && c in s.ops[i].ids && c in s.ops[j].ids && !s.ops[j].phase.Queued?
    ensures s.ops[i].phase.Finished?
    decreases j
  {
    LatestIsEarlier(s.ops, c, j);
    var k := Latest(s.ops, c, j).value;
    assert WaitsOnLatest(s.ops, j) && StartedFairly(s, j);
    assert k in s.ops[j].waits;
    if i < k {
      EarlierFinishes(s, c, i, k);
    }
  }

  /**
    Operations that share a channel never overlap and run in registration order: in every reachable state
    a later one has left the queue only if the earlier one has finished.
  */
  lemma SharedChannelsRunInOrder(events: seq<Event>, s: Locks, c: int, i: nat, j: nat)
    requires Exec(events) == Some(s) && i < j < |s.ops| && c in s.ops[i].ids && c in s.ops[j].ids
    ensures !s.ops[j].phase.Queued? ==> s.ops[i].phase.Finished?
    ensures !(s.ops[i].phase.Running? && s.ops[j].phase.Running?)
  {
    RunsStaySound(events, s);
    if !s.ops[j].phase.Queued? {
      EarlierFinishes(s, c, i, j);
    }
  }

  lemma WaitsAreEarlier(s: Locks, i: nat, j: nat)
    requires Sound(s) && j < |s.ops| && i in s.ops[j].waits
    ensures i < j
  {
    assert WaitsOnLatest(s.ops, j);
    var c :| c in s.ops[j].ids && Latest(s.ops, c, j) == Some(i);
    LatestIsEarlier(s.ops, c, j);
  }

  lemma {:induction false} FirstUnfinished(s: Locks, n: nat) returns (j: nat)
    requires n < |s.ops| && !s.ops[n].phase.Finished?
    ensures j <= n && !s.ops[j].phase.Finished? && forall i :: 0 <= i < j ==> s.ops[i].phase.Finished?
  {
    if i :| 0 <= i < n && !s.ops[i].phase.Finished? {
      j := FirstUnfinished(s, i);
    } else {
      j := n;
    }
  }

  /** No deadlock: waits point only at earlier registrations, so while anything is unfinished something can move. */
  lemma SomethingCanMove(events: seq<Event>, s: Locks, n: nat) returns (j: nat)
    requires Exec(events) == Some(s) && n < |s.ops| && !s.ops[n].phase.Finished?
    ensures j <= n && (Enabled(s, Start(j)) || (Enabled(s, Finish(j, true)) && Enabled(s, Finish(j, false))))
    ensures forall k, i {:trigger i in s.ops[k].waits} :: 0 <= k < |s.ops| && i in s.ops[k].waits ==> i < k
  {
    RunsStaySound(events, s);
    j := FirstUnfinished(s, n);
    forall k, i | 0 <= k < |s.ops| && i in s.ops[k].waits ensures i < k {
      WaitsAreEarlier(s, i, k);
    }
    TailsAlwaysFulfil(s, s.ops[j].waits);
  }

  /** No body is ever skipped: in no state does a predecessor's failure reject an operation before it runs. */
  lemma NothingIsSkipped(s: Locks, i: nat)
    ensures !Enabled(s, Skip(i))
  {
    if i < |s.ops| {
      TailsAlwaysFulfil(s, s.ops[i].waits);
    }
  }

  // Two events that differ at most in whether an operation succeeded.
  predicate SameButOutcome(a: Event, b: Event) {
    a == b || (a.Finish? && b.Finish? && a.op == b.op)
  }

  predicate SamePhase(a: Phase, b: Phase) { a == b || (a.Finished? && b.Finished?) }

  predicate SameProgress(s: Locks, t: Locks) {
    && s.table == t.table && |s.ops| == |t.ops|
    && forall i :: 0 <= i < |s.ops| ==>
         s.ops[i].ids == t.ops[i].ids && s.ops[i].waits == t.ops[i].waits && SamePhase(s.ops[i].phase, t.ops[i].phase)
  }

  lemma StepIgnoresOutcome(s: Locks, t: Locks, a: Event, b: Event)
    requires SameProgress(s, t) && SameButOutcome(a, b)
    ensures Enabled(s, a) == Enabled(t, b)
    ensures Enabled(s, a) ==> SameProgress(Apply(s, a), Apply(t, b))
  {
    if (a.Start? || a.Skip?) && a.op < |s.ops| {
      TailsAlwaysFulfil(s, s.ops[a.op].waits);
      TailsAlwaysFulfil(t, t.ops[a.op].waits);
      assert forall i :: 0 <= i < |s.ops| ==> s.ops[i].phase.Finished? == t.ops[i].phase.Finished?;
    }
  }

  /**
    A failing operation blocks nothing: turning any outcomes of a run into failures leaves the rest of the run
    possible.
  */
  lemma {:induction false} FailureBlocksNothing(a: seq<Event>, b: seq<Event>)
    requires |a| == |b| && forall i :: 0 <= i < |a| ==> SameButOutcome(a[i], b[i])
    ensures Exec(a).Some? == Exec(b).Some?
    ensures Exec(a).Some? ==> SameProgress(Exec(a).value, Exec(b).value)
  {
    if a != [] {
      var n := |a| - 1;
      FailureBlocksNothing(a[..n], b[..n]);
      if Exec(a[..n]).Some? {
        StepIgnoresOutcome(Exec(a[..n]).value, Exec(b[..n]).value, a[n], b[n]);
      }
    }
  }

  // ---------- the imperative form ----------

  predicate Increasing(s: seq<int>) { forall i, j :: 0 <= i < j < |s| ==> s[i] < s[j] }

  /** The safe channel numbers, each once, in ascending order. */
  method SortedIds(channels: seq<Number>) returns (ids: seq<int>)
    ensures Increasing(ids) && forall c :: c in ids <==> c in Ids(channels)
  {
    ids := [];
    for i := 0 to |channels|
      invariant Increasing(ids)
      invariant forall c :: c in ids <==> exists k :: 0 <= k < i && Safe(channels[k]) && channels[k].value == c
    {
      if Safe(channels[i]) && channels[i].value !in ids {
        ids := Insert(ids, channels[i].value);
      }
    }
    forall c ensures c in ids <==> c in Ids(channels) {
      if c in Ids(channels) {
        var n :| n in channels && Safe(n) && n.value == c;
        var k :| 0 <= k < |channels| && channels[k] == n;
      }
    }
  }

  function Insert(s: seq<int>, c: int): (r: seq<int>)
    requires Increasing(s) && c !in s
    ensures Increasing(r) && (forall x :: x in r <==> x in s || x == c)
  {
    if s == [] then [c]
    else if c < s[0] then [c] + s
    else
      var rest := Insert(s[1..], c);
      assert s == [s[0]] + s[1..];
      assert forall i :: 0 <= i < |rest| ==> rest[i] in rest;
      [s[0]] + rest
  }

  lemma RegisteredTable(s: Locks, ids: set<int>, table: map<int, nat>)
    requires forall c :: c in table <==> c in s.table || c in ids
    requires forall c :: c in table ==> table[c] == if c in ids then |s.ops| else s.table[c]
    ensures table == Registered(s, ids).table
  {
    var expected := Registered(s, ids).table;
    forall c: int ensures c in table <==> c in expected {
      assert c in table <==> c in s.table || c in ids;
    }
    forall c | c in table ensures table[c] == expected[c] {
      assert table[c] == if c in ids then |s.ops| else s.table[c];
    }
  }

  class ChannelLockTable {
    var table: map<int, nat>
    var ops: seq<Op>

    ghost function Model(): Locks
      reads this
    {
      Locks(table, ops)
    }

    constructor ()
      ensures Model() == EMPTY
    {
      table, ops := map[], [];
    }

    /** Read every tail, then install this operation as the tail of all its channels; no channel is a rejection. */
    method WithLocks(channels: seq<Number>) returns (op: Option<nat>)
      modifies this
      ensures Ids(channels) == {} ==> op == None && Model() == old(Model())
      ensures Ids(channels) != {} ==> op == Some(|old(ops)|) && Model() == Registered(old(Model()), Ids(channels))
    {
      var ids := SortedIds(channels);
      ghost var locked := Ids(channels);
      if ids == [] {
        assert forall c :: c !in locked;
        return None;
      }
      assert ids[0] in ids;
      var waits: set<nat> := {};
      for i := 0 to |ids|
        invariant forall k :: k in waits <==> exists c :: c in ids[..i] && c in table && table[c] == k
        invariant Model() == old(Model())
      {
        assert ids[..i + 1] == ids[..i] + [ids[i]];
        if ids[i] in table {
          waits := waits + {table[ids[i]]};
        }
      }
      assert ids[..|ids|] == ids;
      var self := |ops|;
      ops := ops + [Op((set c | c in ids), waits, Queued)];
      for i := 0 to |ids|
        invariant ops == old(ops) + [Op((set c | c in ids), waits, Queued)]
        invariant forall c :: c in table <==> c in old(table) || c in ids[..i]
        invariant forall c :: c in table ==> table[c] == if c in ids[..i] then self else old(table)[c]
      {
        assert ids[..i + 1] == ids[..i] + [ids[i]];
        table := table[ids[i] := self];
      }
      assert (set c | c in ids) == locked;
      assert waits == set c | c in locked && c in old(table) :: old(table)[c];
      assert ids[..|ids|] == ids;
      RegisteredTable(old(Model()), locked, table);
      return Some(self);
    }

    // The operation's predecessors have all settled; its body begins.
    method Begin(i: nat) returns (ok: bool)
      modifies this`ops
      ensures ok == Enabled(old(Model()), Start(i))
      ensures Model() == if ok then Apply(old(Model()), Start(i)) else old(Model())
    {
      ok := i < |ops| && ops[i].phase.Queued? && Ready(ops, ops[i].waits).Fulfilled?;
      if ok {
        ops := ops[i := ops[i].(phase := Running)];
      }
    }

    // The body settled, successfully or not.
    method Settle(i: nat, success: bool) returns (ok: bool)
      modifies this`ops
      ensures ok == Enabled(old(Model()), Finish(i, success))
      ensures Model() == if ok then Apply(old(Model()), Finish(i, success)) else old(Model())
    {
      ok := i < |ops| && ops[i].phase.Running?;
      if ok {
        ops := ops[i := ops[i].(phase := Finished(success))];
      }
    }
  }
}
