/**
  Exactly which journal files a restart accepts, entry by entry and without replaying: an unbroken chain of hashes,
  generations and times under unique ids, and one producer after another behind it.
*/
module JournalChain {
  import opened Wrappers
  import opened MachineWords
  import opened ChannelTypes
  import opened CloseFunding
  import opened BlockProducer
  import opened ProducerJournal
  import opened ProducerJournalSafety

  // One to 128 letters, digits, dashes, underscores, dots or colons.
  predicate UsableId(id: string) {
    && 1 <= |id| <= 128
    && forall i :: 0 <= i < |id| ==>
         'a' <= id[i] <= 'z' || 'A' <= id[i] <= 'Z' || '0' <= id[i] <= '9' || id[i] in "-_.:"
  }

  // Entry i stands in the chain: numbered, linked to its predecessor, later than it, its id new, its hashes its own.
  ghost predicate Linked<P(!new)>(e: Engine<P>, counts: seq<u32>, entries: seq<Entry>, i: nat)
    requires i < |entries|
  {
    var x := entries[i];
    && x.generation == i + 1
    && x.prevHash == (if i == 0 then e.genesisHash(counts) else entries[i - 1].entryHash)
    && x.action.timestamp > (if i == 0 then 0 else entries[i - 1].action.timestamp)
    && UsableId(x.requestId) && (forall j :: 0 <= j < i ==> entries[j].requestId != x.requestId)
    && x.fingerprint == e.bodyHash(BodyOf(x.action)) && x.entryHash == e.entryHash(x.(entryHash := 0))
  }

  // Producer i + 1 is what the action of entry i makes of producer i, with the recorded head and no signing key.
  ghost predicate Produced<P(!new)>(e: Engine<P>, entries: seq<Entry>, ps: seq<P>, i: nat)
    requires i < |entries| && |ps| == |entries| + 1
  {
    && e.apply(ps[i], entries[i].action) == Some(ps[i + 1])
    && e.head(ps[i + 1]) == entries[i].result && e.clean(ps[i + 1])
  }

  ghost predicate Chain<P(!new)>(e: Engine<P>, counts: seq<u32>, entries: seq<Entry>, ps: seq<P>) {
    && |ps| == |entries| + 1 && ps[0] == e.genesis(counts)
    && forall i :: 0 <= i < |entries| ==> Linked(e, counts, entries, i) && Produced(e, entries, ps, i)
  }

  // ---------- lookups ----------

  lemma {:induction false} FindExactly(entries: seq<Entry>, id: string)
    ensures Find(entries, id).None? <==> forall i :: 0 <= i < |entries| ==> entries[i].requestId != id
    ensures Find(entries, id).Some? ==>
              exists i :: 0 <= i < |entries| && Find(entries, id) == Some(entries[i]) && entries[i].requestId == id
                          && forall j :: 0 <= j < i ==> entries[j].requestId != id
  {
    if entries != [] {
      var before := entries[..|entries| - 1];
      FindExactly(before, id);
      if Find(before, id).Some? {
        var i :| 0 <= i < |before| && Find(before, id) == Some(before[i]) && before[i].requestId == id
                 && forall j :: 0 <= j < i ==> before[j].requestId != id;
        assert entries[i] == before[i];
      } else {
        assert forall i :: 0 <= i < |before| ==> entries[i] == before[i];
      }
    }
  }

  lemma IdExactly(id: string)
    ensures ValidRequestId(id) <==> UsableId(id)
  {
  }

  // ---------- replay ----------

  lemma LinkedExactly<P(!new)>(e: Engine<P>, counts: seq<u32>, entries: seq<Entry>)
    requires entries != []
    ensures EntryFollows(e, counts, entries[..|entries| - 1], entries[|entries| - 1])
            <==> Linked(e, counts, entries, |entries| - 1)
  {
    var before, x := entries[..|entries| - 1], entries[|entries| - 1];
    FindExactly(before, x.requestId);
    IdExactly(x.requestId);
    assert forall j :: 0 <= j < |before| ==> entries[j] == before[j];
    assert x.Material() == x.(entryHash := 0);
  }

  lemma PrefixAgrees<P(!new)>(e: Engine<P>, counts: seq<u32>, entries: seq<Entry>, ps: seq<P>, n: nat, i: nat)
    requires i < n <= |entries| && |ps| == |entries| + 1
    ensures Linked(e, counts, entries[..n], i) == Linked(e, counts, entries, i)
    ensures Produced(e, entries[..n], ps[..n + 1], i) == Produced(e, entries, ps, i)
  {
    assert entries[..n][i] == entries[i] && (i > 0 ==> entries[..n][i - 1] == entries[i - 1]);
    assert forall j :: 0 <= j < i ==> entries[..n][j] == entries[j];
    assert ps[..n + 1][i] == ps[i] && ps[..n + 1][i + 1] == ps[i + 1];
  }

  lemma ChainShrinks<P(!new)>(e: Engine<P>, counts: seq<u32>, entries: seq<Entry>, ps: seq<P>)
    requires entries != [] && Chain(e, counts, entries, ps)
    ensures Chain(e, counts, entries[..|entries| - 1], ps[..|entries|])
    ensures Linked(e, counts, entries, |entries| - 1) && Produced(e, entries, ps, |entries| - 1)
  {
    var n := |entries| - 1;
    forall i | 0 <= i < n ensures Linked(e, counts, entries[..n], i) && Produced(e, entries[..n], ps[..n + 1], i) {
      PrefixAgrees(e, counts, entries, ps, n, i);
    }
  }

  lemma ChainGrows<P(!new)>(e: Engine<P>, counts: seq<u32>, entries: seq<Entry>, ps: seq<P>)
    requires entries != [] && |ps| == |entries| + 1 && Chain(e, counts, entries[..|entries| - 1], ps[..|entries|])
    requires Linked(e, counts, entries, |entries| - 1) && Produced(e, entries, ps, |entries| - 1)
    ensures Chain(e, counts, entries, ps)
  {
    var n := |entries| - 1;
    assert ps[..n + 1][0] == ps[0];
    forall i | 0 <= i < n ensures Linked(e, counts, entries, i) && Produced(e, entries, ps, i) {
      PrefixAgrees(e, counts, entries, ps, n, i);
    }
  }

  /** Replay succeeds exactly on a chain, and ends in its last producer. */
  lemma {:induction false} ReplayIsChain<P(!new)>(e: Engine<P>, counts: seq<u32>, entries: seq<Entry>, p: P)
    ensures Replay(e, counts, entries) == Some(p) <==>
              exists ps :: Chain(e, counts, entries, ps) && ps[|entries|] == p
  {
    if entries == [] {
      assert Replay(e, counts, entries) == Some(p) ==> Chain(e, counts, entries, [p]);
    } else {
      var n := |entries| - 1;
      LinkedExactly(e, counts, entries);
      if Replay(e, counts, entries) == Some(p) {
        var q := Replay(e, counts, entries[..n]).value;
        ReplayIsChain(e, counts, entries[..n], q);
        var qs :| Chain(e, counts, entries[..n], qs) && qs[n] == q;
        var ps := qs + [p];
        assert ps[..n + 1] == qs;
        ChainGrows(e, counts, entries, ps);
      }
      if ps :| Chain(e, counts, entries, ps) && ps[|entries|] == p {
        ChainShrinks(e, counts, entries, ps);
        ReplayIsChain(e, counts, entries[..n], ps[n]);
      }
    }
  }

  // The file is a journal of this program: arities positive and ascending, committed actions only, counted and sealed.
  predicate Framed<P>(e: Engine<P>, d: Disk) {
    && d.magic == "INTMAX_KEYLESS_BLOCK_PRODUCER" && d.version == 1 && d.generation == |d.entries|
    && |d.counts| > 0 && (forall i :: 0 <= i < |d.counts| ==> d.counts[i] > 0)
    && (forall i :: 0 < i < |d.counts| ==> d.counts[i - 1] < d.counts[i])
    && (forall i :: 0 <= i < |d.entries| ==>
          !d.entries[i].action.StagedExitKit? && !d.entries[i].action.PostMemberSetUpdate?)
    && d.tailHash == if d.entries == [] then e.genesisHash(d.counts) else d.entries[|d.entries| - 1].entryHash
  }

  // A prepared entry is a close funding or a staged block that would be the next entry of the chain.
  ghost predicate PreparedFits<P(!new)>(e: Engine<P>, d: Disk, p: P, q: Option<P>) {
    match d.prepared
    case None => q.None?
    case Some(x) =>
      && q.Some? && (x.action.PostCloseFunding? || x.action.StagedExitKit?) && |d.entries| + 1 < U64_LIMIT
      && Linked(e, d.counts, d.entries + [x], |d.entries|)
      && e.apply(p, x.action) == q && e.head(q.value) == x.result && e.clean(q.value)
  }

  lemma CountsExactly(counts: seq<u32>)
    ensures CountsValid(counts) <==>
              && |counts| > 0 && (forall i :: 0 <= i < |counts| ==> counts[i] > 0)
              && forall i :: 0 < i < |counts| ==> counts[i - 1] < counts[i]
  {
    if CountsValid(counts) {
      forall i | 0 < i < |counts| ensures counts[i - 1] < counts[i] {
        var k := i - 1;
        assert counts[k] < counts[k + 1];
      }
    }
  }

  lemma FramedExactly<P(!new)>(e: Engine<P>, d: Disk)
    ensures Framed(e, d) <==> WellFramed(d) && d.tailHash == TailHash(e, d.counts, d.entries)
  {
    CountsExactly(d.counts);
  }

  lemma PreparedExactly<P(!new)>(e: Engine<P>, d: Disk, p: P, q: Option<P>)
    requires WellFramed(d)
    ensures ReplayPrepared(e, d, p) == Some(q) <==> PreparedFits(e, d, p, q)
  {
    if d.prepared.Some? {
      var all := d.entries + [d.prepared.value];
      LinkedExactly(e, d.counts, all);
      assert all[..|all| - 1] == d.entries;
    }
  }

  /** A restart accepts exactly the framed chains whose prepared entry fits, with the producers of the chain. */
  lemma RestartAcceptsExactly<P(!new)>(e: Engine<P>, d: Disk, p: P, q: Option<P>)
    ensures VerifyAndReplay(e, d) == Some((p, q)) <==>
              && Framed(e, d) && PreparedFits(e, d, p, q)
              && exists ps :: Chain(e, d.counts, d.entries, ps) && ps[|d.entries|] == p
  {
    FramedExactly(e, d);
    ReplayIsChain(e, d.counts, d.entries, p);
    if WellFramed(d) {
      PreparedExactly(e, d, p, q);
    }
  }

  /** A service opens on exactly the acceptable files of these arities, healthy, with the file and its producers. */
  lemma OpensExactly<P(!new)>(e: Engine<P>, counts: seq<u32>, file: Disk, s: Service<P>)
    ensures Open(e, counts, file) == Some(s) <==>
              && file.counts == counts && s.disk == file && s.file == file && !s.poisoned
              && Framed(e, file) && PreparedFits(e, file, s.producer, s.prepared)
              && exists ps :: Chain(e, counts, file.entries, ps) && ps[|file.entries|] == s.producer
  {
    RestartAcceptsExactly(e, file, s.producer, s.prepared);
  }

  /** Every journal file of every run is such a chain, and a healthy service holds its producers. */
  lemma FilesAreChains<P(!new)>(e: Engine<P>, counts: seq<u32>, events: seq<Event>, s: Service<P>)
    requires CountsValid(counts) && Exec(e, counts, events) == Some(s)
    ensures Framed(e, s.file) && exists ps :: Chain(e, counts, s.file.entries, ps)
    ensures !s.poisoned ==>
              && PreparedFits(e, s.file, s.producer, s.prepared)
              && exists ps :: Chain(e, counts, s.file.entries, ps) && ps[|s.file.entries|] == s.producer
  {
    RunsStaySound(e, counts, events);
    var (p, q) := VerifyAndReplay(e, s.file).value;
    RestartAcceptsExactly(e, s.file, p, q);
  }
}
