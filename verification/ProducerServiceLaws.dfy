/** The journal driving the block producer: the producer's laws hold of every healthy service that can be reached. */
module ProducerServiceLaws {
  import opened Wrappers
  import opened MachineWords
  import opened ChannelTypes
  import opened BlockProducer
  import opened ProducerHistory
  import opened ProducerJournal
  import opened ProducerJournalSafety

  // Genesis witnesses by circuit arities, fingerprints, entry hashes and head projections of the concrete producer.
  datatype Digests = Digests(
    genesis: seq<u32> -> Witness, head: Producer -> Head, bodyHash: Body -> Bytes32, entryHash: Entry -> Bytes32,
    genesisHash: seq<u32> -> Bytes32, commitment: Head -> Bytes32)

  function EngineOf(env: Env, h: Digests): Engine<Producer> {
    Engine(counts => GenesisOn(h.genesis(counts)), (p, a) => Apply(env, p, a), h.head,
           (p: Producer) => !env.holdsKeys(p.witness_), (p: Producer) => env.lastTimestamp(p.witness_),
           h.bodyHash, h.entryHash, h.genesisHash, h.commitment)
  }

  function Actions(entries: seq<Entry>): (actions: seq<Action>)
    ensures |actions| == |entries|
    ensures forall i :: 0 <= i < |entries| ==> actions[i] == entries[i].action
  {
    if entries == [] then [] else Actions(entries[..|entries| - 1]) + [entries[|entries| - 1].action]
  }

  lemma {:induction false} ReplayIsRun(env: Env, h: Digests, counts: seq<u32>, entries: seq<Entry>, p: Producer)
    requires env.genesis == h.genesis(counts) && Replay(EngineOf(env, h), counts, entries) == Some(p)
    ensures Run(env, Actions(entries)) == Some(p)
  {
    if entries != [] {
      var before := entries[..|entries| - 1];
      ReplayIsRun(env, h, counts, before, Replay(EngineOf(env, h), counts, before).value);
      assert Actions(entries)[..|entries| - 1] == Actions(before);
    }
  }

  /**
    The producer in the memory of any reachable service is a run of the actions its journal committed, so
    every channel's head, nonce and terminal flag are explained by the journal, and every head is signed
    by all co-signers of its current record.
  */
  lemma ServiceObeysProducerLaws(env: Env, h: Digests, counts: seq<u32>, events: seq<Event>, s: Service<Producer>,
                                 c: ChannelId)
    requires CountsValid(counts) && env.genesis == h.genesis(counts)
    requires Exec(EngineOf(env, h), counts, events) == Some(s)
    ensures Run(env, Actions(s.disk.entries)) == Some(s.producer)
    ensures Explained(env, Actions(s.disk.entries), s.producer, c)
    ensures c in s.producer.heads ==>
        c in s.producer.records && AllSigned(env, s.producer.records[c], s.producer.heads[c])
  {
    var e := EngineOf(env, h);
    RunsStaySound(e, counts, events);
    CommittedRun(env, h, s);
    RunExplained(env, Actions(s.disk.entries), s.producer, c);
    if c in s.producer.heads {
      HeadsAreAuthorized(env, Actions(s.disk.entries), s.producer, c);
    }
  }

  lemma CommittedRun(env: Env, h: Digests, s: Service<Producer>)
    requires Sound(EngineOf(env, h), s) && env.genesis == h.genesis(s.disk.counts)
    ensures Run(env, Actions(s.disk.entries)) == Some(s.producer)
    ensures forall i :: 0 <= i < |s.disk.entries| ==> !Actions(s.disk.entries)[i].StagedExitKit?
  {
    ReplayIsRun(env, h, s.disk.counts, s.disk.entries, s.producer);
  }
}
