/** A send that charges one channel and advances another, accepted by the producer. */
module UnalignedSend {
  import opened Wrappers
  import opened MachineWords
  import opened ChannelTypes
  import opened CloseFunding
  import opened BlockProducer
  import opened ProducerHistory

  const ROOT: Bytes32 := 7

  // State digests never collide here: channel and epoch are packed side by side.
  function Digest(c: ChannelId, epoch: u64): Bytes32 { c * 0x1_0000_0000_0000_0000 + epoch }

  const Hashes: Crypto := Crypto(
    _ => 0, (_, _, _) => 0, _ => 0, _ => 0, (_, _) => 0, (_, _) => 0, (_, _, _, _) => true, _ => true,
    (_, _) => 0, _ => true, (s: ChannelState) => Digest(s.channelId, s.epoch))

  const Host: Env := Env(
    Hashes, (_, _, _) => true, (r: ChannelRecord) => r.channelId, _ => true,
    (tx: InterTx) => tx.sourceChannelId, (_, _) => Some((TxV2(0, 0), ROOT)), (_, _) => true,
    (_, _, _) => ROOT, _ => 0, (_, _) => true,
    0, _ => 0, _ => 0, _ => 0, _ => true, _ => false, (_, _, _) => Some(0), (_, _, _) => Some(0),
    (_, _) => true, (_, _, _, _, _) => Some(0))

  // Both channels are run by the same two co-signers.
  function Keys(): (s: seq<Bytes32>)
    ensures |s| == 1024 && s[0] == 11 && s[1] == 12
  {
    seq(1024, i => if i == 0 then 11 else if i == 1 then 12 else 0)
  }

  function RecordOf(c: ChannelId): ChannelRecord {
    ChannelRecord(c, 2, 0, Keys(), 0, 0, Active, 0, 0, 0, 0)
  }

  function StateOf(c: ChannelId, epoch: u64, h2: Bytes32): ChannelState {
    ChannelState(c, epoch, epoch, 0, ChannelFund(c, []), BalanceState(c, 2, 0, [], [], 0, epoch, [], 0, 0), h2, 0, 0,
                 if epoch == 0 then 0 else Digest(c, epoch - 1), Digest(c, epoch),
                 [MemberSignature(0, 11, 0), MemberSignature(1, 12, 0)])
  }

  const Message: SmallBlockMessage := SmallBlockMessage(1, 1, 0, ROOT, 0)
  const Tx: InterTx := InterTx(1, 0, 9, Message, 0)
  const Transfer_: Descriptor := Descriptor(1, Tx, 5, 9, TxV2(0, 0), ROOT, 0, 0)

  // Register channels 1 and 2, then send from channel 1 with a signed state of channel 2.
  const Actions: seq<Action> := [
    Register(Snapshot(RecordOf(1), StateOf(1, 0, 0), 0), 1),
    Register(Snapshot(RecordOf(2), StateOf(2, 0, 0), 0), 2),
    PostInterChannel(StateOf(2, 1, ROOT), DebitPayload(StateOf(2, 1, ROOT), Tx, 5, RecordOf(1), 0), Transfer_, 3)]

  lemma Signed(owner: ChannelId, c: ChannelId, epoch: u64, h2: Bytes32)
    ensures AllSigned(Host, RecordOf(owner), StateOf(c, epoch, h2))
  {
    var sigs := StateOf(c, epoch, h2).memberSignatures;
    assert SignatureAt(sigs, 0) == Some(sigs[0]);
    assert SignatureAt(sigs[1..], 1) == Some(sigs[1]);
  }

  const Start: Producer := Producer(0, map[], map[], map[], {}, {})
  const One: Producer := Producer(0, map[1 := RecordOf(1)], map[1 := StateOf(1, 0, 0)], map[], {}, {})
  const Two: Producer :=
    Producer(0, map[1 := RecordOf(1), 2 := RecordOf(2)], map[1 := StateOf(1, 0, 0), 2 := StateOf(2, 0, 0)],
             map[], {}, {})
  const Three: Producer :=
    Producer(0, map[1 := RecordOf(1), 2 := RecordOf(2)], map[1 := StateOf(1, 0, 0), 2 := StateOf(2, 1, ROOT)],
             map[1 := 0], {9}, {})

  lemma RegistersFirst()
    ensures Apply(Host, Start, Actions[0]) == Some(One)
  {
    Signed(1, 1, 0, 0);
  }

  lemma RegistersSecond()
    ensures Apply(Host, One, Actions[1]) == Some(Two)
  {
    Signed(2, 2, 0, 0);
  }

  lemma SendsAcross()
    ensures Apply(Host, Two, Actions[2]) == Some(Three)
  {
    Signed(1, 2, 1, ROOT);
    Signed(2, 2, 1, ROOT);
    var s, slot := StateOf(2, 1, ROOT), BlockTx(1, TxV2(0, 0), 0, false);
    assert ExtendsOnBlock(Two.heads[2], s);
    assert CosignAdmitted(Host, Two, s, 3, ROOT, slot, Verified);
    assert Cosigned(Host, Two, s, 3, ROOT, slot, Verified).value == Two.(heads := Two.heads[2 := s]);
    assert SmallBlockBound(Host, RecordOf(1), s, Transfer_.tx);
    assert DescriptorAdmitted(Host, Two, s, Actions[2].debit, Transfer_);
    assert Two.heads[2 := s] == Three.heads && Two.nonces[1 := 0] == Three.nonces;
    assert Two.acceptedTxs + {9} == Three.acceptedTxs;
  }

  lemma Prefixes()
    ensures Actions[..1][..0] == [] && Actions[..2][..1] == Actions[..1]
    ensures |Actions[..1]| == 1 && |Actions[..2]| == 2 && |Actions| == 3
  {
  }

  lemma Histories()
    ensures History(Actions, 1) == [StateOf(1, 0, 0)]
    ensures History(Actions, 2) == [StateOf(2, 0, 0), StateOf(2, 1, ROOT)]
  {
    var a, b := Actions[..1], Actions[..2];
    Prefixes();
    assert History(a, 1) == [StateOf(1, 0, 0)] && History(a, 2) == [];
    assert StatesOf(Actions[1], 1) == [] && StatesOf(Actions[1], 2) == [StateOf(2, 0, 0)];
    assert History(b, 1) == [StateOf(1, 0, 0)] && History(b, 2) == [StateOf(2, 0, 0)];
  }

  lemma Counts(c: ChannelId)
    ensures Sends(Actions, c) == Departures(Actions, c) == if c == 1 then 1 else 0
    ensures Arrivals(Actions, c) == if c == 2 then 1 else 0
  {
    var a, b := Actions[..1], Actions[..2];
    Prefixes();
    assert Sends(a, c) == Arrivals(a, c) == Departures(a, c) == 0;
    assert Sends(b, c) == Arrivals(b, c) == Departures(b, c) == 0;
  }

  /** The run is accepted; channel 1 has one send and no block, channel 2 one block and no send. */
  lemma UnalignedSendAccepted()
    ensures Run(Host, Actions) == Some(Three)
    ensures Sends(Actions, 1) == 1 && BlockStates(History(Actions, 1)) == 0 && Departures(Actions, 1) == 1
    ensures Sends(Actions, 2) == 0 && BlockStates(History(Actions, 2)) == 1 && Arrivals(Actions, 2) == 1
  {
    Accepted();
    Histories();
    Counts(1);
    Counts(2);
  }

  lemma Accepted()
    ensures Run(Host, Actions) == Some(Three)
  {
    Prefixes();
    RegistersFirst();
    RegistersSecond();
    SendsAcross();
    assert Run(Host, Actions[..1]) == Some(One);
    assert Run(Host, Actions[..2]) == Some(Two);
  }
}
