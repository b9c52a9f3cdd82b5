/** Channel states and records as the co-signers, the producer and the settlement code see them. */
module ChannelTypes {
  import opened MachineWords

  const MAX_CHANNEL_MEMBERS: nat := 1024
  const MAX_CHANNEL_TOKENS: nat := 10

  // Ciphertexts are compared, never opened; a ciphertext is its canonical encoding.
  type Ciphertext = nat
  type ChannelId = u32

  // Fields named `rest` stand for signed content that is carried along and never read here.
  datatype ChannelFund = ChannelFund(channelId: ChannelId, amounts: seq<U256>)

  datatype BalanceState = BalanceState(
    channelId: ChannelId, memberCount: nat, delegateCount: nat,
    encBalances: seq<seq<Ciphertext>>, regevPkDigests: seq<Bytes32>,
    settledTxChain: Bytes32, stateVersion: u64, tokenRegistry: seq<u32>, tokenCount: nat, rest: nat)

  datatype MemberSignature = MemberSignature(memberSlot: nat, pkG: Bytes32, signature: nat)

  datatype ChannelState = ChannelState(
    channelId: ChannelId, epoch: u64, smallBlockNumber: u64, closeFreezeNonce: u64,
    fund: ChannelFund, balance: BalanceState, h2Tag: Bytes32, unallocated: U256,
    rest: nat, prevDigest: Bytes32, digest: Bytes32, memberSignatures: seq<MemberSignature>)
  {
    // The signed content: everything but the stored digest and the signatures.
    function Unsigned(): ChannelState { this.(digest := 0, memberSignatures := []) }
  }

  datatype ChannelStatus = Active | ClosePending | Closed

  datatype RecordData = ChannelRecord(
    channelId: ChannelId, memberCount: nat, delegateCount: nat, memberPks: seq<Bytes32>, setVersion: u64,
    bpMemberSlot: nat, status: ChannelStatus, closePenalty: U256, closeFreezeNonce: u64,
    memberRoot: Bytes32, regevRoot: Bytes32)

  // A record holds one identity per participant slot; its two counts are 8 and 16 bits wide.
  type ChannelRecord = r: RecordData | |r.memberPks| == 1024 && r.memberCount < 256 && r.delegateCount < 65536
    witness ChannelRecord(0, 0, 0, seq(1024, _ => 0), 0, 0, Active, 0, 0, 0, 0)

  /**
    A child of `previous` on the same digest chain: linked, one epoch and one state version later, in the
    same close era, none of the counters wrapping.
  */
  predicate ExtendsHead(previous: ChannelState, child: ChannelState) {
    && child.prevDigest == previous.digest
    && child.epoch == previous.epoch + 1
    && child.balance.stateVersion == previous.balance.stateVersion + 1
    && child.closeFreezeNonce == previous.closeFreezeNonce
  }
}
