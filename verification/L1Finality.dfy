/** Durable L1 checkpoints: when a receipt is covered, and when a later read may replace an earlier one. */
module L1Finality {
  import opened MachineWords

  const ANVIL_CHAIN_ID: nat := 31337

  datatype FinalitySource = RpcFinalized | DevnetLatest

  datatype Checkpoint = Checkpoint(chainId: nat, blockNumber: nat, blockHash: Bytes32, parentHash: Bytes32,
                                   source: FinalitySource)
  {
    predicate Valid() {
      && chainId != 0
      && blockHash != 0
      && (blockNumber != 0 ==> parentHash != 0)
      && (source.DevnetLatest? ==> chainId == ANVIL_CHAIN_ID)
    }

    predicate CoversReceipt(number: nat, hash: Bytes32) {
      && Valid()
      && hash != 0
      && number <= blockNumber
      && (number == blockNumber ==> hash == blockHash)
    }
  }

  predicate CheckpointAdvances(earlier: Checkpoint, later: Checkpoint) {
    && earlier.Valid()
    && later.Valid()
    && earlier.chainId == later.chainId
    && earlier.source == later.source
    && earlier.blockNumber <= later.blockNumber
    && (earlier.blockNumber == later.blockNumber ==>
          earlier.blockHash == later.blockHash && earlier.parentHash == later.parentHash)
  }

  /** One head may replace another exactly when both are valid and it is the same head or a higher one of its source. */
  lemma AdvancesExactly(a: Checkpoint, b: Checkpoint)
    ensures CheckpointAdvances(a, b) <==>
              && a.Valid() && b.Valid()
              && (a == b || (a.chainId == b.chainId && a.source == b.source && a.blockNumber < b.blockNumber))
  {
  }

  /** Durable heads are ordered: the relation composes, and two heads that advance to each other are one head. */
  lemma AdvanceIsAnOrder(a: Checkpoint, b: Checkpoint, c: Checkpoint)
    requires CheckpointAdvances(a, b)
    ensures CheckpointAdvances(b, c) ==> CheckpointAdvances(a, c)
    ensures CheckpointAdvances(b, a) ==> a == b
  {
  }

  /** A receipt covered once stays covered by every later head. */
  lemma CoverageSurvivesAdvance(a: Checkpoint, b: Checkpoint, number: nat, hash: Bytes32)
    requires a.CoversReceipt(number, hash)
    requires CheckpointAdvances(a, b)
    ensures b.CoversReceipt(number, hash)
  {
  }
}
