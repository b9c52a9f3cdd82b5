/**
  A pull intent without a calldata hash: accepted as an update of a reachable candidate, refused by the reload
  check.
*/
module UnhashedPullIntent {
  import opened Wrappers
  import opened MachineWords
  import opened L1Finality
  import opened PayoutStore
  import opened PayoutStoreSafety

  const HOST: Env := Env(_ => 1, _ => true)
  const REQUEST: Request := Request(1, 2, Withdrawal(3, 0, 10, 4, 5), 0)
  const INTENT: Intent := Intent(6, 0, 0, 7, 0)
  const HEAD: Checkpoint := Checkpoint(1, 9, 8, 8, RpcFinalized)
  const PAID: PayoutConfirmation :=
    PayoutConfirmation(Receipt(11, 12, 1, 1, 6, 2, true, WithdrawNative, 7, 0, HEAD), true, true, 0, 10)

  // The recipient's pull of the paid amount, without a calldata hash.
  const PULL: Update := MarkPullBroadcast(Intent(3, 0, 0, 0, 10))

  const PREPARED: Candidate := Candidate(1, REQUEST, Native, None, [], None, false, None, [], None)
  const SENT: Candidate := PREPARED.(payoutBroadcast := Some(INTENT))
  const CONFIRMED: Candidate := SENT.(payoutTxHashes := [11], payoutConfirmation := Some(PAID))

  function Holding(c: Candidate): Snapshot { EMPTY.(active := Some(c)) }

  const EVENTS: seq<Event> := [
    Called(Prepare(REQUEST), Done),
    Called(Mutate(1, MarkPayoutBroadcast(INTENT)), Done),
    Called(Mutate(1, ConfirmPayout(PAID)), Done)]

  function Healthy(d: Snapshot): Store { Store(d, false, d) }

  lemma Steps()
    ensures Step(HOST, Healthy(EMPTY), EVENTS[0]) == Some(Healthy(Holding(PREPARED)))
    ensures Step(HOST, Healthy(Holding(PREPARED)), EVENTS[1]) == Some(Healthy(Holding(SENT)))
    ensures Step(HOST, Healthy(Holding(SENT)), EVENTS[2]) == Some(Healthy(Holding(CONFIRMED)))
  {
    assert Fresh(HOST, REQUEST) == PREPARED;
    assert Updated(PREPARED, MarkPayoutBroadcast(INTENT)) == Some(SENT);
    var none: seq<Bytes32> := [];
    assert none + [11] == [11];
    assert PayoutConfirmed(SENT, PAID) && PayoutConfirmed(CONFIRMED, PAID);
    assert Updated(SENT, ConfirmPayout(PAID)) == Some(CONFIRMED);
    assert VerifyDisk(HOST, Holding(CONFIRMED));
  }

  /**
    After prepare, broadcast and confirmation the store holds a candidate whose unhashed pull is accepted, then
    refused.
  */
  lemma UnhashedPullReached()
    ensures Exec(HOST, EVENTS) == Some(Healthy(Holding(CONFIRMED)))
    ensures VerifyDisk(HOST, Holding(CONFIRMED)) && UnhashedPull(CONFIRMED, PULL)
    ensures Updated(CONFIRMED, PULL).Some?
        && !VerifyDisk(HOST, Recorded(Holding(CONFIRMED), Updated(CONFIRMED, PULL).value))
    ensures Decide(HOST, Holding(CONFIRMED), Mutate(1, PULL)) == Refuse
  {
    Steps();
    assert EVENTS[..1][..0] == [] && EVENTS[..2][..1] == EVENTS[..1];
    assert Exec(HOST, EVENTS[..1]) == Some(Healthy(Holding(PREPARED)));
    assert Exec(HOST, EVENTS[..2]) == Some(Healthy(Holding(SENT)));
    RunsStaySound(HOST, EVENTS);
    AcceptedUpdateVerifies(HOST, Holding(CONFIRMED), PULL);
  }
}
