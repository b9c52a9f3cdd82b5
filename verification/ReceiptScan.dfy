/** Reading a materialization receipt: its completion marker, and the payouts that must precede it. */
module ReceiptScan {
  import opened Wrappers
  import opened MachineWords

  // A log entry after hex decoding; None is a field that does not decode to whole words.
  datatype Log = Log(removed: bool, emitter: Address, topics: seq<Option<Bytes32>>, data: Option<seq<Bytes32>>)

  // What the publication expects of the receipt of one lane.
  datatype Lane = Lane(
    native: bool, materializer: Address, rollup: Address, manager: Address, authorization: Bytes32,
    materializedTopic: Bytes32, nativeTopic: Bytes32, erc20Topic: Bytes32,
    tokens: set<u32>, amounts: map<u32, U256>, anchorBlock: u64)

  predicate Emitted(log: Log, emitter: Address, topic0: Bytes32) {
    !log.removed && log.emitter == emitter && |log.topics| > 0 && log.topics[0] == Some(topic0)
  }

  // ---------- the completion marker ----------

  datatype Marker = Irrelevant | Malformed | Exact

  // A marker of this materializer either is exactly ours, is another's, or cannot be read.
  function MarkerOf(lane: Lane, log: Log): Marker {
    if !Emitted(log, lane.materializer, lane.materializedTopic) then Irrelevant
    else if |log.topics| != 4 || log.data.None? || |log.data.value| != 1 || log.topics[1].None? then Malformed
    else if log.topics[1].value != lane.manager then Irrelevant
    else if log.topics[2].None? || log.topics[2].value >= 256 then Malformed
    else if log.topics[2].value != (if lane.native then 0 else 1) then Irrelevant
    else if log.topics[3].None? then Malformed
    else if log.topics[3].value == lane.authorization then Exact else Irrelevant
  }

  /**
    An exact marker is one log: this materializer's event, indexed by manager, lane and authorization, with one data
    word.
  */
  lemma ExactMarker(lane: Lane, log: Log)
    ensures MarkerOf(lane, log).Exact? <==>
              && !log.removed && log.emitter == lane.materializer && log.data.Some? && |log.data.value| == 1
              && log.topics == [Some(lane.materializedTopic), Some(lane.manager), Some(if lane.native then 0 else 1),
                                Some(lane.authorization)]
  {
    var kind: Bytes32 := if lane.native then 0 else 1;
    var expected := [Some(lane.materializedTopic), Some(lane.manager), Some(kind), Some(lane.authorization)];
    if MarkerOf(lane, log).Exact? {
      assert forall i :: 0 <= i < 4 ==> log.topics[i] == expected[i];
    }
  }

  // A live log of this emitter under this event signature.
  predicate Claims(log: Log, emitter: Address, signature: Bytes32) {
    !log.removed && log.emitter == emitter && log.topics != [] && log.topics[0] == Some(signature)
  }

  predicate Reads(log: Log, i: nat, word: Bytes32) { i < |log.topics| && log.topics[i] == Some(word) }

  predicate Garbled(log: Log, i: nat) { i < |log.topics| && log.topics[i].None? }

  /**
    A log stops the scan as malformed exactly when it claims the materializer's event and has the wrong shape, or a
    field that cannot be read before one shows it to be another's. Every other log that is not exact is passed over.
  */
  lemma MalformedMarker(lane: Lane, log: Log)
    ensures MarkerOf(lane, log).Malformed? <==>
              && Claims(log, lane.materializer, lane.materializedTopic)
              && (|| |log.topics| != 4 || log.data.None? || |log.data.value| != 1 || Garbled(log, 1)
                  || (Reads(log, 1, lane.manager) && (Garbled(log, 2) || log.topics[2].value > 255))
                  || (Reads(log, 1, lane.manager) && Reads(log, 2, if lane.native then 0 else 1) && Garbled(log, 3)))
  {
  }

  // The receipt's markers are readable and the one at this position is the only exact one.
  predicate CompletesAt(lane: Lane, logs: seq<Log>, at: nat) {
    && at < |logs| && MarkerOf(lane, logs[at]).Exact?
    && forall i :: 0 <= i < |logs| ==>
         !MarkerOf(lane, logs[i]).Malformed? && (MarkerOf(lane, logs[i]).Exact? ==> i == at)
  }

  /** Accept a receipt exactly when it has one exact completion marker and no unreadable one. */
  method ValidateMaterializationEvent(lane: Lane, logs: seq<Log>) returns (r: Option<nat>)
    ensures r.Some? ==> CompletesAt(lane, logs, r.value)
    ensures r.None? ==> forall at :: !CompletesAt(lane, logs, at)
  {
    var exact: seq<nat> := [];
    for i := 0 to |logs|
      invariant forall j :: 0 <= j < i ==> !MarkerOf(lane, logs[j]).Malformed?
      invariant forall j :: j in exact <==> 0 <= j < i && MarkerOf(lane, logs[j]).Exact?
      invariant forall k :: 0 <= k < |exact| ==> exact[k] < i
      invariant forall j, k :: 0 <= j < k < |exact| ==> exact[j] < exact[k]
    {
      var marker := MarkerOf(lane, logs[i]);
      if marker.Malformed? {
        return None;
      }
      if marker.Exact? {
        exact := exact + [i];
      }
    }
    if |exact| != 1 {
      forall at ensures !CompletesAt(lane, logs, at) {
        if |exact| > 1 {
          assert exact[0] in exact && exact[1] in exact && exact[0] < exact[1];
          assert MarkerOf(lane, logs[exact[0]]).Exact? && MarkerOf(lane, logs[exact[1]]).Exact?;
        } else {
          assert exact == [];
        }
      }
      return None;
    }
    assert exact[0] in exact;
    forall i | 0 <= i < |logs| && MarkerOf(lane, logs[i]).Exact? ensures i == exact[0] {
      assert i in exact;
    }
    return Some(exact[0]);
  }

  // ---------- the payouts ----------

  datatype Payout = Other | Unreadable | Wrong | Pays(token: u32)

  function PayoutOf(lane: Lane, log: Log): Payout {
    if !Emitted(log, lane.rollup, if lane.native then lane.nativeTopic else lane.erc20Topic) then Other
    else if |log.topics| != (if lane.native then 3 else 4) then Unreadable
    else if !lane.native && (log.topics[2].None? || log.topics[2].value >= U32_LIMIT) then Unreadable
    else if log.data.None? || |log.data.value| != 2 || log.topics[1].None? then Unreadable
    else if log.topics[1].value != lane.manager then Other
    else
      var token: u32 := if lane.native then 0 else log.topics[2].value;
      if token !in lane.amounts || token !in lane.tokens then Other
      else if log.topics[if lane.native then 2 else 3].None? then Unreadable
      else if log.data.value[0] != lane.amounts[token] || log.data.value[1] != lane.anchorBlock then Wrong
      else Pays(token)
  }

  /**
    A payout of a planned token is one log: the rollup's event to the manager, with a nullifier, the amount and the
    anchor.
  */
  lemma ExactPayout(lane: Lane, log: Log, token: u32)
    ensures PayoutOf(lane, log) == Pays(token) <==>
              && !log.removed && log.emitter == lane.rollup && token in lane.tokens && token in lane.amounts
              && log.data == Some([lane.amounts[token], lane.anchorBlock])
              && exists nullifier ::
                   log.topics == (if lane.native then [Some(lane.nativeTopic), Some(lane.manager), Some(nullifier)]
                                  else [Some(lane.erc20Topic), Some(lane.manager), Some(token), Some(nullifier)])
                   && (lane.native ==> token == 0)
  {
    if PayoutOf(lane, log) == Pays(token) {
      var nullifier := log.topics[if lane.native then 2 else 3].value;
      var expected := if lane.native then [Some(lane.nativeTopic), Some(lane.manager), Some(nullifier)]
                      else [Some(lane.erc20Topic), Some(lane.manager), Some(token), Some(nullifier)];
      assert log.topics == expected;
      assert log.data.value == [lane.amounts[token], lane.anchorBlock];
    }
  }

  // The log claims the lane's withdrawal event.
  predicate ClaimsPayout(lane: Lane, log: Log) {
    Claims(log, lane.rollup, if lane.native then lane.nativeTopic else lane.erc20Topic)
  }

  // Its indexed fields and two data words are all there and, but for the nullifier, readable.
  predicate PayoutShaped(lane: Lane, log: Log) {
    && log.data.Some? && |log.data.value| == 2 && |log.topics| == (if lane.native then 3 else 4)
    && !Garbled(log, 1) && (lane.native || (!Garbled(log, 2) && log.topics[2].value < 0x1_0000_0000))
  }

  // It pays the manager in a token the plan expects.
  predicate PaysPlanned(lane: Lane, log: Log)
    requires PayoutShaped(lane, log)
  {
    && Reads(log, 1, lane.manager)
    && var token := if lane.native then 0 else log.topics[2].value;
    token in lane.tokens && token in lane.amounts
  }

  /**
    A log stops the scan exactly when it claims the withdrawal event and is misshapen, or pays the manager a planned
    token with an unreadable nullifier (unreadable) or another amount or anchor (wrong); it is passed over exactly
    when it claims another event or pays someone or something else.
  */
  lemma StoppingPayout(lane: Lane, log: Log)
    ensures PayoutOf(lane, log).Unreadable? <==>
              && ClaimsPayout(lane, log)
              && (PayoutShaped(lane, log) ==> PaysPlanned(lane, log) && Garbled(log, if lane.native then 2 else 3))
    ensures PayoutOf(lane, log).Wrong? <==>
              && ClaimsPayout(lane, log) && PayoutShaped(lane, log) && PaysPlanned(lane, log)
              && !Garbled(log, if lane.native then 2 else 3)
              && log.data.value != [lane.amounts[if lane.native then 0 else log.topics[2].value], lane.anchorBlock]
    ensures PayoutOf(lane, log).Other? <==>
              !ClaimsPayout(lane, log) || (PayoutShaped(lane, log) && !PaysPlanned(lane, log))
  {
    if PayoutShaped(lane, log) && PaysPlanned(lane, log) {
      var token: u32 := if lane.native then 0 else log.topics[2].value;
      var words := log.data.value;
      assert words == [lane.amounts[token], lane.anchorBlock] <==>
          words[0] == lane.amounts[token] && words[1] == lane.anchorBlock;
    }
  }

  function Payouts(lane: Lane, logs: seq<Log>): (ps: seq<Payout>)
    ensures |ps| == |logs| && forall i :: 0 <= i < |logs| ==> ps[i] == PayoutOf(lane, logs[i])
  {
    seq(|logs|, i requires 0 <= i < |logs| => PayoutOf(lane, logs[i]))
  }

  // Every payout is readable, right and before the marker, and no token is paid twice.
  predicate InOrder(ps: seq<Payout>, marker: nat) {
    && (forall i :: 0 <= i < |ps| ==> !ps[i].Unreadable? && !ps[i].Wrong?)
    && (forall i :: 0 <= i < |ps| && ps[i].Pays? ==> i < marker)
    && forall i, j :: 0 <= i < j < |ps| && ps[i].Pays? ==> ps[j] != ps[i]
  }

  // The lane is completely paid: each planned token exactly once, with its amount and anchor, before the marker.
  predicate LanePaid(lane: Lane, logs: seq<Log>, marker: nat) {
    var ps := Payouts(lane, logs);
    InOrder(ps, marker) && forall token :: token in lane.tokens ==> Pays(token) in ps
  }

  /** Accept exactly the receipts that pay the complete lane, crossing each payout off the planned tokens. */
  method ValidatePayoutEvents(lane: Lane, logs: seq<Log>, marker: nat) returns (ok: bool)
    ensures ok <==> LanePaid(lane, logs, marker)
    ensures ok ==> Credited(lane, logs, |logs|) == Planned(lane, lane.tokens, U32_LIMIT)
  {
    var unmatched := lane.tokens;
    ghost var ps := Payouts(lane, logs);
    for i := 0 to |logs|
      invariant InOrder(ps[..i], marker)
      invariant unmatched <= lane.tokens
      invariant forall token :: token in lane.tokens ==> (token in unmatched <==> Pays(token) !in ps[..i])
      invariant Paying(lane, ps[..i]) + Planned(lane, unmatched, U32_LIMIT) == Planned(lane, lane.tokens, U32_LIMIT)
    {
      var payout := PayoutOf(lane, logs[i]);
      assert payout == ps[i] && ps[..i + 1] == ps[..i] + [payout];
      if payout.Unreadable? || payout.Wrong? {
        return false;
      }
      PayingGrows(lane, ps[..i], payout);
      if payout.Pays? {
        LaneTyped(lane, logs, i);
        if i >= marker {
          return false;
        }
        if payout.token !in unmatched {
          Repeated(ps, i, marker);
          return false;
        }
        CrossOff(lane, unmatched, payout.token, U32_LIMIT);
        unmatched := unmatched - {payout.token};
        OrderGrows(ps[..i], payout, marker);
      } else {
        OrderGrows(ps[..i], payout, marker);
      }
    }
    assert ps[..|logs|] == ps;
    if unmatched != {} {
      var token :| token in unmatched;
      return false;
    }
    NothingPlanned(lane, U32_LIMIT);
    CreditedIsPaying(lane, logs, |logs|);
    return true;
  }

  lemma LaneTyped(lane: Lane, logs: seq<Log>, i: nat)
    requires i < |logs| && PayoutOf(lane, logs[i]).Pays?
    ensures PayoutOf(lane, logs[i]).token in lane.tokens && PayoutOf(lane, logs[i]).token in lane.amounts
  {
  }

  lemma OrderGrows(before: seq<Payout>, p: Payout, marker: nat)
    requires InOrder(before, marker) && !p.Unreadable? && !p.Wrong?
    requires p.Pays? ==> |before| < marker && p !in before
    ensures InOrder(before + [p], marker)
  {
  }

  lemma Repeated(ps: seq<Payout>, i: nat, marker: nat)
    requires i < |ps| && ps[i].Pays? && ps[i] in ps[..i]
    ensures !InOrder(ps, marker)
  {
    var j :| 0 <= j < i && ps[..i][j] == ps[i];
    assert ps[j] == ps[i];
  }

  // ---------- totals ----------

  // What the first n logs pay out for this lane, as the logs themselves state it.
  function Credited(lane: Lane, logs: seq<Log>, n: nat): nat
    requires n <= |logs|
  {
    if n == 0 then 0
    else Credited(lane, logs, n - 1) + if PayoutOf(lane, logs[n - 1]).Pays? then logs[n - 1].data.value[0] else 0
  }

  function Amount(lane: Lane, p: Payout): nat {
    if p.Pays? && p.token in lane.amounts then lane.amounts[p.token] else 0
  }

  function Paying(lane: Lane, ps: seq<Payout>): nat {
    if ps == [] then 0 else Paying(lane, ps[..|ps| - 1]) + Amount(lane, ps[|ps| - 1])
  }

  lemma PayingGrows(lane: Lane, before: seq<Payout>, p: Payout)
    ensures Paying(lane, before + [p]) == Paying(lane, before) + Amount(lane, p)
  {
    assert (before + [p])[..|before|] == before;
  }

  lemma {:induction false} CreditedIsPaying(lane: Lane, logs: seq<Log>, n: nat)
    requires n <= |logs|
    ensures Credited(lane, logs, n) == Paying(lane, Payouts(lane, logs)[..n])
  {
    if n > 0 {
      CreditedIsPaying(lane, logs, n - 1);
      var ps := Payouts(lane, logs);
      assert ps[..n] == ps[..n - 1] + [ps[n - 1]];
      PayingGrows(lane, ps[..n - 1], ps[n - 1]);
    }
  }

  // The planned amounts of a set of tokens below k.
  function Planned(lane: Lane, tokens: set<u32>, k: nat): nat
    requires k <= U32_LIMIT
  {
    if k == 0 then 0
    else
      var token: u32 := k - 1;
      Planned(lane, tokens, k - 1) + if token in tokens && token in lane.amounts then lane.amounts[token] else 0
  }

  lemma {:induction false} CrossOff(lane: Lane, tokens: set<u32>, token: u32, k: nat)
    requires k <= U32_LIMIT && token in tokens && token in lane.amounts
    ensures Planned(lane, tokens, k)
            == Planned(lane, tokens - {token}, k) + if token < k then lane.amounts[token] else 0
  {
    if k > 0 {
      CrossOff(lane, tokens, token, k - 1);
    }
  }

  lemma {:induction false} NothingPlanned(lane: Lane, k: nat)
    requires k <= U32_LIMIT
    ensures Planned(lane, {}, k) == 0
  {
    if k > 0 {
      NothingPlanned(lane, k - 1);
    }
  }

  /**
    An accepted receipt pays each planned token by exactly one log, with the planned amount and anchor, before the
    marker.
  */
  lemma EachTokenPaidOnce(lane: Lane, logs: seq<Log>, marker: nat, token: u32) returns (at: nat)
    requires CompletesAt(lane, logs, marker) && LanePaid(lane, logs, marker) && token in lane.tokens
    ensures at < marker && PayoutOf(lane, logs[at]) == Pays(token) && token in lane.amounts
    ensures logs[at].data == Some([lane.amounts[token], lane.anchorBlock])
    ensures forall i :: 0 <= i < |logs| && PayoutOf(lane, logs[i]) == Pays(token) ==> i == at
  {
    var ps := Payouts(lane, logs);
    at :| 0 <= at < |ps| && ps[at] == Pays(token);
    forall i | 0 <= i < |logs| && PayoutOf(lane, logs[i]) == Pays(token) ensures i == at {
      assert ps[i] == ps[at];
    }
    assert logs[at].data.value == [lane.amounts[token], lane.anchorBlock];
  }
}
