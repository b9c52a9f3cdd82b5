/** Delegate joins: a record that is an older one with delegates appended at the left-packed boundary. */
module DelegateJoin {
  import opened MachineWords
  import opened ChannelTypes

  function Boundary(r: ChannelRecord): nat { r.memberCount + r.delegateCount }

  // The fields a join must not touch; the roots, penalty and freeze nonce of the record are not compared.
  predicate SameCosignerSet(old_: ChannelRecord, new_: ChannelRecord) {
    && new_.channelId == old_.channelId
    && new_.memberCount == old_.memberCount && new_.setVersion == old_.setVersion
    && new_.status == old_.status && new_.bpMemberSlot == old_.bpMemberSlot
  }

  // What the slot loop demands of one slot.
  predicate SlotAccepted(old_: ChannelRecord, new_: ChannelRecord, slot: nat)
    requires slot < MAX_CHANNEL_MEMBERS && Boundary(new_) <= MAX_CHANNEL_MEMBERS
  {
    var was, now := old_.memberPks[slot], new_.memberPks[slot];
    if slot < Boundary(old_) then now == was
    else if slot < Boundary(new_) then
      && was == 0 && now != 0
      && forall other :: 0 <= other < Boundary(new_) && other != slot ==> new_.memberPks[other] != now
    else now == 0 && was == 0
  }

  // Delegates were appended, and nothing else changed.
  predicate DelegatesAppended(old_: ChannelRecord, new_: ChannelRecord) {
    && SameCosignerSet(old_, new_)
    && old_.delegateCount < new_.delegateCount
    && Boundary(new_) <= MAX_CHANNEL_MEMBERS
    && forall slot :: 0 <= slot < MAX_CHANNEL_MEMBERS ==> SlotAccepted(old_, new_, slot)
  }

  /** The slot loop, with its inner duplicate search. */
  method VerifyDelegatesAppended(old_: ChannelRecord, new_: ChannelRecord) returns (ok: bool)
    ensures ok <==> DelegatesAppended(old_, new_)
  {
    if !SameCosignerSet(old_, new_) || new_.delegateCount <= old_.delegateCount
       || Boundary(new_) > MAX_CHANNEL_MEMBERS
    {
      return false;
    }
    for slot := 0 to MAX_CHANNEL_MEMBERS
      invariant forall s :: 0 <= s < slot ==> SlotAccepted(old_, new_, s)
    {
      var was, now := old_.memberPks[slot], new_.memberPks[slot];
      if slot < Boundary(old_) {
        if now != was {
          assert !SlotAccepted(old_, new_, slot);
          return false;
        }
      } else if slot < Boundary(new_) {
        if was != 0 || now == 0 {
          assert !SlotAccepted(old_, new_, slot);
          return false;
        }
        for other := 0 to Boundary(new_)
          invariant forall o :: 0 <= o < other && o != slot ==> new_.memberPks[o] != now
        {
          if other != slot && new_.memberPks[other] == now {
            assert !SlotAccepted(old_, new_, slot);
            return false;
          }
        }
      } else if now != 0 || was != 0 {
        assert !SlotAccepted(old_, new_, slot);
        return false;
      }
    }
    return true;
  }

  /** Two joins in a row are one join. */
  lemma AppendIsTransitive(a: ChannelRecord, b: ChannelRecord, c: ChannelRecord)
    requires DelegatesAppended(a, b) && DelegatesAppended(b, c)
    ensures DelegatesAppended(a, c)
  {
    forall slot | 0 <= slot < MAX_CHANNEL_MEMBERS
      ensures SlotAccepted(a, c, slot)
    {
      assert SlotAccepted(a, b, slot) && SlotAccepted(b, c, slot);
      if Boundary(a) <= slot < Boundary(b) {
        forall other | 0 <= other < Boundary(c) && other != slot
          ensures c.memberPks[other] != c.memberPks[slot]
        {
          assert SlotAccepted(b, c, other);
        }
      }
    }
  }

  // A chain of single-delegate joins.
  ghost predicate SingleJoins(chain: seq<ChannelRecord>) {
    forall i :: 0 <= i < |chain| - 1 ==>
         DelegatesAppended(chain[i], chain[i + 1]) && chain[i + 1].delegateCount == chain[i].delegateCount + 1
  }

  // A chain of k single joins is a join of k delegates.
  lemma {:induction false} ChainIsAppend(chain: seq<ChannelRecord>)
    requires |chain| >= 2 && SingleJoins(chain)
    ensures DelegatesAppended(chain[0], chain[|chain| - 1])
    ensures chain[|chain| - 1].delegateCount == chain[0].delegateCount + |chain| - 1
  {
    assert DelegatesAppended(chain[0], chain[1]);
    if |chain| > 2 {
      ChainIsAppend(chain[1..]);
      AppendIsTransitive(chain[0], chain[1], chain[|chain| - 1]);
    }
  }

  // The new record cut back to its first `delegates` delegates.
  function CutTo(new_: ChannelRecord, delegates: nat): (r: ChannelRecord)
    requires delegates < 65536
  {
    new_.(delegateCount := delegates,
          memberPks := seq(MAX_CHANNEL_MEMBERS,
                           s requires 0 <= s < MAX_CHANNEL_MEMBERS =>
                             if s < new_.memberCount + delegates then new_.memberPks[s] else 0))
  }

  // Peeling the last delegate off leaves a smaller join followed by a single one.
  lemma PeelOne(old_: ChannelRecord, new_: ChannelRecord)
    requires DelegatesAppended(old_, new_)
    ensures
      var mid := CutTo(new_, new_.delegateCount - 1);
      && DelegatesAppended(mid, new_)
      && (old_.delegateCount + 1 < new_.delegateCount ==> DelegatesAppended(old_, mid))
  {
    var mid := CutTo(new_, new_.delegateCount - 1);
    forall slot | 0 <= slot < MAX_CHANNEL_MEMBERS
      ensures SlotAccepted(mid, new_, slot)
      ensures old_.delegateCount + 1 < new_.delegateCount ==> SlotAccepted(old_, mid, slot)
    {
      assert SlotAccepted(old_, new_, slot);
    }
  }

  // A join of k delegates decomposes into k single joins, the last one reaching the new record itself.
  lemma {:induction false} AppendIsChain(old_: ChannelRecord, new_: ChannelRecord) returns (chain: seq<ChannelRecord>)
    requires DelegatesAppended(old_, new_)
    ensures SingleJoins(chain) && |chain| == new_.delegateCount - old_.delegateCount + 1
    ensures chain[0] == old_ && chain[|chain| - 1] == new_
    decreases new_.delegateCount
  {
    if new_.delegateCount == old_.delegateCount + 1 {
      chain := [old_, new_];
    } else {
      PeelOne(old_, new_);
      var mid := CutTo(new_, new_.delegateCount - 1);
      var before := AppendIsChain(old_, mid);
      chain := before + [new_];
    }
  }

  ghost predicate JoinChain(old_: ChannelRecord, new_: ChannelRecord, k: nat, chain: seq<ChannelRecord>) {
    && |chain| == k + 1 && chain[0] == old_ && chain[k] == new_
    && SingleJoins(chain)
  }

  /** A record is another with k delegates appended exactly when k single joins lead from one to the other. */
  lemma AppendIffChain(old_: ChannelRecord, new_: ChannelRecord, k: nat)
    requires k >= 1
    ensures (DelegatesAppended(old_, new_) && new_.delegateCount == old_.delegateCount + k)
            <==> exists chain :: JoinChain(old_, new_, k, chain)
  {
    if DelegatesAppended(old_, new_) && new_.delegateCount == old_.delegateCount + k {
      var chain := AppendIsChain(old_, new_);
      assert JoinChain(old_, new_, k, chain);
    }
    if chain :| JoinChain(old_, new_, k, chain) {
      ChainIsAppend(chain);
    }
  }

  // The new record is the old one with these identities written after its active slots, and otherwise the same.
  ghost predicate Appends(old_: ChannelRecord, new_: ChannelRecord, joined: seq<Bytes32>) {
    var active := Boundary(old_);
    && joined != [] && active + |joined| <= 1024
    && (new_.channelId, new_.memberCount, new_.setVersion, new_.status, new_.bpMemberSlot)
       == (old_.channelId, old_.memberCount, old_.setVersion, old_.status, old_.bpMemberSlot)
    && new_.delegateCount == old_.delegateCount + |joined|
    && old_.memberPks == old_.memberPks[..active] + Vacant(1024 - active)
    && new_.memberPks == old_.memberPks[..active] + joined + Vacant(1024 - active - |joined|)
    && (forall i :: 0 <= i < |joined| ==> joined[i] != 0 && joined[i] !in old_.memberPks[..active])
    && forall i, j :: 0 <= i < j < |joined| ==> joined[i] != joined[j]
  }

  function Vacant(n: nat): (s: seq<Bytes32>)
    ensures |s| == n && forall i :: 0 <= i < n ==> s[i] == 0
  {
    seq(n, _ => 0)
  }

  /** Exactly the joins that write new, nonzero, distinct identities into the vacant slots after the active ones. */
  lemma AppendIsConcatenation(old_: ChannelRecord, new_: ChannelRecord)
    ensures DelegatesAppended(old_, new_) <==> exists joined :: Appends(old_, new_, joined)
  {
    if DelegatesAppended(old_, new_) {
      var joined := new_.memberPks[Boundary(old_)..Boundary(new_)];
      AppendedWrites(old_, new_, joined);
    }
    if joined :| Appends(old_, new_, joined) {
      WritesAppended(old_, new_, joined);
    }
  }

  lemma AppendedWrites(old_: ChannelRecord, new_: ChannelRecord, joined: seq<Bytes32>)
    requires DelegatesAppended(old_, new_) && joined == new_.memberPks[Boundary(old_)..Boundary(new_)]
    ensures Appends(old_, new_, joined)
  {
    var active, vacant := Boundary(old_), 1024 - Boundary(new_);
    forall slot | 0 <= slot < 1024
      ensures old_.memberPks[slot] == (old_.memberPks[..active] + Vacant(1024 - active))[slot]
      ensures new_.memberPks[slot] == (old_.memberPks[..active] + joined + Vacant(vacant))[slot]
    {
      assert SlotAccepted(old_, new_, slot);
    }
    forall i | 0 <= i < |joined| ensures joined[i] != 0 && joined[i] !in old_.memberPks[..active] {
      assert SlotAccepted(old_, new_, active + i);
      forall other | 0 <= other < active ensures old_.memberPks[other] != joined[i] {
        assert SlotAccepted(old_, new_, other);
      }
    }
    forall i, j | 0 <= i < j < |joined| ensures joined[i] != joined[j] {
      assert SlotAccepted(old_, new_, active + i);
    }
  }

  lemma WritesAppended(old_: ChannelRecord, new_: ChannelRecord, joined: seq<Bytes32>)
    requires Appends(old_, new_, joined)
    ensures DelegatesAppended(old_, new_)
  {
    var active := Boundary(old_);
    forall slot | 0 <= slot < MAX_CHANNEL_MEMBERS ensures SlotAccepted(old_, new_, slot) {
      assert old_.memberPks[slot] == (old_.memberPks[..active] + Vacant(1024 - active))[slot];
      assert new_.memberPks[slot]
          == (old_.memberPks[..active] + joined + Vacant(1024 - active - |joined|))[slot];
      if active <= slot < active + |joined| {
        var now := joined[slot - active];
        forall other | 0 <= other < Boundary(new_) && other != slot ensures new_.memberPks[other] != now {
          if other < active {
            assert new_.memberPks[other] == old_.memberPks[..active][other];
          } else {
            assert new_.memberPks[other] == joined[other - active];
          }
        }
      }
    }
  }

  predicate DistinctIdentities(r: ChannelRecord) {
    && Boundary(r) <= MAX_CHANNEL_MEMBERS
    && (forall s :: 0 <= s < Boundary(r) ==> r.memberPks[s] != 0)
    && forall s, t :: 0 <= s < t < Boundary(r) ==> r.memberPks[s] != r.memberPks[t]
  }

  /** Joins keep active identities nonzero and pairwise distinct, and never move or reuse an existing slot. */
  lemma AppendKeepsIdentities(old_: ChannelRecord, new_: ChannelRecord)
    requires DelegatesAppended(old_, new_)
    requires DistinctIdentities(old_)
    ensures DistinctIdentities(new_)
    ensures new_.memberPks[..Boundary(old_)] == old_.memberPks[..Boundary(old_)]
  {
    forall s | 0 <= s < Boundary(new_)
      ensures new_.memberPks[s] != 0
    {
      assert SlotAccepted(old_, new_, s);
    }
    forall s, t | 0 <= s < t < Boundary(new_)
      ensures new_.memberPks[s] != new_.memberPks[t]
    {
      assert SlotAccepted(old_, new_, s) && SlotAccepted(old_, new_, t);
    }
    forall s | 0 <= s < Boundary(old_)
      ensures new_.memberPks[s] == old_.memberPks[s]
    {
      assert SlotAccepted(old_, new_, s);
    }
  }
}
