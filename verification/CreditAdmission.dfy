/**
  Exactly which starting states, transitions and credits the bounds accept, as arithmetic on funds, bounds and
  plaintexts; and an accepted credit is never stuck for evidence.
*/
module CreditAdmission {
  import opened Wrappers
  import opened MachineWords
  import opened ChannelTypes
  import opened ChannelCreditSafety
  import opened CreditSoundness

  // ---------- exactly which steps are accepted ----------

  // The state's ids agree and its counts are within the fixed table.
  predicate Sized(s: ChannelState) {
    && s.balance.channelId == s.channelId && s.fund.channelId == s.channelId && |s.balance.encBalances| == 1024
    && 1 <= s.balance.memberCount + s.balance.delegateCount <= 1024 && 1 <= s.balance.tokenCount <= 10
  }

  // The bounds are of this very state, with zero in every cell that is not active.
  predicate Belongs(b: Bounds, s: ChannelState)
    requires ShapedBounds(b)
  {
    && b.schema == 1 && b.channelId == s.channelId && b.stateDigest == s.digest && |b.rows| == 1024
    && forall slot, token :: 0 <= slot < 1024 && 0 <= token < 10 ==>
         (slot >= s.balance.memberCount + s.balance.delegateCount || token >= s.balance.tokenCount) ==>
         b.rows[slot][token] == Some(0)
  }

  /** Bounds are valid for a state exactly when the state is sized and they belong to it. */
  lemma ValidExactly(b: Bounds, s: ChannelState)
    ensures ValidFor(b, s) <==> Shaped(s) && ShapedBounds(b) && Sized(s) && Belongs(b, s)
  {
  }

  // The plaintext contradicts what is known of its cell: the cell's bound, or a fund that fits 64 bits.
  predicate Contradicts(bound: Bound, fund: U256, plain: u64) {
    (bound.Some? && plain > bound.value) || (fund < U64_LIMIT && plain > fund)
  }

  // The cell's ciphertext or its slot's key differs between the two states.
  predicate Touched(prev: ChannelState, next: ChannelState, slot: nat, token: nat)
    requires Readable(prev) && Readable(next) && slot < MAX_CHANNEL_MEMBERS && token < MAX_CHANNEL_TOKENS
  {
    (prev.balance.encBalances[slot][token], prev.balance.regevPkDigests[slot])
    != (next.balance.encBalances[slot][token], next.balance.regevPkDigests[slot])
  }

  // Every touched cell of the token had a known bound.
  predicate AllKnown(b: Bounds, prev: ChannelState, next: ChannelState, token: nat, n: nat)
    requires ValidFor(b, prev) && Readable(next) && token < MAX_CHANNEL_TOKENS && n <= MAX_CHANNEL_MEMBERS
  {
    forall slot :: 0 <= slot < n && Touched(prev, next, slot, token) ==> b.rows[slot][token].Some?
  }

  // All that can have reached a touched cell of the token: growth of the fund, what was allocated, and their bounds.
  function Reach(b: Bounds, prev: ChannelState, next: ChannelState, token: nat, n: nat): nat
    requires ValidFor(b, prev) && Readable(next) && token < MAX_CHANNEL_TOKENS && n <= MAX_CHANNEL_MEMBERS
  {
    if n == 0 then Growth(next.fund.amounts[token], prev.fund.amounts[token])
                   + Growth(prev.unallocated, next.unallocated)
    else Reach(b, prev, next, token, n - 1)
         + if Touched(prev, next, n - 1, token) && b.rows[n - 1][token].Some? then b.rows[n - 1][token].value else 0
  }

  /** A token's pool is the total that can have reached its touched cells, known when all is and 64 bits hold it. */
  lemma {:induction false} PoolIsReach(b: Bounds, prev: ChannelState, next: ChannelState, token: nat, n: nat)
    requires ValidFor(b, prev) && Readable(next) && token < MAX_CHANNEL_TOKENS && n <= MAX_CHANNEL_MEMBERS
    ensures PoolUpTo(b, prev, next, token, n)
            == if AllKnown(b, prev, next, token, n) && Reach(b, prev, next, token, n) < U64_LIMIT
               then Some(Reach(b, prev, next, token, n)) else None
  {
    if n == 0 {
      if next.fund.amounts[token] > prev.fund.amounts[token] {
        AsU64IsRangeCheck(next.fund.amounts[token] - prev.fund.amounts[token]);
      }
      if prev.unallocated > next.unallocated {
        AsU64IsRangeCheck(prev.unallocated - next.unallocated);
      }
    } else {
      PoolIsReach(b, prev, next, token, n - 1);
      assert Changed(prev, next, n - 1, token) <==> Touched(prev, next, n - 1, token);
    }
  }

  // What is known of a cell before looking at plaintexts: its old bound, or all that can have reached it.
  function KnownBound(b: Bounds, prev: ChannelState, next: ChannelState, slot: nat, token: nat): Bound
    requires ValidFor(b, prev) && Readable(next) && slot < MAX_CHANNEL_MEMBERS && token < MAX_CHANNEL_TOKENS
  {
    if !Touched(prev, next, slot, token) then b.rows[slot][token]
    else if AllKnown(b, prev, next, token, 1024) && Reach(b, prev, next, token, 1024) < U64_LIMIT
    then Some(Reach(b, prev, next, token, 1024)) else None
  }

  // The cell passes: a touched one is claimable and bounded by something, and no plaintext contradicts.
  predicate CellFits(exitShaped: Ciphertext -> bool, b: Bounds, prev: ChannelState, next: ChannelState, owned: Owned,
                     slot: nat, token: nat)
    requires ValidFor(b, prev) && Readable(next) && slot < MAX_CHANNEL_MEMBERS && token < MAX_CHANNEL_TOKENS
  {
    var known := KnownBound(b, prev, next, slot, token);
    && (Touched(prev, next, slot, token) ==> exitShaped(next.balance.encBalances[slot][token]))
    && ((slot, token) in owned ==> !Contradicts(known, next.fund.amounts[token], owned[(slot, token)]))
    && (Touched(prev, next, slot, token) && (slot, token) !in owned ==>
          known.Some? || next.fund.amounts[token] < U64_LIMIT)
  }

  // The bound the cell ends with: the plaintext, or the least of what is known and a fund that fits 64 bits.
  predicate CellBound(bound: Bound, known: Bound, fund: U256, plain: Option<u64>) {
    match plain
    case Some(v) => bound == Some(v)
    case None =>
      if fund >= U64_LIMIT then bound == known
      else bound == Some(if known.Some? && known.value < fund then known.value else fund)
  }

  lemma CellExactly(exitShaped: Ciphertext -> bool, b: Bounds, prev: ChannelState, next: ChannelState, owned: Owned,
                    slot: nat, token: nat)
    requires ValidFor(b, prev) && Readable(next) && slot < MAX_CHANNEL_MEMBERS && token < MAX_CHANNEL_TOKENS
    ensures
      var r := AdvanceCell(exitShaped, b, prev, next, owned, slot, token);
      && (r.Ok? <==> CellFits(exitShaped, b, prev, next, owned, slot, token))
      && (r.Ok? ==> CellBound(r.value, KnownBound(b, prev, next, slot, token), next.fund.amounts[token],
                              OwnedAt(owned, slot, token)))
  {
    AsU64IsRangeCheck(next.fund.amounts[token]);
    PoolIsReach(b, prev, next, token, MAX_CHANNEL_MEMBERS);
    assert Changed(prev, next, slot, token) <==> Touched(prev, next, slot, token);
  }

  // The two states are one transition of one channel, and every plaintext is of an active cell.
  predicate StepFits(b: Bounds, prev: ChannelState, next: ChannelState, owned: Owned)
    requires Shaped(prev) && Shaped(next) && ShapedBounds(b)
  {
    && Sized(prev) && Belongs(b, prev) && Sized(next)
    && next.channelId == prev.channelId && next.prevDigest == prev.digest
    && prev.balance.tokenCount <= next.balance.tokenCount
    && (forall t :: 0 <= t < prev.balance.tokenCount ==> next.balance.tokenRegistry[t] == prev.balance.tokenRegistry[t])
    && forall cell :: cell in owned ==>
         cell.0 < next.balance.memberCount + next.balance.delegateCount && cell.1 < next.balance.tokenCount
  }

  lemma StepFitsExactly(b: Bounds, prev: ChannelState, next: ChannelState, owned: Owned)
    requires Shaped(prev) && Shaped(next) && ShapedBounds(b)
    ensures StepFits(b, prev, next, owned) <==>
              && ValidateFor(b, prev).None? && LayoutValid(next) && OwnedActive(owned, next)
              && next.channelId == prev.channelId && next.prevDigest == prev.digest && RegistryKept(prev, next)
  {
    ValidExactly(b, prev);
    if Sized(prev) && prev.balance.tokenCount <= next.balance.tokenCount && Sized(next) {
      var n := prev.balance.tokenCount;
      var p, q := prev.balance.tokenRegistry, next.balance.tokenRegistry;
      assert q[..n] == p[..n] <==> forall t :: 0 <= t < n ==> q[t] == p[t] by {
        assert forall t :: 0 <= t < n ==> q[..n][t] == q[t] && p[..n][t] == p[t];
      }
    }
  }

  /**
    A step is accepted exactly when the two states are one transition of one channel and every active cell passes;
    then the new bounds belong to the new state, and each active cell has exactly its plaintext, or the least of what
    can have reached it (its old bound, if untouched) and the fund.
  */
  lemma AdvanceAcceptedIff(exitShaped: Ciphertext -> bool, b: Bounds, prev: ChannelState, next: ChannelState,
                           owned: Owned)
    requires Shaped(prev) && Shaped(next) && ShapedBounds(b)
    ensures
      var r := Advance(exitShaped, b, prev, next, owned);
      && (r.Ok? <==>
            && StepFits(b, prev, next, owned)
            && ValidFor(b, prev) && Readable(next)
            && forall slot, token {:trigger CellFits(exitShaped, b, prev, next, owned, slot, token)} ::
                 0 <= slot < Participants(next) && 0 <= token < next.balance.tokenCount ==>
                 CellFits(exitShaped, b, prev, next, owned, slot, token))
      && (r.Ok? ==>
            && Belongs(r.value, next)
            && forall slot, token {:trigger r.value.rows[slot][token]} ::
                 0 <= slot < Participants(next) && 0 <= token < next.balance.tokenCount ==>
                 CellBound(r.value.rows[slot][token], KnownBound(b, prev, next, slot, token),
                           next.fund.amounts[token], OwnedAt(owned, slot, token)))
  {
    StepFitsExactly(b, prev, next, owned);
    if StepFits(b, prev, next, owned) {
      ValidExactly(b, prev);
      var r, cell := Advance(exitShaped, b, prev, next, owned), AdvanceCells(exitShaped, b, prev, next, owned);
      var slots, tokens := Participants(next), next.balance.tokenCount;
      forall slot, token | 0 <= slot < slots && 0 <= token < tokens
        ensures cell(slot, token).Ok? <==> CellFits(exitShaped, b, prev, next, owned, slot, token)
        ensures cell(slot, token).Ok? ==>
                  CellBound(cell(slot, token).value, KnownBound(b, prev, next, slot, token),
                            next.fund.amounts[token], OwnedAt(owned, slot, token))
      {
        CellExactly(exitShaped, b, prev, next, owned, slot, token);
      }
      TabulatedExactly(cell, next, r);
    }
  }

  lemma TabulatedExactly(cell: CellFunction, s: ChannelState, r: Result<Bounds, CreditError>)
    requires Readable(s) && r == Tabulate(cell, s)
    ensures r.Ok? <==> forall slot, token {:trigger cell(slot, token)} ::
              0 <= slot < Participants(s) && 0 <= token < s.balance.tokenCount ==> cell(slot, token).Ok?
    ensures r.Ok? ==> ShapedBounds(r.value) && Belongs(r.value, s)
    ensures r.Ok? ==> forall slot, token {:trigger r.value.rows[slot][token]} ::
              0 <= slot < Participants(s) && 0 <= token < s.balance.tokenCount ==>
              cell(slot, token).Ok? && r.value.rows[slot][token] == cell(slot, token).value
  {
    var slots, tokens := Participants(s), s.balance.tokenCount;
    if r.Ok? {
      forall slot, token | 0 <= slot < slots && 0 <= token < tokens ensures cell(slot, token).Ok? {
        TableErrorNone(cell, slots, tokens, slot, token);
      }
      forall slot, token | 0 <= slot < 1024 && 0 <= token < 10
        ensures r.value.rows[slot][token] == Entry(cell, slots, tokens, slot, token)
      {
      }
    } else {
      var slot, token := TableErrorSome(cell, slots, tokens);
      assert cell(slot, token).Err?;
    }
  }

  /**
    Starting bounds exist exactly for a sized state whose plaintexts are of active cells and within every fund that
    fits 64 bits; each active cell then has its plaintext, or the fund if it fits.
  */
  lemma BootstrapExactly(s: ChannelState, owned: Owned)
    requires Shaped(s)
    ensures
      var r := Bootstrap(s, owned);
      && (r.Ok? <==>
            && Sized(s)
            && forall cell {:trigger owned[cell]} :: cell in owned ==>
                 && cell.0 < s.balance.memberCount + s.balance.delegateCount && cell.1 < s.balance.tokenCount
                 && (s.fund.amounts[cell.1] < U64_LIMIT ==> owned[cell] <= s.fund.amounts[cell.1]))
      && (r.Ok? ==>
            && ShapedBounds(r.value) && Belongs(r.value, s)
            && forall slot, token {:trigger r.value.rows[slot][token]} ::
                 0 <= slot < Participants(s) && 0 <= token < s.balance.tokenCount ==>
                 CellBound(r.value.rows[slot][token], None, s.fund.amounts[token], OwnedAt(owned, slot, token)))
  {
    assert LayoutValid(s) <==> Sized(s);
    if Sized(s) && OwnedActive(owned, s) {
      var r, cell := Bootstrap(s, owned), BootstrapCells(s, owned);
      forall slot, token | 0 <= slot < Participants(s) && 0 <= token < s.balance.tokenCount
        ensures cell(slot, token).Ok? <==>
                  ((slot, token) in owned && s.fund.amounts[token] < U64_LIMIT ==>
                     owned[(slot, token)] <= s.fund.amounts[token])
        ensures cell(slot, token).Ok? ==>
                  CellBound(cell(slot, token).value, None, s.fund.amounts[token], OwnedAt(owned, slot, token))
      {
        AsU64IsRangeCheck(s.fund.amounts[token]);
      }
      TabulatedExactly(cell, s, r);
      if r.Ok? {
        forall key | key in owned && s.fund.amounts[key.1] < U64_LIMIT ensures owned[key] <= s.fund.amounts[key.1] {
          assert key == (key.0, key.1);
          assert cell(key.0, key.1).Ok?;
        }
      }
    }
  }

  lemma {:induction false} FirstRowError(cell: CellFunction, slot: nat, tokens: nat) returns (t: nat)
    requires RowError(cell, slot, tokens).Some?
    ensures t < tokens && cell(slot, t) == Err(RowError(cell, slot, tokens).value)
    ensures forall k :: 0 <= k < t ==> cell(slot, k).Ok?
  {
    if RowError(cell, slot, tokens - 1).Some? {
      t := FirstRowError(cell, slot, tokens - 1);
    } else {
      t := tokens - 1;
      forall k | 0 <= k < t ensures cell(slot, k).Ok? {
        RowErrorNone(cell, slot, tokens - 1, k);
      }
    }
  }

  lemma {:induction false} FirstTableError(cell: CellFunction, slots: nat, tokens: nat) returns (s: nat, t: nat)
    requires TableError(cell, slots, tokens).Some?
    ensures s < slots && t < tokens && cell(s, t) == Err(TableError(cell, slots, tokens).value)
    ensures forall i, k :: 0 <= i && 0 <= k < tokens && (i < s || (i == s && k < t)) ==> cell(i, k).Ok?
  {
    if TableError(cell, slots - 1, tokens).Some? {
      s, t := FirstTableError(cell, slots - 1, tokens);
    } else {
      s := slots - 1;
      t := FirstRowError(cell, s, tokens);
      forall i, k | 0 <= i < s && 0 <= k < tokens ensures cell(i, k).Ok? {
        TableErrorNone(cell, s, tokens, i, k);
      }
    }
  }

  // Why a cell is refused: its ciphertext, then its plaintext, then missing evidence.
  function CellError(exitShaped: Ciphertext -> bool, b: Bounds, prev: ChannelState, next: ChannelState, owned: Owned,
                     slot: nat, token: nat): CreditError
    requires ValidFor(b, prev) && Readable(next) && slot < MAX_CHANNEL_MEMBERS && token < MAX_CHANNEL_TOKENS
  {
    if Touched(prev, next, slot, token) && !exitShaped(next.balance.encBalances[slot][token])
    then UnclaimableCiphertext(slot, token)
    else if (slot, token) in owned then InconsistentPlaintext(slot, token)
    else RangeEvidenceRequired(slot, token)
  }

  /** A refused transition of one channel names the first active cell, row by row, that does not pass, and why. */
  lemma RefusalNamesFirstCell(exitShaped: Ciphertext -> bool, b: Bounds, prev: ChannelState, next: ChannelState,
                              owned: Owned) returns (slot: nat, token: nat)
    requires Shaped(prev) && Shaped(next) && ShapedBounds(b) && StepFits(b, prev, next, owned)
    requires Advance(exitShaped, b, prev, next, owned).Err?
    ensures ValidFor(b, prev) && Readable(next) && slot < Participants(next) && token < next.balance.tokenCount
    ensures !CellFits(exitShaped, b, prev, next, owned, slot, token)
    ensures forall i, k :: 0 <= i && 0 <= k < next.balance.tokenCount && (i < slot || (i == slot && k < token)) ==>
              CellFits(exitShaped, b, prev, next, owned, i, k)
    ensures Advance(exitShaped, b, prev, next, owned)
            == Err(CellError(exitShaped, b, prev, next, owned, slot, token))
  {
    StepFitsExactly(b, prev, next, owned);
    ValidExactly(b, prev);
    var cell := AdvanceCells(exitShaped, b, prev, next, owned);
    slot, token := FirstTableError(cell, Participants(next), next.balance.tokenCount);
    CellExactly(exitShaped, b, prev, next, owned, slot, token);
    CellErrorExactly(exitShaped, b, prev, next, owned, slot, token);
    forall i, k | 0 <= i && 0 <= k < next.balance.tokenCount && (i < slot || (i == slot && k < token))
      ensures CellFits(exitShaped, b, prev, next, owned, i, k)
    {
      assert cell(i, k).Ok?;
      CellExactly(exitShaped, b, prev, next, owned, i, k);
    }
  }

  lemma CellErrorExactly(exitShaped: Ciphertext -> bool, b: Bounds, prev: ChannelState, next: ChannelState,
                         owned: Owned, slot: nat, token: nat)
    requires ValidFor(b, prev) && Readable(next) && slot < MAX_CHANNEL_MEMBERS && token < MAX_CHANNEL_TOKENS
    requires AdvanceCell(exitShaped, b, prev, next, owned, slot, token).Err?
    ensures AdvanceCell(exitShaped, b, prev, next, owned, slot, token).error
            == CellError(exitShaped, b, prev, next, owned, slot, token)
  {
    assert Changed(prev, next, slot, token) <==> Touched(prev, next, slot, token);
  }

  // ---------- credits ----------

  // The two states differ in one cell's ciphertext at most, and otherwise only as stated.
  predicate SameLayout(prev: ChannelState, next: ChannelState) {
    && Readable(prev) && Readable(next)
    && next.channelId == prev.channelId && next.prevDigest == prev.digest
    && Participants(next) == Participants(prev) && next.balance.tokenCount == prev.balance.tokenCount
    && next.balance.tokenRegistry == prev.balance.tokenRegistry
    && next.balance.regevPkDigests == prev.balance.regevPkDigests
  }

  predicate OnlyCellChanges(prev: ChannelState, next: ChannelState, slot: nat, token: nat)
    requires Readable(prev) && Readable(next)
  {
    forall s, t :: 0 <= s < MAX_CHANNEL_MEMBERS && 0 <= t < MAX_CHANNEL_TOKENS && (s, t) != (slot, token) ==>
      next.balance.encBalances[s][t] == prev.balance.encBalances[s][t]
  }

  predicate FundGrows(prev: ChannelState, next: ChannelState, token: nat, amount: nat)
    requires Readable(prev) && Readable(next)
  {
    forall t :: 0 <= t < MAX_CHANNEL_TOKENS ==>
      next.fund.amounts[t] == prev.fund.amounts[t] + if t == token then amount else 0
  }

  // The whole credit in one state: fund and recipient cell together.
  predicate CreditedAtOnce(prev: ChannelState, next: ChannelState, slot: nat, token: nat, amount: u64) {
    && SameLayout(prev, next) && OnlyCellChanges(prev, next, slot, token)
    && FundGrows(prev, next, token, amount) && next.unallocated == prev.unallocated
  }

  // First half of an import: fund and unallocated grow, no balance moves.
  predicate Received(prev: ChannelState, next: ChannelState, token: nat, amount: u64) {
    && SameLayout(prev, next) && next.balance.encBalances == prev.balance.encBalances
    && FundGrows(prev, next, token, amount) && next.unallocated == prev.unallocated + amount
  }

  // Second half: the unallocated value moves into the recipient's cell.
  predicate Allocated(prev: ChannelState, next: ChannelState, slot: nat, token: nat, amount: u64) {
    && SameLayout(prev, next) && OnlyCellChanges(prev, next, slot, token)
    && FundGrows(prev, next, token, 0) && prev.unallocated == next.unallocated + amount
  }

  lemma {:induction false} LonePool(b: Bounds, prev: ChannelState, next: ChannelState, slot: nat, token: nat, n: nat)
    requires Comparable(b, prev, next) && SameLayout(prev, next) && OnlyCellChanges(prev, next, slot, token)
    requires slot < MAX_CHANNEL_MEMBERS && token < MAX_CHANNEL_TOKENS && n <= MAX_CHANNEL_MEMBERS
    requires Changed(prev, next, slot, token)
    ensures PoolUpTo(b, prev, next, token, n)
            == if slot < n then AddBounds(PoolUpTo(b, prev, next, token, 0), b.rows[slot][token])
               else PoolUpTo(b, prev, next, token, 0)
  {
    if n > 0 {
      LonePool(b, prev, next, slot, token, n - 1);
    }
  }

  lemma AmountFlow(prev: ChannelState, next: ChannelState, token: nat, amount: u64)
    requires Readable(prev) && Readable(next) && token < MAX_CHANNEL_TOKENS
    requires Growth(next.fund.amounts[token], prev.fund.amounts[token]) 
             + Growth(prev.unallocated, next.unallocated) == amount
    ensures AddBounds(PositiveDifference(next.fund.amounts[token], prev.fund.amounts[token]),
                      PositiveDifference(prev.unallocated, next.unallocated)) == Some(amount)
  {
    if next.fund.amounts[token] > prev.fund.amounts[token] {
      AsU64IsRangeCheck(next.fund.amounts[token] - prev.fund.amounts[token]);
    }
    if prev.unallocated > next.unallocated {
      AsU64IsRangeCheck(prev.unallocated - next.unallocated);
    }
  }

  // ---------- when a credit is accepted ----------

  /**
    The pre-check answers exactly from the numbers. Without a plaintext it accepts if and only if the known bound or
    the fund leaves 64-bit room for the amount; with one, if and only if the plaintext contradicts nothing and it or
    the fund leaves room. A fund beyond 64 bits alone is no reason to refuse.
  */
  lemma CanCreditExactly(b: Bounds, s: ChannelState, slot: nat, token: nat, amount: u64, owned: Option<u64>)
    requires ValidFor(b, s) && IsActive(s, slot, token)
    ensures
      var (bound, fund, answer) := (b.rows[slot][token], s.fund.amounts[token],
                                    CanCredit(b, s, slot, token, amount, owned));
      match owned
      case None =>
        answer == if (bound.Some? && bound.value + amount < U64_LIMIT) || fund + amount < U64_LIMIT then None
                  else Some(RangeEvidenceRequired(slot, token))
      case Some(plain) =>
        answer == if Contradicts(bound, fund, plain) then Some(InconsistentPlaintext(slot, token))
                  else if plain + amount < U64_LIMIT || fund + amount < U64_LIMIT then None
                  else Some(RangeEvidenceRequired(slot, token))
  {
    AsU64IsRangeCheck(s.fund.amounts[token]);
  }

  // The recipient's bound or the fund leaves room for the amount: what accepting a credit amounts to.
  predicate Room(b: Bounds, s: ChannelState, fund: U256, slot: nat, token: nat, amount: nat)
    requires ValidFor(b, s) && slot < MAX_CHANNEL_MEMBERS && token < MAX_CHANNEL_TOKENS
  {
    (b.rows[slot][token].Some? && b.rows[slot][token].value + amount < U64_LIMIT) || fund < U64_LIMIT
  }

  lemma CanCreditMeansRoom(b: Bounds, s: ChannelState, slot: nat, token: nat, amount: u64)
    requires Shaped(s) && ShapedBounds(b) && CanCredit(b, s, slot, token, amount, None) == None
    ensures ValidFor(b, s) && IsActive(s, slot, token)
    ensures s.fund.amounts[token] + amount < U256_LIMIT ==>
        Room(b, s, s.fund.amounts[token] + amount, slot, token, amount)
  {
    CanCreditExactly(b, s, slot, token, amount, None);
  }

  // A transition that touches at most the recipient's cell, with room there, is accepted.
  lemma RoomAccepts(exitShaped: Ciphertext -> bool, b: Bounds, prev: ChannelState, next: ChannelState, slot: nat,
                    token: nat, amount: u64)
    requires ValidFor(b, prev) && SameLayout(prev, next) && OnlyCellChanges(prev, next, slot, token)
        && IsActive(next, slot, token)
    requires exitShaped(next.balance.encBalances[slot][token])
    requires Growth(next.fund.amounts[token], prev.fund.amounts[token]) 
             + Growth(prev.unallocated, next.unallocated) == amount
    requires Room(b, prev, next.fund.amounts[token], slot, token, amount)
    ensures Advance(exitShaped, b, prev, next, map[]).Ok?
  {
    var cell := AdvanceCells(exitShaped, b, prev, next, map[]);
    if Changed(prev, next, slot, token) {
      LonePool(b, prev, next, slot, token, MAX_CHANNEL_MEMBERS);
      AmountFlow(prev, next, token, amount);
      AsU64IsRangeCheck(next.fund.amounts[token]);
      assert cell(slot, token).Ok?;
    }
    forall s, t | 0 <= s < Participants(next) && 0 <= t < next.balance.tokenCount ensures cell(s, t).Ok? {
      assert (s, t) != (slot, token) ==> !Changed(prev, next, s, t);
    }
    TabulatedExactly(cell, next, Advance(exitShaped, b, prev, next, map[]));
  }

  /** An accepted credit goes through in one step: the successor bounds exist, no evidence is missing. */
  lemma CreditAtOnceAccepted(exitShaped: Ciphertext -> bool, b: Bounds, prev: ChannelState, next: ChannelState,
                             slot: nat, token: nat, amount: u64)
    requires Shaped(prev) && ShapedBounds(b) && CanCredit(b, prev, slot, token, amount, None) == None
    requires CreditedAtOnce(prev, next, slot, token, amount) && exitShaped(next.balance.encBalances[slot][token])
    ensures Advance(exitShaped, b, prev, next, map[]).Ok?
  {
    CanCreditMeansRoom(b, prev, slot, token, amount);
    RoomAccepts(exitShaped, b, prev, next, slot, token, amount);
  }

  /**
    A credit accepted on an owned plaintext goes through in one step that changes the recipient's ciphertext, with the
    grown plaintext as its evidence, and leaves that plaintext as the exact bound.
  */
  lemma CreditWithPlaintextAccepted(exitShaped: Ciphertext -> bool, b: Bounds, prev: ChannelState, next: ChannelState,
                                    slot: nat, token: nat, amount: u64, plain: u64)
    requires Shaped(prev) && ShapedBounds(b) && CanCredit(b, prev, slot, token, amount, Some(plain)) == None
    requires CreditedAtOnce(prev, next, slot, token, amount) && exitShaped(next.balance.encBalances[slot][token])
    requires next.balance.encBalances[slot][token] != prev.balance.encBalances[slot][token]
    ensures plain + amount < U64_LIMIT
    ensures
      var r := Advance(exitShaped, b, prev, next, map[(slot, token) := plain + amount]);
      r.Ok? && r.value.rows[slot][token] == Some(plain + amount)
  {
    CanCreditExactly(b, prev, slot, token, amount, Some(plain));
    var grown: Owned := map[(slot, token) := plain + amount];
    var cell := AdvanceCells(exitShaped, b, prev, next, grown);
    LonePool(b, prev, next, slot, token, MAX_CHANNEL_MEMBERS);
    AmountFlow(prev, next, token, amount);
    AsU64IsRangeCheck(next.fund.amounts[token]);
    assert cell(slot, token) == Ok(Some(plain + amount));
    forall s, t | 0 <= s < Participants(next) && 0 <= t < next.balance.tokenCount ensures cell(s, t).Ok? {
      assert (s, t) != (slot, token) ==> !Changed(prev, next, s, t);
    }
    TabulatedExactly(cell, next, Advance(exitShaped, b, prev, next, grown));
  }

  /** An accepted credit goes through as a two-step import: receive, then allocate. */
  lemma ImportAccepted(exitShaped: Ciphertext -> bool, b: Bounds, prev: ChannelState, mid: ChannelState,
                       next: ChannelState, slot: nat, token: nat, amount: u64)
    requires Shaped(prev) && ShapedBounds(b) && CanCredit(b, prev, slot, token, amount, None) == None
    requires Received(prev, mid, token, amount) && Allocated(mid, next, slot, token, amount)
    requires exitShaped(next.balance.encBalances[slot][token])
    ensures Advance(exitShaped, b, prev, mid, map[]).Ok?
    ensures ShapedBounds(Advance(exitShaped, b, prev, mid, map[]).value)
            && Advance(exitShaped, Advance(exitShaped, b, prev, mid, map[]).value, mid, next, map[]).Ok?
  {
    CanCreditMeansRoom(b, prev, slot, token, amount);
    ReceiveAccepted(exitShaped, b, prev, mid, slot, token);
    var received := Advance(exitShaped, b, prev, mid, map[]).value;
    AsU64IsRangeCheck(mid.fund.amounts[token]);
    RoomAccepts(exitShaped, received, mid, next, slot, token, amount);
  }

  // A transition that touches no cell is accepted, and only tightens bounds to the fund.
  lemma ReceiveAccepted(exitShaped: Ciphertext -> bool, b: Bounds, prev: ChannelState, next: ChannelState, slot: nat,
                        token: nat)
    requires ValidFor(b, prev) && SameLayout(prev, next) && next.balance.encBalances == prev.balance.encBalances
    requires IsActive(prev, slot, token)
    ensures
      var r := Advance(exitShaped, b, prev, next, map[]);
      r.Ok? && ValidFor(r.value, next)
      && r.value.rows[slot][token] == Tighter(b.rows[slot][token], AsU64(next.fund.amounts[token]))
  {
    var cell := AdvanceCells(exitShaped, b, prev, next, map[]);
    forall s, t | 0 <= s < MAX_CHANNEL_MEMBERS && 0 <= t < MAX_CHANNEL_TOKENS
      ensures cell(s, t) == Ok(Tighter(b.rows[s][t], AsU64(next.fund.amounts[t])))
    {
      assert !Changed(prev, next, s, t);
      assert cell(s, t) == AdvanceCell(exitShaped, b, prev, next, map[], s, t);
    }
    TabulatedExactly(cell, next, Advance(exitShaped, b, prev, next, map[]));
    ValidExactly(Advance(exitShaped, b, prev, next, map[]).value, next);
  }
}
