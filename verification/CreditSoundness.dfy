/** The credit bounds dominate the hidden balances over every run. */
module CreditSoundness {
  import opened Wrappers
  import opened MachineWords
  import opened ChannelTypes
  import opened ChannelCreditSafety

  // What a ciphertext opens to under the key a digest names; only ever compared, never computed.
  type Opening = (Ciphertext, Bytes32) -> nat

  predicate Readable(s: ChannelState) { Shaped(s) && LayoutValid(s) }

  function Plain(open: Opening, s: ChannelState, slot: nat, token: nat): nat
    requires Readable(s) && slot < MAX_CHANNEL_MEMBERS && token < MAX_CHANNEL_TOKENS
  {
    open(s.balance.encBalances[slot][token], s.balance.regevPkDigests[slot])
  }

  function Sum(open: Opening, s: ChannelState, token: nat, n: nat): nat
    requires Readable(s) && token < MAX_CHANNEL_TOKENS && n <= MAX_CHANNEL_MEMBERS
  {
    if n == 0 then 0 else Sum(open, s, token, n - 1) + Plain(open, s, n - 1, token)
  }

  function Growth(a: U256, b: U256): nat { if a > b then a - b else 0 }

  // A state the caller has authenticated: balances within the fund, padding zero.
  predicate Backed(open: Opening, s: ChannelState) {
    && Readable(s)
    && (forall token :: 0 <= token < MAX_CHANNEL_TOKENS ==>
         Sum(open, s, token, MAX_CHANNEL_MEMBERS) <= s.fund.amounts[token])
    && forall slot, token ::
         0 <= slot < MAX_CHANNEL_MEMBERS && 0 <= token < MAX_CHANNEL_TOKENS && !IsActive(s, slot, token) ==>
         Plain(open, s, slot, token) == 0
  }

  // A transition the caller has authenticated: per token, balances grow only from fund growth or allocation.
  predicate Conserves(open: Opening, prev: ChannelState, next: ChannelState)
    requires Readable(prev) && Readable(next)
  {
    forall token {:trigger Sum(open, next, token, MAX_CHANNEL_MEMBERS)} :: 0 <= token < MAX_CHANNEL_TOKENS ==>
      Sum(open, next, token, MAX_CHANNEL_MEMBERS)
      <= Sum(open, prev, token, MAX_CHANNEL_MEMBERS) + Growth(next.fund.amounts[token], prev.fund.amounts[token])
         + Growth(prev.unallocated, next.unallocated)
  }

  // Owned plaintexts come from real decryptions of this very state.
  predicate Truthful(open: Opening, owned: Owned, s: ChannelState)
    requires Readable(s)
  {
    forall slot, token ::
      0 <= slot < MAX_CHANNEL_MEMBERS && 0 <= token < MAX_CHANNEL_TOKENS && (slot, token) in owned ==>
      owned[(slot, token)] == Plain(open, s, slot, token)
  }

  predicate Dominates(bound: Bound, value: nat) { bound.Some? ==> value <= bound.value }

  // Every known bound dominates its hidden balance.
  predicate SoundFor(open: Opening, b: Bounds, s: ChannelState) {
    && ValidFor(b, s)
    && forall slot, token :: 0 <= slot < MAX_CHANNEL_MEMBERS && 0 <= token < MAX_CHANNEL_TOKENS ==>
         Dominates(b.rows[slot][token], Plain(open, s, slot, token))
  }

  // ---------- pooling ----------

  // The part of a token's balances held in cells the transition touches.
  function ChangedSum(open: Opening, of: ChannelState, prev: ChannelState, next: ChannelState, token: nat, n: nat): nat
    requires Readable(of) && Readable(prev) && Readable(next) && token < MAX_CHANNEL_TOKENS && n <= MAX_CHANNEL_MEMBERS
  {
    if n == 0 then 0
    else ChangedSum(open, of, prev, next, token, n - 1)
         + if Changed(prev, next, n - 1, token) then Plain(open, of, n - 1, token) else 0
  }

  lemma {:induction false} UntouchedAgree(open: Opening, prev: ChannelState, next: ChannelState, token: nat, n: nat)
    requires Readable(prev) && Readable(next) && token < MAX_CHANNEL_TOKENS && n <= MAX_CHANNEL_MEMBERS
    ensures Sum(open, next, token, n) - ChangedSum(open, next, prev, next, token, n)
            == Sum(open, prev, token, n) - ChangedSum(open, prev, prev, next, token, n)
  {
    if n > 0 {
      UntouchedAgree(open, prev, next, token, n - 1);
    }
  }

  lemma {:induction false} ChangedCellBelow(open: Opening, prev: ChannelState, next: ChannelState, slot: nat,
                                            token: nat, n: nat)
    requires Readable(prev) && Readable(next) && token < MAX_CHANNEL_TOKENS && slot < n <= MAX_CHANNEL_MEMBERS
    requires Changed(prev, next, slot, token)
    ensures Plain(open, next, slot, token) <= ChangedSum(open, next, prev, next, token, n)
    decreases n
  {
    if slot < n - 1 {
      ChangedCellBelow(open, prev, next, slot, token, n - 1);
    }
  }

  lemma {:induction false} CellBelowSum(open: Opening, s: ChannelState, slot: nat, token: nat, n: nat)
    requires Readable(s) && token < MAX_CHANNEL_TOKENS && slot < n <= MAX_CHANNEL_MEMBERS
    ensures Plain(open, s, slot, token) <= Sum(open, s, token, n)
    decreases n
  {
    if slot < n - 1 {
      CellBelowSum(open, s, slot, token, n - 1);
    }
  }

  lemma DifferenceDominates(a: U256, b: U256)
    ensures Dominates(PositiveDifference(a, b), Growth(a, b))
  {
    if a > b {
      AsU64IsRangeCheck(a - b);
    }
  }

  // The pooled bound dominates everything the touched cells held before plus everything that may have flowed in.
  lemma {:induction false} PoolDominates(open: Opening, b: Bounds, prev: ChannelState, next: ChannelState, token: nat,
                                         n: nat)
    requires SoundFor(open, b, prev) && Readable(next) && token < MAX_CHANNEL_TOKENS && n <= MAX_CHANNEL_MEMBERS
    ensures Dominates(PoolUpTo(b, prev, next, token, n),
                      ChangedSum(open, prev, prev, next, token, n)
                      + Growth(next.fund.amounts[token], prev.fund.amounts[token])
                      + Growth(prev.unallocated, next.unallocated))
  {
    if n == 0 {
      DifferenceDominates(next.fund.amounts[token], prev.fund.amounts[token]);
      DifferenceDominates(prev.unallocated, next.unallocated);
    } else {
      PoolDominates(open, b, prev, next, token, n - 1);
      assert Dominates(b.rows[n - 1][token], Plain(open, prev, n - 1, token));
    }
  }

  // ---------- one step ----------

  // What the caller owes the bounds before advancing them.
  predicate HonestStep(open: Opening, prev: ChannelState, next: ChannelState, owned: Owned) {
    Backed(open, prev) && Backed(open, next) && Conserves(open, prev, next) && Truthful(open, owned, next)
  }

  lemma CarriedDominates(open: Opening, b: Bounds, prev: ChannelState, next: ChannelState, slot: nat, token: nat)
    requires SoundFor(open, b, prev) && Backed(open, next) && Conserves(open, prev, next)
    requires slot < MAX_CHANNEL_MEMBERS && token < MAX_CHANNEL_TOKENS
    ensures Dominates(Carried(b, prev, next, slot, token), Plain(open, next, slot, token))
  {
    if Changed(prev, next, slot, token) {
      UntouchedAgree(open, prev, next, token, MAX_CHANNEL_MEMBERS);
      ChangedCellBelow(open, prev, next, slot, token, MAX_CHANNEL_MEMBERS);
      PoolDominates(open, b, prev, next, token, MAX_CHANNEL_MEMBERS);
    }
  }

  lemma FundDominates(open: Opening, s: ChannelState, slot: nat, token: nat)
    requires Backed(open, s) && slot < MAX_CHANNEL_MEMBERS && token < MAX_CHANNEL_TOKENS
    ensures Dominates(AsU64(s.fund.amounts[token]), Plain(open, s, slot, token))
  {
    CellBelowSum(open, s, slot, token, MAX_CHANNEL_MEMBERS);
    AsU64IsRangeCheck(s.fund.amounts[token]);
  }

  lemma AdvanceCellSound(exitShaped: Ciphertext -> bool, open: Opening, b: Bounds, prev: ChannelState,
                         next: ChannelState, owned: Owned, slot: nat, token: nat)
    requires SoundFor(open, b, prev) && HonestStep(open, prev, next, owned)
    requires slot < MAX_CHANNEL_MEMBERS && token < MAX_CHANNEL_TOKENS
    ensures
      var r := AdvanceCell(exitShaped, b, prev, next, owned, slot, token);
      if r.Ok? then Dominates(r.value, Plain(open, next, slot, token)) else !r.error.InconsistentPlaintext?
  {
    CarriedDominates(open, b, prev, next, slot, token);
    FundDominates(open, next, slot, token);
    TighterIsMeet(Carried(b, prev, next, slot, token), AsU64(next.fund.amounts[token]), Plain(open, next, slot, token));
  }

  lemma BootstrapCellSound(open: Opening, s: ChannelState, owned: Owned, slot: nat, token: nat)
    requires Backed(open, s) && Truthful(open, owned, s) && slot < MAX_CHANNEL_MEMBERS && token < MAX_CHANNEL_TOKENS
    ensures
      var r := BootstrapCell(s, owned, slot, token);
      r.Ok? && Dominates(r.value, Plain(open, s, slot, token))
  {
    FundDominates(open, s, slot, token);
  }

  lemma TabulatedSound(open: Opening, cell: CellFunction, s: ChannelState, r: Result<Bounds, CreditError>)
    requires Backed(open, s) && r == Tabulate(cell, s) && r.Ok?
    requires forall slot, token ::
               0 <= slot < MAX_CHANNEL_MEMBERS && 0 <= token < MAX_CHANNEL_TOKENS && cell(slot, token).Ok? ==>
               Dominates(cell(slot, token).value, Plain(open, s, slot, token))
    ensures SoundFor(open, r.value, s)
  {
    var b, slots, tokens := r.value, Participants(s), s.balance.tokenCount;
    forall slot, token | 0 <= slot < MAX_CHANNEL_MEMBERS && 0 <= token < MAX_CHANNEL_TOKENS
      ensures b.rows[slot][token] == Entry(cell, slots, tokens, slot, token)
      ensures Dominates(b.rows[slot][token], Plain(open, s, slot, token))
      ensures !IsActive(s, slot, token) ==> b.rows[slot][token] == Some(0)
    {
      if IsActive(s, slot, token) {
        TableErrorNone(cell, slots, tokens, slot, token);
      }
    }
  }

  /** One accepted transition keeps every bound sound, and truthful decryptions never contradict the evidence. */
  lemma AdvanceSound(exitShaped: Ciphertext -> bool, open: Opening, b: Bounds, prev: ChannelState, next: ChannelState,
                     owned: Owned)
    requires SoundFor(open, b, prev) && HonestStep(open, prev, next, owned)
    ensures
      var r := Advance(exitShaped, b, prev, next, owned);
      if r.Ok? then SoundFor(open, r.value, next) else !r.error.InconsistentPlaintext?
  {
    var r, cell := Advance(exitShaped, b, prev, next, owned), AdvanceCells(exitShaped, b, prev, next, owned);
    forall slot, token | 0 <= slot < MAX_CHANNEL_MEMBERS && 0 <= token < MAX_CHANNEL_TOKENS
      ensures if cell(slot, token).Ok? then Dominates(cell(slot, token).value, Plain(open, next, slot, token))
              else !cell(slot, token).error.InconsistentPlaintext?
    {
      AdvanceCellSound(exitShaped, open, b, prev, next, owned, slot, token);
    }
    if r.Ok? {
      TabulatedSound(open, cell, next, r);
    } else if r == Tabulate(cell, next) {
      var s, t := TableErrorSome(cell, Participants(next), next.balance.tokenCount);
    }
  }

  /**
    Starting evidence is sound, and never refused, whenever the owned plaintexts are real decryptions of active
    cells.
  */
  lemma BootstrapSound(open: Opening, s: ChannelState, owned: Owned)
    requires Backed(open, s) && Truthful(open, owned, s) && OwnedActive(owned, s)
    ensures Bootstrap(s, owned).Ok? && SoundFor(open, Bootstrap(s, owned).value, s)
  {
    var cell := BootstrapCells(s, owned);
    forall slot, token | 0 <= slot < MAX_CHANNEL_MEMBERS && 0 <= token < MAX_CHANNEL_TOKENS
      ensures cell(slot, token).Ok? && Dominates(cell(slot, token).value, Plain(open, s, slot, token))
    {
      BootstrapCellSound(open, s, owned, slot, token);
    }
    if TableError(cell, Participants(s), s.balance.tokenCount).Some? {
      var slot, token := TableErrorSome(cell, Participants(s), s.balance.tokenCount);
    }
    TabulatedSound(open, cell, s, Tabulate(cell, s));
  }

  // ---------- precision ----------

  /** Combining two bounds loses nothing: the result admits exactly the values both admit. */
  lemma TighterIsMeet(a: Bound, b: Bound, value: nat)
    ensures Dominates(Tighter(a, b), value) <==> Dominates(a, value) && Dominates(b, value)
  {
  }

  /**
    What an accepted step does to each active cell: an owned plaintext becomes its exact bound; an unowned
    untouched cell never loosens; an unowned touched cell always ends with a bound.
  */
  lemma AcceptedCells(exitShaped: Ciphertext -> bool, b: Bounds, prev: ChannelState, next: ChannelState, owned: Owned,
                      slot: nat, token: nat)
    requires Shaped(prev) && Shaped(next) && ShapedBounds(b) && Advance(exitShaped, b, prev, next, owned).Ok?
    requires IsActive(next, slot, token)
    ensures Comparable(b, prev, next) && slot < MAX_CHANNEL_MEMBERS && token < MAX_CHANNEL_TOKENS
    ensures
      var bound := Advance(exitShaped, b, prev, next, owned).value.rows[slot][token];
      && ((slot, token) in owned ==> bound == Some(owned[(slot, token)]))
      && (Changed(prev, next, slot, token) ==> bound.Some? && exitShaped(next.balance.encBalances[slot][token]))
      && ((slot, token) !in owned && !Changed(prev, next, slot, token) && b.rows[slot][token].Some? ==>
            bound.Some? && bound.value <= b.rows[slot][token].value)
  {
    var cell := AdvanceCells(exitShaped, b, prev, next, owned);
    var slots, tokens := Participants(next), next.balance.tokenCount;
    TableErrorNone(cell, slots, tokens, slot, token);
    assert Table(cell, slots, tokens)[slot][token] == Entry(cell, slots, tokens, slot, token);
  }

  /**
    Evidence is missing only for a touched cell nobody opened, when neither the pooled flow nor the fund fits 64
    bits.
  */
  lemma EvidenceMissingOnlyIfUnbounded(exitShaped: Ciphertext -> bool, b: Bounds, prev: ChannelState,
                                       next: ChannelState, owned: Owned, slot: nat, token: nat)
    requires Shaped(prev) && Shaped(next) && ShapedBounds(b)
    requires Advance(exitShaped, b, prev, next, owned) == Err(RangeEvidenceRequired(slot, token))
    ensures Comparable(b, prev, next) && IsActive(next, slot, token)
    ensures Changed(prev, next, slot, token) && (slot, token) !in owned
    ensures Pool(b, prev, next, token) == None && next.fund.amounts[token] >= U64_LIMIT
  {
    var cell := AdvanceCells(exitShaped, b, prev, next, owned);
    var s, t := TableErrorSome(cell, Participants(next), next.balance.tokenCount);
    AsU64IsRangeCheck(next.fund.amounts[token]);
  }

  // ---------- whole runs ----------

  datatype Transition = Transition(next: ChannelState, owned: Owned)

  predicate ShapedRun(steps: seq<Transition>) {
    forall i :: 0 <= i < |steps| ==> Shaped(steps[i].next)
  }

  // The bounds after a run of transitions, or the first refusal.
  ghost function AdvanceAll(exitShaped: Ciphertext -> bool, b: Bounds, start: ChannelState, steps: seq<Transition>)
    : (r: Result<Bounds, CreditError>)
    requires Shaped(start) && ShapedBounds(b) && ShapedRun(steps)
    ensures r.Ok? ==> ShapedBounds(r.value)
  {
    if steps == [] then Ok(b)
    else
      match AdvanceAll(exitShaped, b, start, steps[..|steps| - 1])
      case Err(error) => Err(error)
      case Ok(mid) =>
        Advance(exitShaped, mid, StateAt(start, steps, |steps| - 1), steps[|steps| - 1].next, steps[|steps| - 1].owned)
  }

  function StateAt(start: ChannelState, steps: seq<Transition>, i: nat): ChannelState
    requires i <= |steps|
  {
    if i == 0 then start else steps[i - 1].next
  }

  predicate HonestRun(open: Opening, start: ChannelState, steps: seq<Transition>) {
    forall i {:trigger StateAt(start, steps, i)} :: 0 <= i < |steps| ==>
      HonestStep(open, StateAt(start, steps, i), steps[i].next, steps[i].owned)
  }

  /**
    From sound bounds, after any run of accepted transitions every known bound still dominates its hidden
    balance (and fits 64 bits by its type); along the way no truthful plaintext is ever called inconsistent.
  */
  lemma {:induction false} RunSound(exitShaped: Ciphertext -> bool, open: Opening, b: Bounds, start: ChannelState,
                                    steps: seq<Transition>)
    requires SoundFor(open, b, start) && ShapedRun(steps) && HonestRun(open, start, steps)
    ensures
      var r := AdvanceAll(exitShaped, b, start, steps);
      if r.Ok? then SoundFor(open, r.value, StateAt(start, steps, |steps|)) else !r.error.InconsistentPlaintext?
  {
    if steps != [] {
      var last := |steps| - 1;
      var before := steps[..last];
      forall i {:trigger StateAt(start, before, i)} | 0 <= i < last
        ensures HonestStep(open, StateAt(start, before, i), before[i].next, before[i].owned)
      {
        assert StateAt(start, before, i) == StateAt(start, steps, i);
      }
      RunSound(exitShaped, open, b, start, before);
      assert StateAt(start, before, last) == StateAt(start, steps, last);
      var mid := AdvanceAll(exitShaped, b, start, before);
      if mid.Ok? {
        AdvanceSound(exitShaped, open, mid.value, StateAt(start, steps, last), steps[last].next, steps[last].owned);
      }
    }
  }
}
