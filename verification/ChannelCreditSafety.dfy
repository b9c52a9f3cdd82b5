/** Private upper bounds on hidden channel balances: an abstract interpretation of encrypted cells. */
module ChannelCreditSafety {
  import opened Wrappers
  import opened MachineWords
  import opened ChannelTypes

  const CREDIT_BOUNDS_SCHEMA_VERSION: u32 := 1

  // A known bound on a cell; None is unknown, not zero.
  type Bound = Option<u64>
  type Cell = (nat, nat)
  type Owned = map<Cell, u64>

  datatype Bounds = Bounds(schema: u32, channelId: ChannelId, stateDigest: Bytes32, rows: seq<seq<Bound>>)

  datatype CreditError =
    | UnsupportedSchema
    | StateMismatch
    | InvalidLayout
    | SuccessorMismatch
    | RegistryChanged
    | InactiveCell(slot: nat, token: nat)
    | UnclaimableCiphertext(slot: nat, token: nat)
    | InconsistentPlaintext(slot: nat, token: nat)
    | RangeEvidenceRequired(slot: nat, token: nat)

  // The widths fixed by type: ten tokens per row, one key digest per slot.
  predicate Shaped(s: ChannelState) {
    && |s.fund.amounts| == MAX_CHANNEL_TOKENS && |s.balance.tokenRegistry| == MAX_CHANNEL_TOKENS
    && |s.balance.regevPkDigests| == MAX_CHANNEL_MEMBERS
    && forall i :: 0 <= i < |s.balance.encBalances| ==> |s.balance.encBalances[i]| == MAX_CHANNEL_TOKENS
  }

  predicate ShapedBounds(b: Bounds) {
    forall i :: 0 <= i < |b.rows| ==> |b.rows[i]| == MAX_CHANNEL_TOKENS
  }

  function Participants(s: ChannelState): nat { s.balance.memberCount + s.balance.delegateCount }

  // ---------- bounds arithmetic ----------

  function AsU64(value: U256): Bound {
    var limbs := Limbs(value, 8);
    if exists i :: 0 <= i < 6 && limbs[i] != 0 then None else Some(limbs[6] * U32_LIMIT + limbs[7])
  }

  /** Reading the two low limbs is exactly a range check. */
  lemma AsU64IsRangeCheck(value: U256)
    ensures AsU64(value) == if value < U64_LIMIT then Some(value) else None
  {
    var limbs, high := Limbs(value, 8), value / U32_LIMIT / U32_LIMIT;
    assert limbs == Limbs(value / U32_LIMIT, 7) + [value % U32_LIMIT];
    assert Limbs(value / U32_LIMIT, 7) == Limbs(high, 6) + [value / U32_LIMIT % U32_LIMIT];
    assert limbs[..6] == Limbs(high, 6);
    ZeroLimbs(6);
    if forall i :: 0 <= i < 6 ==> limbs[i] == 0 {
      assert Limbs(high, 6) == Limbs(0, 6);
      WidthPowers();
      assert Power(6) == U32_LIMIT * Power(5);
      LimbsReadBack(high, 6);
      LimbsReadBack(0, 6);
    } else {
      var i :| 0 <= i < 6 && limbs[i] != 0;
      assert Limbs(high, 6)[i] != 0;
    }
  }

  lemma {:induction false} ZeroLimbs(k: nat)
    ensures forall i :: 0 <= i < k ==> Limbs(0, k)[i] == 0
  {
    if k > 0 {
      ZeroLimbs(k - 1);
    }
  }

  function PositiveDifference(a: U256, b: U256): Bound { if a > b then AsU64(a - b) else Some(0) }

  function AddBounds(a: Bound, b: Bound): Bound {
    if a.Some? && b.Some? && a.value + b.value < U64_LIMIT then Some(a.value + b.value) else None
  }

  function Tighter(a: Bound, b: Bound): Bound {
    if a.None? then b else if b.None? then a else Some(if a.value <= b.value then a.value else b.value)
  }

  function WithOwned(bound: Bound, owned: Option<u64>, slot: nat, token: nat): Result<Bound, CreditError> {
    if owned.None? then Ok(bound)
    else if bound.Some? && owned.value > bound.value then Err(InconsistentPlaintext(slot, token))
    else Ok(Some(owned.value))
  }

  function OwnedAt(owned: Owned, slot: nat, token: nat): Option<u64> {
    if (slot, token) in owned then Some(owned[(slot, token)]) else None
  }

  // ---------- layout ----------

  predicate LayoutValid(s: ChannelState) {
    && s.channelId == s.balance.channelId == s.fund.channelId
    && 0 < Participants(s) <= MAX_CHANNEL_MEMBERS && 0 < s.balance.tokenCount <= MAX_CHANNEL_TOKENS
    && |s.balance.encBalances| == MAX_CHANNEL_MEMBERS
  }

  predicate IsActive(s: ChannelState, slot: nat, token: nat) { slot < Participants(s) && token < s.balance.tokenCount }

  predicate OwnedActive(owned: Owned, s: ChannelState) {
    forall cell :: cell in owned ==> IsActive(s, cell.0, cell.1)
  }

  // Owned cells are visited in key order: by slot, then by token.
  predicate KeyLeq(a: Cell, b: Cell) { a.0 < b.0 || (a.0 == b.0 && a.1 <= b.1) }

  // The first owned cell in key order that is not active.
  ghost predicate FirstInactive(owned: Owned, s: ChannelState, cell: Cell) {
    && cell in owned && !IsActive(s, cell.0, cell.1)
    && forall other :: other in owned && !IsActive(s, other.0, other.1) ==> KeyLeq(cell, other)
  }

  lemma FirstInactiveUnique(owned: Owned, s: ChannelState, a: Cell, b: Cell)
    requires FirstInactive(owned, s, a) && FirstInactive(owned, s, b)
    ensures a == b
  {
    assert KeyLeq(a, b) && KeyLeq(b, a);
  }

  lemma {:induction false} SomeFirstInactive(owned: Owned, s: ChannelState, cell: Cell)
    requires cell in owned && !IsActive(s, cell.0, cell.1)
    ensures exists first :: FirstInactive(owned, s, first)
    decreases cell.0, cell.1
  {
    if !FirstInactive(owned, s, cell) {
      var other :| other in owned && !IsActive(s, other.0, other.1) && !KeyLeq(cell, other);
      SomeFirstInactive(owned, s, other);
    }
  }

  ghost function InactiveCellOf(owned: Owned, s: ChannelState): (cell: Cell)
    requires !OwnedActive(owned, s)
    ensures FirstInactive(owned, s, cell)
  {
    var some :| some in owned && !IsActive(s, some.0, some.1);
    SomeFirstInactive(owned, s, some);
    var first :| FirstInactive(owned, s, first);
    first
  }

  ghost function OwnedError(owned: Owned, s: ChannelState): CreditError
    requires !OwnedActive(owned, s)
  {
    InactiveCell(InactiveCellOf(owned, s).0, InactiveCellOf(owned, s).1)
  }

  /** The check over the owned keys names the first inactive one. */
  method ValidatePlaintextCells(owned: Owned, s: ChannelState) returns (r: Option<Cell>)
    ensures r.Some? ==> FirstInactive(owned, s, r.value)
    ensures r.None? <==> OwnedActive(owned, s)
  {
    r := None;
    var keys := owned.Keys;
    while keys != {}
      invariant keys <= owned.Keys
      invariant r.Some? ==> r.value in owned && !IsActive(s, r.value.0, r.value.1)
      invariant forall k :: k in owned && k !in keys && !IsActive(s, k.0, k.1) ==> r.Some? && KeyLeq(r.value, k)
      decreases |keys|
    {
      var key :| key in keys;
      if !IsActive(s, key.0, key.1) && (r.None? || !KeyLeq(r.value, key)) {
        r := Some(key);
      }
      keys := keys - {key};
    }
  }

  predicate Padded(b: Bounds, s: ChannelState)
    requires ShapedBounds(b)
  {
    forall slot, token :: 0 <= slot < |b.rows| && 0 <= token < MAX_CHANNEL_TOKENS && !IsActive(s, slot, token) ==>
      b.rows[slot][token] == Some(0)
  }

  // None when the bounds belong to the state.
  function ValidateFor(b: Bounds, s: ChannelState): Option<CreditError>
    requires Shaped(s) && ShapedBounds(b)
  {
    if !LayoutValid(s) then Some(InvalidLayout)
    else if b.schema != CREDIT_BOUNDS_SCHEMA_VERSION then Some(UnsupportedSchema)
    else if b.channelId != s.channelId || b.stateDigest != s.digest then Some(StateMismatch)
    else if |b.rows| != MAX_CHANNEL_MEMBERS || !Padded(b, s) then Some(InvalidLayout)
    else None
  }

  predicate ValidFor(b: Bounds, s: ChannelState) {
    Shaped(s) && ShapedBounds(b) && ValidateFor(b, s) == None
  }

  // ---------- the transfer function ----------

  predicate Changed(prev: ChannelState, next: ChannelState, slot: nat, token: nat)
    requires Shaped(prev) && LayoutValid(prev) && Shaped(next) && LayoutValid(next)
    requires slot < MAX_CHANNEL_MEMBERS && token < MAX_CHANNEL_TOKENS
  {
    || prev.balance.encBalances[slot][token] != next.balance.encBalances[slot][token]
    || prev.balance.regevPkDigests[slot] != next.balance.regevPkDigests[slot]
  }

  predicate Comparable(b: Bounds, prev: ChannelState, next: ChannelState) {
    ValidFor(b, prev) && Shaped(next) && LayoutValid(next)
  }

  // What may have flowed into a token's changed cells from outside the cells, over the first n slots of evidence.
  function PoolUpTo(b: Bounds, prev: ChannelState, next: ChannelState, token: nat, n: nat): Bound
    requires Comparable(b, prev, next) && token < MAX_CHANNEL_TOKENS && n <= MAX_CHANNEL_MEMBERS
  {
    if n == 0 then AddBounds(PositiveDifference(next.fund.amounts[token], prev.fund.amounts[token]),
                             PositiveDifference(prev.unallocated, next.unallocated))
    else if Changed(prev, next, n - 1, token)
    then AddBounds(PoolUpTo(b, prev, next, token, n - 1), b.rows[n - 1][token])
    else PoolUpTo(b, prev, next, token, n - 1)
  }

  function Pool(b: Bounds, prev: ChannelState, next: ChannelState, token: nat): Bound
    requires Comparable(b, prev, next) && token < MAX_CHANNEL_TOKENS
  {
    PoolUpTo(b, prev, next, token, MAX_CHANNEL_MEMBERS)
  }

  function Carried(b: Bounds, prev: ChannelState, next: ChannelState, slot: nat, token: nat): Bound
    requires Comparable(b, prev, next) && slot < MAX_CHANNEL_MEMBERS && token < MAX_CHANNEL_TOKENS
  {
    if Changed(prev, next, slot, token) then Pool(b, prev, next, token) else b.rows[slot][token]
  }

  // One cell of the successor bounds, or the reason to refuse the transition at it.
  function AdvanceCell(exitShaped: Ciphertext -> bool, b: Bounds, prev: ChannelState, next: ChannelState, owned: Owned,
                       slot: nat, token: nat): Result<Bound, CreditError>
    requires Comparable(b, prev, next) && slot < MAX_CHANNEL_MEMBERS && token < MAX_CHANNEL_TOKENS
  {
    if Changed(prev, next, slot, token) && !exitShaped(next.balance.encBalances[slot][token])
    then Err(UnclaimableCiphertext(slot, token))
    else
      var known := Tighter(Carried(b, prev, next, slot, token), AsU64(next.fund.amounts[token]));
      var bound := WithOwned(known, OwnedAt(owned, slot, token), slot, token);
      if bound.Ok? && Changed(prev, next, slot, token) && bound.value.None?
      then Err(RangeEvidenceRequired(slot, token)) else bound
  }

  function BootstrapCell(s: ChannelState, owned: Owned, slot: nat, token: nat): Result<Bound, CreditError>
    requires Shaped(s) && token < MAX_CHANNEL_TOKENS
  {
    WithOwned(AsU64(s.fund.amounts[token]), OwnedAt(owned, slot, token), slot, token)
  }

  // ---------- tables of cells ----------

  type CellFunction = (nat, nat) -> Result<Bound, CreditError>

  // The first refused cell of a row, and of a table row by row.
  function RowError(cell: CellFunction, slot: nat, tokens: nat): Option<CreditError> {
    if tokens == 0 then None
    else
      var earlier := RowError(cell, slot, tokens - 1);
      if earlier.Some? then earlier
      else if cell(slot, tokens - 1).Err? then Some(cell(slot, tokens - 1).error) else None
  }

  function TableError(cell: CellFunction, slots: nat, tokens: nat): Option<CreditError> {
    if slots == 0 then None
    else
      var earlier := TableError(cell, slots - 1, tokens);
      if earlier.Some? then earlier else RowError(cell, slots - 1, tokens)
  }

  function Entry(cell: CellFunction, slots: nat, tokens: nat, slot: nat, token: nat): Bound {
    if slot < slots && token < tokens && cell(slot, token).Ok? then cell(slot, token).value else Some(0)
  }

  function Table(cell: CellFunction, slots: nat, tokens: nat): (rows: seq<seq<Bound>>)
    ensures |rows| == MAX_CHANNEL_MEMBERS
    ensures forall s :: 0 <= s < |rows| ==> |rows[s]| == MAX_CHANNEL_TOKENS
    ensures forall s, t :: 0 <= s < |rows| && 0 <= t < MAX_CHANNEL_TOKENS ==>
        rows[s][t] == Entry(cell, slots, tokens, s, t)
  {
    seq(MAX_CHANNEL_MEMBERS, s requires s >= 0 =>
      seq(MAX_CHANNEL_TOKENS, t requires t >= 0 => Entry(cell, slots, tokens, s, t)))
  }

  function Tabulate(cell: CellFunction, s: ChannelState): Result<Bounds, CreditError> {
    match TableError(cell, Participants(s), s.balance.tokenCount)
    case Some(error) => Err(error)
    case None =>
      var rows := Table(cell, Participants(s), s.balance.tokenCount);
      Ok(Bounds(CREDIT_BOUNDS_SCHEMA_VERSION, s.channelId, s.digest, rows))
  }

  lemma {:induction false} RowErrorNone(cell: CellFunction, slot: nat, tokens: nat, t: nat)
    requires RowError(cell, slot, tokens) == None && t < tokens
    ensures cell(slot, t).Ok?
  {
    if t < tokens - 1 {
      RowErrorNone(cell, slot, tokens - 1, t);
    }
  }

  lemma {:induction false} TableErrorNone(cell: CellFunction, slots: nat, tokens: nat, s: nat, t: nat)
    requires TableError(cell, slots, tokens) == None && s < slots && t < tokens
    ensures cell(s, t).Ok?
  {
    if s < slots - 1 {
      TableErrorNone(cell, slots - 1, tokens, s, t);
    } else {
      RowErrorNone(cell, s, tokens, t);
    }
  }

  lemma {:induction false} RowErrorSome(cell: CellFunction, slot: nat, tokens: nat) returns (t: nat)
    requires RowError(cell, slot, tokens).Some?
    ensures t < tokens && cell(slot, t) == Err(RowError(cell, slot, tokens).value)
  {
    if RowError(cell, slot, tokens - 1).Some? {
      t := RowErrorSome(cell, slot, tokens - 1);
    } else {
      t := tokens - 1;
    }
  }

  // A refusal is the refusal of some active cell.
  lemma {:induction false} TableErrorSome(cell: CellFunction, slots: nat, tokens: nat) returns (s: nat, t: nat)
    requires TableError(cell, slots, tokens).Some?
    ensures s < slots && t < tokens && cell(s, t) == Err(TableError(cell, slots, tokens).value)
  {
    if TableError(cell, slots - 1, tokens).Some? {
      s, t := TableErrorSome(cell, slots - 1, tokens);
    } else {
      s := slots - 1;
      t := RowErrorSome(cell, slots - 1, tokens);
    }
  }

  // ---------- operations ----------

  function BootstrapCells(s: ChannelState, owned: Owned): CellFunction {
    (slot: nat, token: nat) =>
      if Shaped(s) && token < MAX_CHANNEL_TOKENS then BootstrapCell(s, owned, slot, token) else Ok(None)
  }

  ghost function Bootstrap(s: ChannelState, owned: Owned): Result<Bounds, CreditError>
    requires Shaped(s)
  {
    if !LayoutValid(s) then Err(InvalidLayout)
    else if !OwnedActive(owned, s) then Err(OwnedError(owned, s))
    else Tabulate(BootstrapCells(s, owned), s)
  }

  function AdvanceCells(exitShaped: Ciphertext -> bool, b: Bounds, prev: ChannelState, next: ChannelState, owned: Owned)
    : CellFunction {
    (slot: nat, token: nat) =>
      if Comparable(b, prev, next) && slot < MAX_CHANNEL_MEMBERS && token < MAX_CHANNEL_TOKENS
      then AdvanceCell(exitShaped, b, prev, next, owned, slot, token) else Ok(None)
  }

  predicate RegistryKept(prev: ChannelState, next: ChannelState)
    requires Shaped(prev) && Shaped(next) && LayoutValid(prev)
  {
    && prev.balance.tokenCount <= next.balance.tokenCount
    && next.balance.tokenRegistry[..prev.balance.tokenCount] == prev.balance.tokenRegistry[..prev.balance.tokenCount]
  }

  ghost function Advance(exitShaped: Ciphertext -> bool, b: Bounds, prev: ChannelState, next: ChannelState,
                         owned: Owned)
    : (r: Result<Bounds, CreditError>)
    requires Shaped(prev) && Shaped(next) && ShapedBounds(b)
    ensures r.Ok? ==> ShapedBounds(r.value)
  {
    if ValidateFor(b, prev).Some? then Err(ValidateFor(b, prev).value)
    else if !LayoutValid(next) then Err(InvalidLayout)
    else if !OwnedActive(owned, next) then Err(OwnedError(owned, next))
    else if next.channelId != prev.channelId || next.prevDigest != prev.digest then Err(SuccessorMismatch)
    else if !RegistryKept(prev, next) then Err(RegistryChanged)
    else Tabulate(AdvanceCells(exitShaped, b, prev, next, owned), next)
  }

  function CanCredit(b: Bounds, s: ChannelState, slot: nat, token: nat, amount: u64, owned: Option<u64>)
    : Option<CreditError>
    requires Shaped(s) && ShapedBounds(b)
  {
    if ValidateFor(b, s).Some? then ValidateFor(b, s)
    else if !IsActive(s, slot, token) then Some(InactiveCell(slot, token))
    else
      var fund := AsU64(s.fund.amounts[token]);
      match WithOwned(Tighter(b.rows[slot][token], fund), owned, slot, token)
      case Err(error) => Some(error)
      case Ok(before) =>
        if Tighter(AddBounds(before, Some(amount)), AddBounds(fund, Some(amount))).None?
        then Some(RangeEvidenceRequired(slot, token)) else None
  }

  // ---------- the imperative form ----------

  // A table filled row by row up to a cell, the rest still zero.
  predicate FilledTo(cell: CellFunction, rows: seq<seq<Bound>>, slot: nat, token: nat, tokens: nat) {
    && |rows| == MAX_CHANNEL_MEMBERS
    && (forall s :: 0 <= s < |rows| ==> |rows[s]| == MAX_CHANNEL_TOKENS)
    && forall s, t :: 0 <= s < |rows| && 0 <= t < MAX_CHANNEL_TOKENS ==>
         rows[s][t] == if s < slot then Entry(cell, slot, tokens, s, t)
                       else if s == slot && t < token && cell(s, t).Ok? then cell(s, t).value else Some(0)
  }

  method BootstrapBounds(s: ChannelState, owned: Owned) returns (r: Result<Bounds, CreditError>)
    requires Shaped(s)
    ensures r == Bootstrap(s, owned)
  {
    if !LayoutValid(s) {
      return Err(InvalidLayout);
    }
    var inactive := ValidatePlaintextCells(owned, s);
    if inactive.Some? {
      FirstInactiveUnique(owned, s, inactive.value, InactiveCellOf(owned, s));
      return Err(InactiveCell(inactive.value.0, inactive.value.1));
    }
    var tokens := s.balance.tokenCount;
    ghost var cell := BootstrapCells(s, owned);
    var rows := seq(MAX_CHANNEL_MEMBERS, _ => seq(MAX_CHANNEL_TOKENS, _ => Some(0)));
    for slot := 0 to Participants(s)
      invariant TableError(cell, slot, tokens) == None && FilledTo(cell, rows, slot, 0, tokens)
    {
      for token := 0 to tokens
        invariant RowError(cell, slot, token) == None && FilledTo(cell, rows, slot, token, tokens)
      {
        var bound := WithOwned(AsU64(s.fund.amounts[token]), OwnedAt(owned, slot, token), slot, token);
        assert bound == cell(slot, token);
        if bound.Err? {
          RowRefuses(cell, slot, tokens, token);
          TableRefuses(cell, Participants(s), tokens, slot);
          return Err(bound.error);
        }
        rows := rows[slot := rows[slot][token := bound.value]];
      }
      RowDone(cell, rows, slot, tokens);
    }
    TableDone(cell, rows, Participants(s), tokens);
    return Ok(Bounds(CREDIT_BOUNDS_SCHEMA_VERSION, s.channelId, s.digest, rows));
  }

  lemma TableDone(cell: CellFunction, rows: seq<seq<Bound>>, slots: nat, tokens: nat)
    requires FilledTo(cell, rows, slots, 0, tokens)
    ensures rows == Table(cell, slots, tokens)
  {
    var table := Table(cell, slots, tokens);
    forall s | 0 <= s < |rows| ensures rows[s] == table[s] {
      forall t | 0 <= t < MAX_CHANNEL_TOKENS ensures rows[s][t] == table[s][t] {
        assert table[s][t] == Entry(cell, slots, tokens, s, t);
      }
    }
  }

  lemma RowDone(cell: CellFunction, rows: seq<seq<Bound>>, slot: nat, tokens: nat)
    requires FilledTo(cell, rows, slot, tokens, tokens)
    ensures FilledTo(cell, rows, slot + 1, 0, tokens)
  {
  }

  lemma {:induction false} RowRefuses(cell: CellFunction, slot: nat, tokens: nat, token: nat)
    requires token < tokens && RowError(cell, slot, token) == None && cell(slot, token).Err?
    ensures RowError(cell, slot, tokens) == Some(cell(slot, token).error)
    decreases tokens
  {
    if token < tokens - 1 {
      RowRefuses(cell, slot, tokens - 1, token);
    }
  }

  lemma {:induction false} TableRefuses(cell: CellFunction, slots: nat, tokens: nat, slot: nat)
    requires slot < slots && TableError(cell, slot, tokens) == None && RowError(cell, slot, tokens).Some?
    ensures TableError(cell, slots, tokens) == RowError(cell, slot, tokens)
    decreases slots
  {
    if slot < slots - 1 {
      TableRefuses(cell, slots - 1, tokens, slot);
    }
  }

  /** The two nested passes: pool what may flow into each token's changed cells, then bound every cell. */
  method AdvanceAuthenticated(exitShaped: Ciphertext -> bool, b: Bounds, prev: ChannelState, next: ChannelState,
                              owned: Owned)
    returns (r: Result<Bounds, CreditError>)
    requires Shaped(prev) && Shaped(next) && ShapedBounds(b)
    ensures r == Advance(exitShaped, b, prev, next, owned)
  {
    var invalid := ValidateFor(b, prev);
    if invalid.Some? {
      return Err(invalid.value);
    }
    if !LayoutValid(next) {
      return Err(InvalidLayout);
    }
    var inactive := ValidatePlaintextCells(owned, next);
    if inactive.Some? {
      FirstInactiveUnique(owned, next, inactive.value, InactiveCellOf(owned, next));
      return Err(InactiveCell(inactive.value.0, inactive.value.1));
    }
    if next.channelId != prev.channelId || next.prevDigest != prev.digest {
      return Err(SuccessorMismatch);
    }
    if !RegistryKept(prev, next) {
      return Err(RegistryChanged);
    }
    var pools, changed := PoolChanges(b, prev, next);
    r := BoundCells(exitShaped, b, prev, next, owned, pools, changed);
  }

  method PoolChanges(b: Bounds, prev: ChannelState, next: ChannelState)
    returns (pools: array<Bound>, changed: array2<bool>)
    requires Comparable(b, prev, next)
    ensures fresh(pools) && fresh(changed)
    ensures pools.Length == changed.Length1 == MAX_CHANNEL_TOKENS && changed.Length0 == MAX_CHANNEL_MEMBERS
    ensures forall t :: 0 <= t < next.balance.tokenCount ==> pools[t] == Pool(b, prev, next, t)
    ensures forall s, t :: 0 <= s < MAX_CHANNEL_MEMBERS && 0 <= t < next.balance.tokenCount ==>
              changed[s, t] == Changed(prev, next, s, t)
  {
    pools := new Bound[MAX_CHANNEL_TOKENS](_ => Some(0));
    changed := new bool[MAX_CHANNEL_MEMBERS, MAX_CHANNEL_TOKENS]((_, _) => false);
    var allocation := PositiveDifference(prev.unallocated, next.unallocated);
    for token := 0 to next.balance.tokenCount
      invariant forall t :: 0 <= t < token ==> pools[t] == Pool(b, prev, next, t)
      invariant forall s, t :: 0 <= s < MAX_CHANNEL_MEMBERS && 0 <= t < token ==>
          changed[s, t] == Changed(prev, next, s, t)
    {
      pools[token] := AddBounds(PositiveDifference(next.fund.amounts[token], prev.fund.amounts[token]), allocation);
      for slot := 0 to MAX_CHANNEL_MEMBERS
        invariant pools[token] == PoolUpTo(b, prev, next, token, slot)
        invariant forall t :: 0 <= t < token ==> pools[t] == Pool(b, prev, next, t)
        invariant forall s, t :: 0 <= s < MAX_CHANNEL_MEMBERS && 0 <= t < token ==>
            changed[s, t] == Changed(prev, next, s, t)
        invariant forall s :: 0 <= s < slot ==> changed[s, token] == Changed(prev, next, s, token)
      {
        changed[slot, token] := Changed(prev, next, slot, token);
        if changed[slot, token] {
          pools[token] := AddBounds(pools[token], b.rows[slot][token]);
        }
      }
    }
  }

  method BoundCells(exitShaped: Ciphertext -> bool, b: Bounds, prev: ChannelState, next: ChannelState, owned: Owned,
                    pools: array<Bound>, changed: array2<bool>) returns (r: Result<Bounds, CreditError>)
    requires Comparable(b, prev, next)
    requires pools.Length == changed.Length1 == MAX_CHANNEL_TOKENS && changed.Length0 == MAX_CHANNEL_MEMBERS
    requires forall t :: 0 <= t < next.balance.tokenCount ==> pools[t] == Pool(b, prev, next, t)
    requires forall s, t :: 0 <= s < MAX_CHANNEL_MEMBERS && 0 <= t < next.balance.tokenCount ==>
               changed[s, t] == Changed(prev, next, s, t)
    ensures r == Tabulate(AdvanceCells(exitShaped, b, prev, next, owned), next)
  {
    var active, tokens := Participants(next), next.balance.tokenCount;
    ghost var cell := AdvanceCells(exitShaped, b, prev, next, owned);
    var rows := seq(MAX_CHANNEL_MEMBERS, _ => seq(MAX_CHANNEL_TOKENS, _ => Some(0)));
    for slot := 0 to active
      invariant TableError(cell, slot, tokens) == None && FilledTo(cell, rows, slot, 0, tokens)
    {
      for token := 0 to tokens
        invariant RowError(cell, slot, token) == None && FilledTo(cell, rows, slot, token, tokens)
      {
        var result := Ok(None);
        if changed[slot, token] && !exitShaped(next.balance.encBalances[slot][token]) {
          result := Err(UnclaimableCiphertext(slot, token));
        } else {
          var carried := if changed[slot, token] then pools[token] else b.rows[slot][token];
          var known := Tighter(carried, AsU64(next.fund.amounts[token]));
          result := WithOwned(known, OwnedAt(owned, slot, token), slot, token);
          if result.Ok? && changed[slot, token] && result.value.None? {
            result := Err(RangeEvidenceRequired(slot, token));
          }
        }
        assert result == cell(slot, token);
        if result.Err? {
          RowRefuses(cell, slot, tokens, token);
          TableRefuses(cell, active, tokens, slot);
          return Err(result.error);
        }
        rows := rows[slot := rows[slot][token := result.value]];
      }
      RowDone(cell, rows, slot, tokens);
    }
    TableDone(cell, rows, active, tokens);
    return Ok(Bounds(CREDIT_BOUNDS_SCHEMA_VERSION, next.channelId, next.digest, rows));
  }
}
