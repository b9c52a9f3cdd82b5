/** The publication plan: the actions a close-funding publication consists of, their journal keys and their order. */
module PublicationPlan {
  datatype LaneKind = Native | Erc20

  datatype Action = MaterializeNative | MaterializeErc20 | PullNative | PullErc20(tokenIndex: nat)
  {
    predicate IsPull() { PullNative? || PullErc20? }

    // A plan pulls token zero by PullNative.
    predicate Canonical() { PullErc20? ==> tokenIndex != 0 }

    function Token(): nat
      requires IsPull()
    {
      if PullNative? then 0 else tokenIndex
    }
  }

  // The key of an action in a journal and in a reservation; ActionIdText is its spelling on disk.
  datatype ActionId = MaterializeId(kind: LaneKind) | PullId(token: nat)

  function IdOf(a: Action): ActionId {
    match a
    case MaterializeNative => MaterializeId(Native)
    case MaterializeErc20 => MaterializeId(Erc20)
    case PullNative => PullId(0)
    case PullErc20(t) => PullId(t)
  }

  function Digit(d: nat): char
    requires d < 10
  {
    "0123456789"[d]
  }

  function Decimal(n: nat): string {
    if n < 10 then [Digit(n)] else Decimal(n / 10) + [Digit(n % 10)]
  }

  function ActionIdText(id: ActionId): string {
    match id
    case MaterializeId(Native) => "materialize:native"
    case MaterializeId(Erc20) => "materialize:erc20"
    case PullId(t) => "pull:" + Decimal(t)
  }

  lemma DecimalNonempty(n: nat)
    ensures |Decimal(n)| >= 1
  {
  }

  lemma {:induction false} DecimalInjective(m: nat, n: nat)
    requires Decimal(m) == Decimal(n)
    ensures m == n
    decreases m + n
  {
    var a, b := Decimal(m), Decimal(n);
    assert a[|a| - 1] == Digit(m % 10) && b[|b| - 1] == Digit(n % 10);
    if m >= 10 && n >= 10 {
      assert a[..|a| - 1] == Decimal(m / 10) && b[..|b| - 1] == Decimal(n / 10);
      DecimalInjective(m / 10, n / 10);
    } else {
      DecimalNonempty(m / 10);
      DecimalNonempty(n / 10);
    }
  }

  /** The journal spelling identifies the action: no two actions a plan can contain share a journal slot. */
  lemma ActionTextInjective(a: Action, b: Action)
    requires a.Canonical() && b.Canonical()
    requires ActionIdText(IdOf(a)) == ActionIdText(IdOf(b))
    ensures a == b
  {
    var s, t := ActionIdText(IdOf(a)), ActionIdText(IdOf(b));
    assert s[0] == (if a.IsPull() then 'p' else 'm');
    assert t[0] == (if b.IsPull() then 'p' else 'm');
    if a.IsPull() {
      assert s[5..] == Decimal(a.Token()) && t[5..] == Decimal(b.Token());
      DecimalInjective(a.Token(), b.Token());
    } else {
      assert |s| == (if a.MaterializeNative? then 18 else 17);
    }
  }

  datatype PlannedLane = PlannedLane(kind: LaneKind, tokens: seq<nat>)

  // What is published: the chain, the lanes, and the lane of each token.
  datatype Plan = Plan(chainId: nat, lanes: seq<PlannedLane>, tokenLanes: map<nat, LaneKind>)

  // A binding schema: its number and the domain its digest is computed under.
  datatype BindingVersion = BindingVersion(schema: nat, domain: string)

  // The digest is kept as its preimage.
  datatype BindingDigest = BindingDigest(domain: string, schema: nat, plan: Plan)

  // The immutable identity a journal is created for.
  datatype Binding = Binding(schema: nat, plan: Plan, digest: BindingDigest)

  function PrepareBinding(v: BindingVersion, plan: Plan): Binding {
    Binding(v.schema, plan, BindingDigest(v.domain, v.schema, plan))
  }

  predicate ValidateBinding(v: BindingVersion, b: Binding) {
    b.schema == v.schema && b.digest == BindingDigest(v.domain, b.schema, b.plan)
  }

  function InsertToken(t: nat, ts: seq<nat>): seq<nat> {
    if ts == [] || t <= ts[0] then [t] + ts else [ts[0]] + InsertToken(t, ts[1..])
  }

  function SortTokens(ts: seq<nat>): seq<nat> {
    if ts == [] then [] else InsertToken(ts[0], SortTokens(ts[1..]))
  }

  function PullsOf(ts: seq<nat>): seq<Action> {
    if ts == [] then []
    else [if ts[0] == 0 then PullNative else PullErc20(ts[0])] + PullsOf(ts[1..])
  }

  function OneLane(l: PlannedLane): seq<Action> {
    [if l.kind == Native then MaterializeNative else MaterializeErc20] + PullsOf(SortTokens(l.tokens))
  }

  function LaneActions(lanes: seq<PlannedLane>, kind: LaneKind): seq<Action> {
    if lanes == [] then []
    else (if lanes[0].kind == kind then OneLane(lanes[0]) else []) + LaneActions(lanes[1..], kind)
  }

  // All native lanes come first; each lane is materialized before its tokens are pulled.
  function PlannedActions(b: Binding): seq<Action> {
    LaneActions(b.plan.lanes, Native) + LaneActions(b.plan.lanes, Erc20)
  }

  lemma {:induction false} InsertTokenKeeps(t: nat, ts: seq<nat>)
    ensures multiset(InsertToken(t, ts)) == multiset(ts) + multiset{t}
  {
    if !(ts == [] || t <= ts[0]) {
      InsertTokenKeeps(t, ts[1..]);
      assert ts == [ts[0]] + ts[1..];
    }
  }

  lemma {:induction false} SortTokensKeeps(ts: seq<nat>)
    ensures multiset(SortTokens(ts)) == multiset(ts)
  {
    if ts != [] {
      SortTokensKeeps(ts[1..]);
      InsertTokenKeeps(ts[0], SortTokens(ts[1..]));
      assert ts == [ts[0]] + ts[1..];
    }
  }

  lemma {:induction false} PullsAt(ts: seq<nat>, n: nat)
    requires n < |PullsOf(ts)|
    ensures PullsOf(ts)[n].IsPull() && PullsOf(ts)[n].Token() in ts
  {
    if n > 0 {
      PullsAt(ts[1..], n - 1);
    }
  }

  lemma OneLaneOrder(l: PlannedLane, n: nat)
    requires n < |OneLane(l)|
    ensures n == 0 ==> IdOf(OneLane(l)[n]) == MaterializeId(l.kind)
    ensures n > 0 ==> OneLane(l)[n].IsPull() && OneLane(l)[n].Token() in l.tokens
  {
    if n > 0 {
      PullsAt(SortTokens(l.tokens), n - 1);
      SortTokensKeeps(l.tokens);
      assert OneLane(l)[n].Token() in multiset(SortTokens(l.tokens));
    }
  }

  // The n-th action pulls a token of the given lane, after the m-th materialized its kind.
  predicate PullFollows(acts: seq<Action>, lanes: seq<PlannedLane>, kind: LaneKind, n: nat, m: nat, lane: nat) {
    && m < n < |acts| && IdOf(acts[m]) == MaterializeId(kind)
    && lane < |lanes| && lanes[lane].kind == kind && acts[n].IsPull() && acts[n].Token() in lanes[lane].tokens
  }

  lemma PullFollowsLater(first: seq<Action>, acts: seq<Action>, lanes: seq<PlannedLane>, kind: LaneKind, n: nat,
                         m: nat, lane: nat)
    requires lanes != [] && PullFollows(acts, lanes[1..], kind, n, m, lane)
    ensures PullFollows(first + acts, lanes, kind, |first| + n, |first| + m, lane + 1)
  {
  }

  lemma PullFollowsFirst(acts: seq<Action>, lanes: seq<PlannedLane>, n: nat)
    requires lanes != [] && OneLane(lanes[0]) <= acts && n < |OneLane(lanes[0])| && acts[n].IsPull()
    ensures PullFollows(acts, lanes, lanes[0].kind, n, 0, 0)
  {
    OneLaneOrder(lanes[0], 0);
    OneLaneOrder(lanes[0], n);
  }

  // In one kind's actions, every pull is of a token of some lane and follows that kind's materialization.
  lemma {:induction false} LaneOrder(lanes: seq<PlannedLane>, kind: LaneKind, n: nat) returns (m: nat, lane: nat)
    requires n < |LaneActions(lanes, kind)| && LaneActions(lanes, kind)[n].IsPull()
    ensures PullFollows(LaneActions(lanes, kind), lanes, kind, n, m, lane)
  {
    var first, rest := if lanes[0].kind == kind then OneLane(lanes[0]) else [], LaneActions(lanes[1..], kind);
    if n < |first| {
      PullFollowsFirst(first + rest, lanes, n);
      m, lane := 0, 0;
    } else {
      var p, l := LaneOrder(lanes[1..], kind, n - |first|);
      PullFollowsLater(first, rest, lanes, kind, n - |first|, p, l);
      m, lane := |first| + p, l + 1;
    }
  }

  lemma PullFollowsWithin(before: seq<Action>, acts: seq<Action>, after: seq<Action>, lanes: seq<PlannedLane>,
                          kind: LaneKind, n: nat, m: nat, lane: nat)
    requires PullFollows(acts, lanes, kind, n, m, lane)
    ensures PullFollows(before + acts + after, lanes, kind, |before| + n, |before| + m, lane)
  {
    var all := before + acts + after;
    assert all[|before| + n] == acts[n] && all[|before| + m] == acts[m];
  }

  lemma PlanOrderOf(b: Binding, n: nat) returns (kind: LaneKind, m: nat, lane: nat)
    requires n < |PlannedActions(b)| && PlannedActions(b)[n].IsPull()
    ensures PullFollows(PlannedActions(b), b.plan.lanes, kind, n, m, lane)
  {
    var native, erc20 := LaneActions(b.plan.lanes, Native), LaneActions(b.plan.lanes, Erc20);
    var none: seq<Action> := [];
    assert PlannedActions(b) == none + native + erc20 == native + erc20 + none;
    if n < |native| {
      kind := Native;
      m, lane := LaneOrder(b.plan.lanes, Native, n);
      PullFollowsWithin(none, native, erc20, b.plan.lanes, Native, n, m, lane);
    } else {
      kind := Erc20;
      m, lane := LaneOrder(b.plan.lanes, Erc20, n - |native|);
      PullFollowsWithin(native, erc20, none, b.plan.lanes, Erc20, n - |native|, m, lane);
      m := |native| + m;
    }
  }

  /** On a plan whose token table agrees with its lanes, every pull comes after the materialization it needs. */
  lemma PlanMaterializesFirst(b: Binding, n: nat) returns (m: nat)
    requires forall l, t :: l in b.plan.lanes && t in l.tokens ==>
        t in b.plan.tokenLanes && b.plan.tokenLanes[t] == l.kind
    requires n < |PlannedActions(b)| && PlannedActions(b)[n].IsPull()
    ensures m < n && PlannedActions(b)[n].Token() in b.plan.tokenLanes
    ensures IdOf(PlannedActions(b)[m]) == MaterializeId(b.plan.tokenLanes[PlannedActions(b)[n].Token()])
  {
    var kind, before, lane := PlanOrderOf(b, n);
    assert b.plan.lanes[lane] in b.plan.lanes;
    m := before;
  }

  // ---------- exactly the lanes' work ----------

  function LanesOf(lanes: seq<PlannedLane>, kind: LaneKind): nat {
    if lanes == [] then 0 else (if lanes[0].kind == kind then 1 else 0) + LanesOf(lanes[1..], kind)
  }

  // How often the token lists of the lanes of one kind name a token.
  function UsesIn(lanes: seq<PlannedLane>, kind: LaneKind, token: nat): nat {
    if lanes == [] then 0
    else (if lanes[0].kind == kind then multiset(lanes[0].tokens)[token] else 0) + UsesIn(lanes[1..], kind, token)
  }

  function Uses(lanes: seq<PlannedLane>, token: nat): nat {
    if lanes == [] then 0 else multiset(lanes[0].tokens)[token] + Uses(lanes[1..], token)
  }

  lemma {:induction false} PullsCount(ts: seq<nat>, a: Action)
    ensures multiset(PullsOf(ts))[a] == if a.IsPull() && a.Canonical() then multiset(ts)[a.Token()] else 0
  {
    if ts != [] {
      PullsCount(ts[1..], a);
      assert ts == [ts[0]] + ts[1..];
    }
  }

  // What the lanes of one kind need of an action.
  function Needed(lanes: seq<PlannedLane>, kind: LaneKind, a: Action): nat {
    match a
    case MaterializeNative => if kind == Native then LanesOf(lanes, Native) else 0
    case MaterializeErc20 => if kind == Erc20 then LanesOf(lanes, Erc20) else 0
    case PullNative => UsesIn(lanes, kind, 0)
    case PullErc20(t) => if t == 0 then 0 else UsesIn(lanes, kind, t)
  }

  lemma OneLaneCount(l: PlannedLane, a: Action)
    ensures multiset(OneLane(l))[a]
            == (if a == (if l.kind == Native then MaterializeNative else MaterializeErc20) then 1 else 0)
               + if a.IsPull() && a.Canonical() then multiset(l.tokens)[a.Token()] else 0
  {
    PullsCount(SortTokens(l.tokens), a);
    SortTokensKeeps(l.tokens);
  }

  lemma {:induction false} LaneActionsCount(lanes: seq<PlannedLane>, kind: LaneKind, a: Action)
    ensures multiset(LaneActions(lanes, kind))[a] == Needed(lanes, kind, a)
  {
    if lanes != [] {
      LaneActionsCount(lanes[1..], kind, a);
      OneLaneCount(lanes[0], a);
    }
  }

  lemma {:induction false} UsesSplit(lanes: seq<PlannedLane>, token: nat)
    ensures Uses(lanes, token) == UsesIn(lanes, Native, token) + UsesIn(lanes, Erc20, token)
  {
    if lanes != [] {
      UsesSplit(lanes[1..], token);
    }
  }

  /**
    The planned actions are exactly the lanes' work: one materialization per lane of its kind, and one pull of a
    token per occurrence in the lanes' token lists.
  */
  lemma PlanIsExactlyItsLanes(b: Binding, a: Action)
    ensures multiset(PlannedActions(b))[a]
            == match a
               case MaterializeNative => LanesOf(b.plan.lanes, Native)
               case MaterializeErc20 => LanesOf(b.plan.lanes, Erc20)
               case PullNative => Uses(b.plan.lanes, 0)
               case PullErc20(t) => if t == 0 then 0 else Uses(b.plan.lanes, t)
  {
    LaneActionsCount(b.plan.lanes, Native, a);
    LaneActionsCount(b.plan.lanes, Erc20, a);
    if a.IsPull() {
      UsesSplit(b.plan.lanes, a.Token());
    }
  }

  lemma {:induction false} LaneCounted(lanes: seq<PlannedLane>, l: PlannedLane)
    requires l in lanes
    ensures LanesOf(lanes, l.kind) > 0
    ensures forall t :: t in l.tokens ==> Uses(lanes, t) > 0
  {
    if l == lanes[0] {
      assert forall t :: t in l.tokens ==> multiset(l.tokens)[t] > 0;
    } else {
      LaneCounted(lanes[1..], l);
    }
  }

  /** Every lane of the plan is materialized by it, and every token of the lane is pulled. */
  lemma EveryLaneIsPlanned(b: Binding, l: PlannedLane)
    requires l in b.plan.lanes
    ensures (if l.kind == Native then MaterializeNative else MaterializeErc20) in PlannedActions(b)
    ensures forall t :: t in l.tokens ==> (if t == 0 then PullNative else PullErc20(t)) in PlannedActions(b)
  {
    LaneCounted(b.plan.lanes, l);
    PlanIsExactlyItsLanes(b, if l.kind == Native then MaterializeNative else MaterializeErc20);
    forall t | t in l.tokens ensures (if t == 0 then PullNative else PullErc20(t)) in PlannedActions(b) {
      PlanIsExactlyItsLanes(b, if t == 0 then PullNative else PullErc20(t));
    }
  }

  // The journal keys one lane's work uses.
  ghost function LaneIds(l: PlannedLane): set<ActionId> {
    {MaterializeId(l.kind)} + set t | t in l.tokens :: PullId(t)
  }

  // Each of them is the key of a planned action.
  lemma LaneIdIsPlanned(b: Binding, l: PlannedLane, id: ActionId) returns (a: Action)
    requires l in b.plan.lanes && id in LaneIds(l)
    ensures a in PlannedActions(b) && IdOf(a) == id
  {
    EveryLaneIsPlanned(b, l);
    match id
    case MaterializeId(kind) => a := if kind == Native then MaterializeNative else MaterializeErc20;
    case PullId(t) => a := if t == 0 then PullNative else PullErc20(t);
  }

  lemma {:induction false} UsesFromLane(lanes: seq<PlannedLane>, token: nat) returns (l: PlannedLane)
    requires Uses(lanes, token) > 0
    ensures l in lanes && token in l.tokens
  {
    if token in lanes[0].tokens {
      l := lanes[0];
    } else {
      l := UsesFromLane(lanes[1..], token);
    }
  }

  lemma {:induction false} KindFromLane(lanes: seq<PlannedLane>, kind: LaneKind) returns (l: PlannedLane)
    requires LanesOf(lanes, kind) > 0
    ensures l in lanes && l.kind == kind
  {
    if lanes[0].kind == kind {
      l := lanes[0];
    } else {
      l := KindFromLane(lanes[1..], kind);
    }
  }

  /** Every planned action is the work of some lane of the plan. */
  lemma PlannedFromLane(b: Binding, a: Action) returns (l: PlannedLane)
    requires a in PlannedActions(b)
    ensures l in b.plan.lanes
    ensures if a.IsPull() then a.Canonical() && a.Token() in l.tokens else IdOf(a) == MaterializeId(l.kind)
  {
    PlanIsExactlyItsLanes(b, a);
    assert multiset(PlannedActions(b))[a] > 0;
    match a
    case MaterializeNative => l := KindFromLane(b.plan.lanes, Native);
    case MaterializeErc20 => l := KindFromLane(b.plan.lanes, Erc20);
    case _ => l := UsesFromLane(b.plan.lanes, a.Token());
  }

  /** The keys of the planned actions are exactly the keys of the lanes' work. */
  lemma PlannedIdsAreLaneIds(b: Binding, id: ActionId)
    ensures (exists a :: a in PlannedActions(b) && IdOf(a) == id) <==>
              exists l :: l in b.plan.lanes && id in LaneIds(l)
  {
    if a :| a in PlannedActions(b) && IdOf(a) == id {
      var l := PlannedFromLane(b, a);
      assert id in LaneIds(l);
    }
    if l :| l in b.plan.lanes && id in LaneIds(l) {
      var a := LaneIdIsPlanned(b, l, id);
    }
  }

  // ---------- their order ----------

  predicate Ascending(ts: seq<nat>) { forall i, j :: 0 <= i < j < |ts| ==> ts[i] <= ts[j] }

  lemma {:induction false} InsertTokenAscends(t: nat, ts: seq<nat>)
    requires Ascending(ts)
    ensures Ascending(InsertToken(t, ts))
  {
    if !(ts == [] || t <= ts[0]) {
      InsertTokenAscends(t, ts[1..]);
      InsertTokenKeeps(t, ts[1..]);
      var rest := InsertToken(t, ts[1..]);
      forall i | 0 <= i < |rest| ensures ts[0] <= rest[i] {
        assert rest[i] in multiset(rest);
        assert rest[i] == t || rest[i] in ts[1..];
      }
    }
  }

  lemma {:induction false} SortTokensAscends(ts: seq<nat>)
    ensures Ascending(SortTokens(ts))
  {
    if ts != [] {
      SortTokensAscends(ts[1..]);
      InsertTokenAscends(ts[0], SortTokens(ts[1..]));
    }
  }

  lemma {:induction false} PullsInOrder(ts: seq<nat>)
    ensures |PullsOf(ts)| == |ts|
    ensures forall i :: 0 <= i < |ts| ==> PullsOf(ts)[i].IsPull() && PullsOf(ts)[i].Token() == ts[i]
  {
    if ts != [] {
      PullsInOrder(ts[1..]);
    }
  }

  // Neighbouring pulls belong to one lane and are in token order; the given list starts with a materialization.
  predicate LaneByLane(acts: seq<Action>) {
    && (acts != [] ==> !acts[0].IsPull())
    && forall i :: 0 <= i < |acts| - 1 && acts[i].IsPull() && acts[i + 1].IsPull() ==>
         acts[i].Token() <= acts[i + 1].Token()
  }

  lemma OneLaneByLane(l: PlannedLane)
    ensures LaneByLane(OneLane(l))
  {
    SortTokensAscends(l.tokens);
    PullsInOrder(SortTokens(l.tokens));
  }

  lemma LaneByLaneConcat(a: seq<Action>, b: seq<Action>)
    requires LaneByLane(a) && LaneByLane(b)
    ensures LaneByLane(a + b)
  {
  }

  lemma {:induction false} LaneActionsByLane(lanes: seq<PlannedLane>, kind: LaneKind)
    ensures LaneByLane(LaneActions(lanes, kind))
    ensures forall a :: a in LaneActions(lanes, kind) && !a.IsPull() ==> IdOf(a) == MaterializeId(kind)
  {
    if lanes != [] {
      OneLaneByLane(lanes[0]);
      LaneActionsByLane(lanes[1..], kind);
      forall n | 0 <= n < |OneLane(lanes[0])| && !OneLane(lanes[0])[n].IsPull()
        ensures IdOf(OneLane(lanes[0])[n]) == MaterializeId(lanes[0].kind)
      {
        OneLaneOrder(lanes[0], n);
      }
      LaneByLaneConcat(if lanes[0].kind == kind then OneLane(lanes[0]) else [], LaneActions(lanes[1..], kind));
    }
  }

  /** Native lanes come before ERC20 lanes, and between two materializations the pulls are in token order. */
  lemma PlanOrder(b: Binding, m: nat, n: nat)
    requires m < n < |PlannedActions(b)|
    ensures !(PlannedActions(b)[m].MaterializeErc20? && PlannedActions(b)[n].MaterializeNative?)
    ensures !PlannedActions(b)[0].IsPull()
    ensures n == m + 1 && PlannedActions(b)[m].IsPull() && PlannedActions(b)[n].IsPull() ==>
              PlannedActions(b)[m].Token() <= PlannedActions(b)[n].Token()
  {
    var native, erc20 := LaneActions(b.plan.lanes, Native), LaneActions(b.plan.lanes, Erc20);
    LaneActionsByLane(b.plan.lanes, Native);
    LaneActionsByLane(b.plan.lanes, Erc20);
    LaneByLaneConcat(native, erc20);
    assert m < |native| ==> PlannedActions(b)[m] in native;
    assert n >= |native| ==> PlannedActions(b)[n] in erc20;
  }
}
