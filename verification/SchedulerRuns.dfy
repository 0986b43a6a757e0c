/**
 Properties of the scheduler over whole runs: any sequence of plans, reloads
 and prunes, with the head set and the snapshot changing from call to call.
 */
module SchedulerRuns {
  import opened Basics
  import opened Config
  import opened SmoothWrr
  import opened Routing

  datatype Op =
    | PlanOp(rt: Runtime, route: Route, heads: seq<string>)
    | PruneOp(keep: set<string>)

  /** Heads are eligible members of a validated route, each listed once. */
  ghost predicate ValidOp(op: Op) {
    op.PlanOp? ==>
      && ValidRoute(op.route)
      && Distinct(op.heads)
      && (forall h :: h in op.heads ==> h in op.route.egress)
  }

  function Step(s: Table, op: Op): Table {
    match op
    case PlanOp(rt, route, heads) => PlanOn(s, rt, route, heads).0
    case PruneOp(keep) => PruneOn(s, keep)
  }

  function Output(s: Table, op: Op): Option<RoutePlan> {
    match op
    case PlanOp(rt, route, heads) => Some(PlanOn(s, rt, route, heads).1)
    case PruneOp(_) => None
  }

  function Final(s: Table, ops: seq<Op>): Table
    decreases |ops|
  {
    if ops == [] then s else Final(Step(s, ops[0]), ops[1..])
  }

  function Outputs(s: Table, ops: seq<Op>): seq<Option<RoutePlan>>
    decreases |ops|
  {
    if ops == [] then [] else [Output(s, ops[0])] + Outputs(Step(s, ops[0]), ops[1..])
  }

  // ---------------------------------------------------------------- head sets and pools

  lemma {:induction false} PoolFacts(rt: Runtime, heads: seq<string>)
    requires Distinct(heads)
    ensures forall i, j :: 0 <= i < j < |PoolOf(rt, heads)| ==> PoolOf(rt, heads)[i].id != PoolOf(rt, heads)[j].id
    ensures forall c :: c in PoolOf(rt, heads) ==> c.id in heads && c.w == WeightOf(rt, c.id) && c.w > 0
    ensures forall h :: h in heads && WeightOf(rt, h) > 0 ==> Candidate(h, WeightOf(rt, h)) in PoolOf(rt, heads)
  {
    if heads != [] {
      var n := |heads| - 1;
      PoolFacts(rt, heads[..n]);
      assert heads == heads[..n] + [heads[n]];
      var pool, rest := PoolOf(rt, heads), PoolOf(rt, heads[..n]);
      assert pool[..|rest|] == rest;
      forall i | 0 <= i < |rest| ensures rest[i].id != heads[n] {
        assert rest[i] in rest;
      }
    }
  }

  lemma {:induction false} WithoutMembers(xs: seq<string>, x: string)
    requires Distinct(xs)
    ensures Distinct(Without(xs, x))
    ensures forall y :: y in Without(xs, x) <==> y in xs && y != x
  {
    if xs != [] {
      var n := |xs| - 1;
      WithoutMembers(xs[..n], x);
      assert xs == xs[..n] + [xs[n]];
      assert xs[n] !in xs[..n];
    }
  }

  lemma {:induction false} WithoutCounts(xs: seq<string>, x: string)
    ensures multiset(Without(xs, x)) == multiset(xs)[x := 0]
  {
    if xs != [] {
      var n := |xs| - 1;
      WithoutCounts(xs[..n], x);
      assert xs == xs[..n] + [xs[n]];
      CountsLast(xs[..n], xs[n], x);
    }
  }

  lemma CountsLast(front: seq<string>, y: string, x: string)
    ensures multiset(front + [y])[x := 0]
         == if y == x then multiset(front)[x := 0] else multiset(front)[x := 0] + multiset{y}
  {
    assert multiset(front + [y]) == multiset(front) + multiset{y};
  }

  lemma WithoutFacts(xs: seq<string>, x: string)
    requires Distinct(xs)
    ensures Distinct(Without(xs, x)) && x !in Without(xs, x)
    ensures forall y :: y in Without(xs, x) <==> y in xs && y != x
    ensures multiset(Without(xs, x)) == multiset(xs)[x := 0]
  {
    WithoutMembers(xs, x);
    WithoutCounts(xs, x);
  }

  ghost predicate Permutation(xs: seq<string>, ys: seq<string>) {
    multiset(xs) == multiset(ys)
  }

  lemma HeadFirst(xs: seq<string>, x: string)
    requires Distinct(xs) && x in xs
    ensures Distinct([x] + Without(xs, x)) && Permutation([x] + Without(xs, x), xs)
  {
    WithoutFacts(xs, x);
    OnceInDistinct(xs, x);
    assert multiset([x] + Without(xs, x)) == multiset{x} + multiset(Without(xs, x));
  }

  lemma {:induction false} OnceInDistinct(xs: seq<string>, x: string)
    requires Distinct(xs)
    ensures multiset(xs)[x] == if x in xs then 1 else 0
  {
    if xs != [] {
      OnceInDistinct(xs[1..], x);
      assert xs == [xs[0]] + xs[1..];
      assert xs[0] !in xs[1..];
    }
  }

  lemma RotatePermutes(xs: seq<string>, cursor: nat)
    requires xs != [] && Distinct(xs)
    ensures Distinct(Rotate(xs, cursor)) && Permutation(Rotate(xs, cursor), xs)
  {
    var i := cursor % |xs|;
    assert xs == xs[..i] + xs[i..];
    assert multiset(Rotate(xs, cursor)) == multiset(xs[i..]) + multiset(xs[..i]);
  }

  // ---------------------------------------------------------------- what one plan promises

  /** Every non-empty plan is a duplicate-free reordering of its heads; a weighted one never leads with weight 0. */
  lemma PlanIsPermutation(s: Table, rt: Runtime, route: Route, heads: seq<string>)
    requires Distinct(heads)
    ensures var plan := PlanOn(s, rt, route, heads).1;
            && (plan.attempts == [] <==> Unroutable(rt, route, heads))
            && (plan.attempts != [] ==> Permutation(plan.attempts, heads) && Distinct(plan.attempts))
            && (plan.attempts != [] && route.strategy == WEIGHTED_RR ==> WeightOf(rt, plan.attempts[0]) > 0)
            && |plan.egresses| == |plan.attempts|
  {
    if !Unroutable(rt, route, heads) {
      var st := StateFor(s, rt, route);
      if route.strategy == WEIGHTED_RR {
        PoolFacts(rt, heads);
        var pool := PoolOf(rt, heads);
        var k := RoundElectsFirstMaximum(st.cw, pool);
        assert pool[k] in pool;
        HeadFirst(heads, pool[k].id);
      } else {
        RotatePermutes(heads, st.cursor);
      }
    }
  }

  // ---------------------------------------------------------------- the table invariant

  /** Only positive-weight members of the route carry a total, and the totals sum to 0. */
  ghost predicate Balanced(cw: Totals, route: Route, rt: Runtime) {
    && (forall k :: k in cw ==> k in route.egress && WeightOf(rt, k) > 0)
    && SumOver(route.egress, cw) == 0
  }

  /** Some validated shape with this fingerprint explains the state. */
  ghost predicate Describes(st: Rotation, id: string, route: Route, rt: Runtime) {
    && ValidRoute(route) && route.id == id
    && st.fingerprint == Fingerprint(route, rt)
    && (if route.strategy == WEIGHTED_RR then Balanced(st.cw, route, rt) else st.cw == map[])
  }

  ghost predicate Inv(s: Table) {
    forall id :: id in s ==> exists route: Route, rt: Runtime :: Describes(s[id], id, route, rt)
  }

  /** Whatever snapshot wrote the state, every validated shape with its fingerprint finds it balanced. */
  lemma BalancedForEveryReader(st: Rotation, id: string, route: Route, rt: Runtime)
    requires exists r: Route, t: Runtime :: Describes(st, id, r, t)
    requires ValidRoute(route) && st.fingerprint == Fingerprint(route, rt)
    ensures Describes(st, id, route, rt)
  {
    var r: Route, t: Runtime :| Describes(st, id, r, t);
    FingerprintDecodes(r, t, route, rt);
    assert SameShape(r, t, route, rt);
  }

  lemma RoundKeepsBalance(cw: Totals, route: Route, rt: Runtime, heads: seq<string>)
    requires ValidRoute(route) && Distinct(heads) && (forall h :: h in heads ==> h in route.egress)
    requires Balanced(cw, route, rt) && PoolOf(rt, heads) != []
    ensures Balanced(Round(cw, PoolOf(rt, heads)).cw, route, rt)
  {
    var pool := PoolOf(rt, heads);
    PoolFacts(rt, heads);
    assert forall j :: 0 <= j < |pool| ==> pool[j] in pool;
    RoundConserves(route.egress, cw, pool);
    forall k | k in Round(cw, pool).cw ensures k in route.egress && WeightOf(rt, k) > 0 {
      if forall j :: 0 <= j < |pool| ==> pool[j].id != k {
        RoundFrame(cw, pool, k);
      }
    }
  }

  lemma StepKeepsInv(s: Table, op: Op)
    requires Inv(s) && ValidOp(op)
    ensures Inv(Step(s, op))
  {
    if op.PlanOp? && !Unroutable(op.rt, op.route, op.heads) && !Superseded(s, op.rt, op.route) {
      var rt, route, heads := op.rt, op.route, op.heads;
      var st := StateFor(s, rt, route);
      if route.id in s && s[route.id].fingerprint == Fingerprint(route, rt) {
        BalancedForEveryReader(st, route.id, route, rt);
      } else {
        SumOverEmpty(route.egress);
      }
      assert Describes(st, route.id, route, rt);
      if route.strategy == WEIGHTED_RR {
        RoundKeepsBalance(st.cw, route, rt, heads);
      }
      assert Describes(Advance(st, rt, route, heads).next, route.id, route, rt);
    }
  }

  lemma {:induction false} RunKeepsInv(s: Table, ops: seq<Op>)
    requires Inv(s) && forall i :: 0 <= i < |ops| ==> ValidOp(ops[i])
    ensures Inv(Final(s, ops))
    decreases |ops|
  {
    if ops != [] {
      StepKeepsInv(s, ops[0]);
      RunKeepsInv(Step(s, ops[0]), ops[1..]);
    }
  }

  /** After any run of plans, reloads and prunes: a snapshot that reads a stored weighted state
      finds only its own positive-weight members there, with totals that sum to 0. */
  lemma TotalsStayBalanced(ops: seq<Op>, rt: Runtime, route: Route)
    requires forall i :: 0 <= i < |ops| ==> ValidOp(ops[i])
    requires ValidRoute(route) && route.strategy == WEIGHTED_RR
    requires route.id in Final(map[], ops) && Final(map[], ops)[route.id].fingerprint == Fingerprint(route, rt)
    ensures Balanced(Final(map[], ops)[route.id].cw, route, rt)
  {
    RunKeepsInv(map[], ops);
    EveryReaderFindsBalance(Final(map[], ops), rt, route);
  }

  lemma EveryReaderFindsBalance(s: Table, rt: Runtime, route: Route)
    requires Inv(s) && ValidRoute(route) && route.strategy == WEIGHTED_RR
    requires route.id in s && s[route.id].fingerprint == Fingerprint(route, rt)
    ensures Balanced(s[route.id].cw, route, rt)
  {
    BalancedForEveryReader(s[route.id], route.id, route, rt);
  }

  // ---------------------------------------------------------------- superseded snapshots

  /** A plan call that a newer generation has overtaken. */
  ghost predicate Stale(s: Table, op: Op) {
    op.PlanOp? && Superseded(s, op.rt, op.route)
  }

  ghost function DropStale(s: Table, ops: seq<Op>): seq<Op>
    decreases |ops|
  {
    if ops == [] then []
    else (if Stale(s, ops[0]) then [] else [ops[0]]) + DropStale(Step(s, ops[0]), ops[1..])
  }

  ghost function OutputsOfTheRest(s: Table, ops: seq<Op>): seq<Option<RoutePlan>>
    decreases |ops|
  {
    if ops == [] then []
    else (if Stale(s, ops[0]) then [] else [Output(s, ops[0])]) + OutputsOfTheRest(Step(s, ops[0]), ops[1..])
  }

  /** Deleting the overtaken calls from a run changes neither the table nor any other plan. */
  lemma {:induction false} StaleCallsDoNotInterfere(s: Table, ops: seq<Op>)
    ensures Final(s, DropStale(s, ops)) == Final(s, ops)
    ensures Outputs(s, DropStale(s, ops)) == OutputsOfTheRest(s, ops)
    decreases |ops|
  {
    if ops != [] {
      var op, rest := ops[0], DropStale(Step(s, ops[0]), ops[1..]);
      StaleCallsDoNotInterfere(Step(s, op), ops[1..]);
      if Stale(s, op) {
        assert Step(s, op) == s;
        assert DropStale(s, ops) == rest;
      } else {
        assert DropStale(s, ops) == [op] + rest;
        assert ([op] + rest)[1..] == rest;
      }
    }
  }

  /** The overtaken call itself still gets a plan that is valid for its own snapshot: the fresh first pick. */
  lemma StaleCallPlansFromFreshState(s: Table, op: Op)
    requires Stale(s, op) && ValidOp(op)
    ensures Output(s, op).value == PlanOn(map[], op.rt, op.route, op.heads).1
  {
  }

  /** While a route keeps its entry, the generation stored there never decreases. */
  lemma {:induction false} StoredGenerationNeverDecreases(s: Table, ops: seq<Op>, id: string)
    requires id in s
    requires forall i :: 0 <= i < |ops| && ops[i].PruneOp? ==> id in ops[i].keep
    ensures id in Final(s, ops) && Final(s, ops)[id].generation >= s[id].generation
    decreases |ops|
  {
    if ops != [] {
      assert ops[0].PruneOp? ==> id in ops[0].keep;
      StoredGenerationNeverDecreases(Step(s, ops[0]), ops[1..], id);
    }
  }

  // ---------------------------------------------------------------- fairness, at the scheduler

  /** The table after t plans of the same call. */
  function Repeat(s: Table, rt: Runtime, route: Route, heads: seq<string>, t: nat): Table {
    if t == 0 then s else PlanOn(Repeat(s, rt, route, heads, t - 1), rt, route, heads).0
  }

  function LeadOf(attempts: seq<string>): string { if attempts == [] then "" else attempts[0] }

  /** The leading egress of each of the next n plans of the same call; "" for an empty plan. */
  function Leads(s: Table, rt: Runtime, route: Route, heads: seq<string>, n: nat): (ls: seq<string>)
    ensures |ls| == n
    decreases n
  {
    if n == 0 then []
    else
      var (next, plan) := PlanOn(s, rt, route, heads);
      [LeadOf(plan.attempts)] + Leads(next, rt, route, heads, n - 1)
  }

  /** The next plan of the route starts its rotation afresh. */
  ghost predicate StartsFresh(s: Table, rt: Runtime, route: Route) {
    && !(route.id in s && s[route.id].fingerprint == Fingerprint(route, rt))
    && !Superseded(s, rt, route)
  }

  ghost function CwFor(s: Table, rt: Runtime, route: Route): Totals { StateFor(s, rt, route).cw }

  /** One weighted plan is one round on the state it starts from. */
  lemma PlanIsRound(s: Table, rt: Runtime, route: Route, heads: seq<string>)
    requires route.strategy == WEIGHTED_RR && PoolOf(rt, heads) != [] && heads != []
    requires !Superseded(s, rt, route)
    ensures var (next, plan) := PlanOn(s, rt, route, heads);
            && !Superseded(next, rt, route)
            && CwFor(next, rt, route) == Round(CwFor(s, rt, route), PoolOf(rt, heads)).cw
            && plan.attempts != [] && plan.attempts[0] == Round(CwFor(s, rt, route), PoolOf(rt, heads)).winner
  {
  }

  lemma {:induction false} RepeatTracksRounds(s: Table, rt: Runtime, route: Route, heads: seq<string>, t: nat)
    requires route.strategy == WEIGHTED_RR && heads != [] && PoolOf(rt, heads) != []
    requires StartsFresh(s, rt, route)
    ensures !Superseded(Repeat(s, rt, route, heads, t), rt, route)
    ensures CwFor(Repeat(s, rt, route, heads, t), rt, route) == Rounds(map[], PoolOf(rt, heads), t)
  {
    if t > 0 {
      RepeatTracksRounds(s, rt, route, heads, t - 1);
      PlanIsRound(Repeat(s, rt, route, heads, t - 1), rt, route, heads);
    }
  }

  lemma {:induction false} LeadsAreWinners(s: Table, rt: Runtime, route: Route, heads: seq<string>, n: nat, cw: Totals,
                                           pool: seq<Candidate>)
    requires route.strategy == WEIGHTED_RR && heads != [] && pool != [] && pool == PoolOf(rt, heads)
    requires !Superseded(s, rt, route) && CwFor(s, rt, route) == cw
    ensures Leads(s, rt, route, heads, n) == Winners(cw, pool, n)
    decreases n
  {
    if n > 0 {
      PlanIsRound(s, rt, route, heads);
      LeadsAreWinners(PlanOn(s, rt, route, heads).0, rt, route, heads, n - 1, Round(cw, pool).cw, pool);
    }
  }

  /** Smooth weighted round robin is exact: with a fixed head set of total weight T, any T consecutive plans
      of a rotation lead with each egress exactly its weight many times, and never with a weight-0 one. */
  lemma WeightedSharesAreExact(s: Table, rt: Runtime, route: Route, heads: seq<string>, from: nat, id: string)
    requires route.strategy == WEIGHTED_RR && Distinct(heads) && PoolOf(rt, heads) != []
    requires StartsFresh(s, rt, route) && id in heads && id != ""
    ensures Total(PoolOf(rt, heads)) > 0
    ensures Count(Leads(Repeat(s, rt, route, heads, from), rt, route, heads, Total(PoolOf(rt, heads))), id)
         == if WeightOf(rt, id) > 0 then WeightOf(rt, id) else 0
  {
    var pool := PoolOf(rt, heads);
    PoolIsValid(rt, heads);
    PoolIds(pool);
    if WeightOf(rt, id) > 0 {
      var j := PlaceInPool(rt, heads, id);
      RepeatTracksRounds(s, rt, route, heads, from);
      LeadsAreWinners(Repeat(s, rt, route, heads, from), rt, route, heads, Total(pool), Rounds(map[], pool, from),
                      pool);
      ExactWinners(pool, from, j);
    } else {
      NeverLeads(Repeat(s, rt, route, heads, from), rt, route, heads, Total(pool), id);
    }
  }

  lemma WeightlessNeverLeads(s: Table, rt: Runtime, route: Route, heads: seq<string>, id: string)
    requires route.strategy == WEIGHTED_RR && Distinct(heads) && WeightOf(rt, id) <= 0 && id != ""
    ensures LeadOf(PlanOn(s, rt, route, heads).1.attempts) != id
  {
    PlanIsPermutation(s, rt, route, heads);
  }

  lemma {:induction false} NeverLeads(s: Table, rt: Runtime, route: Route, heads: seq<string>, n: nat, id: string)
    requires route.strategy == WEIGHTED_RR && Distinct(heads) && WeightOf(rt, id) <= 0 && id != ""
    ensures Count(Leads(s, rt, route, heads, n), id) == 0
    decreases n
  {
    if n > 0 {
      WeightlessNeverLeads(s, rt, route, heads, id);
      NeverLeads(PlanOn(s, rt, route, heads).0, rt, route, heads, n - 1, id);
    }
  }

  lemma PoolIsValid(rt: Runtime, heads: seq<string>)
    requires Distinct(heads) && PoolOf(rt, heads) != []
    ensures ValidPool(PoolOf(rt, heads))
  {
    PoolFacts(rt, heads);
    var pool := PoolOf(rt, heads);
    assert forall j :: 0 <= j < |pool| ==> pool[j] in pool;
  }

  lemma PlaceInPool(rt: Runtime, heads: seq<string>, id: string) returns (j: nat)
    requires Distinct(heads) && id in heads && WeightOf(rt, id) > 0
    ensures j < |PoolOf(rt, heads)| && PoolOf(rt, heads)[j] == Candidate(id, WeightOf(rt, id))
  {
    PoolFacts(rt, heads);
    j :| 0 <= j < |PoolOf(rt, heads)| && PoolOf(rt, heads)[j] == Candidate(id, WeightOf(rt, id));
  }

  /** Smoothness: among the first t plans of a rotation an egress of weight w leads at most ceil(t * w / T) times. */
  lemma WeightedPrefixIsSmooth(s: Table, rt: Runtime, route: Route, heads: seq<string>, t: nat, id: string)
    requires route.strategy == WEIGHTED_RR && Distinct(heads)
    requires StartsFresh(s, rt, route) && id in heads && WeightOf(rt, id) > 0
    ensures WithinShare(Count(Leads(s, rt, route, heads, t), id), t, WeightOf(rt, id), Total(PoolOf(rt, heads)))
  {
    var pool := PoolOf(rt, heads);
    var j := PlaceInPool(rt, heads, id);
    PoolIsValid(rt, heads);
    LeadsAreWinners(s, rt, route, heads, t, map[], pool);
    SmoothWinners(pool, t, j);
  }

  lemma {:induction false} RepeatAdvancesCursor(s: Table, rt: Runtime, route: Route, heads: seq<string>, t: nat)
    requires route.strategy != WEIGHTED_RR && heads != [] && !Superseded(s, rt, route)
    ensures !Superseded(Repeat(s, rt, route, heads, t), rt, route)
    ensures StateFor(Repeat(s, rt, route, heads, t), rt, route).cursor == StateFor(s, rt, route).cursor + t
  {
    if t > 0 {
      RepeatAdvancesCursor(s, rt, route, heads, t - 1);
    }
  }

  lemma RemaindersDiffer(c: nat, i: nat, j: nat, n: nat)
    requires 0 < n && i < j < i + n
    ensures (c + i) % n != (c + j) % n
  {
    var a, b := c + i, c + j;
    assert a == n * (a / n) + a % n && b == n * (b / n) + b % n;
    if a % n == b % n {
      assert b - a == n * (b / n - a / n);
      NoSmallMultiple(n, b / n - a / n);
    }
  }

  lemma NoSmallMultiple(n: nat, q: int)
    requires n > 0
    ensures !(0 < n * q < n)
  {
    if q >= 1 { MulOrder(n, 1, q); } else { MulOrder(n, q, 0); }
  }

  /** Round robin spreads evenly: with a fixed head set of size n, any n consecutive plans lead with n different
      egresses. */
  lemma RoundRobinIsEven(s: Table, rt: Runtime, route: Route, heads: seq<string>, t: nat, u: nat)
    requires route.strategy != WEIGHTED_RR && Distinct(heads) && heads != [] && !Superseded(s, rt, route)
    requires t < u < t + |heads|
    ensures LeadOf(PlanOn(Repeat(s, rt, route, heads, t), rt, route, heads).1.attempts)
         != LeadOf(PlanOn(Repeat(s, rt, route, heads, u), rt, route, heads).1.attempts)
  {
    RepeatAdvancesCursor(s, rt, route, heads, t);
    RepeatAdvancesCursor(s, rt, route, heads, u);
    var c := StateFor(s, rt, route).cursor;
    CursorLeads(Repeat(s, rt, route, heads, t), rt, route, heads, c + t);
    CursorLeads(Repeat(s, rt, route, heads, u), rt, route, heads, c + u);
    RemaindersDiffer(c, t, u, |heads|);
  }

  lemma CursorLeads(s: Table, rt: Runtime, route: Route, heads: seq<string>, c: nat)
    requires route.strategy != WEIGHTED_RR && heads != [] && StateFor(s, rt, route).cursor == c
    ensures LeadOf(PlanOn(s, rt, route, heads).1.attempts) == heads[c % |heads|]
  {
  }
}
