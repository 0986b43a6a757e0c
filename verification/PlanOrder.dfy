/**
 What one plan is, order and all, said of its heads, the weights the snapshot
 gives them and the state the rotation left: who leads, in which order the
 others stand behind as fallbacks, and what is stored for the next plan.
 */
module PlanOrder {
  import opened Basics
  import opened Config
  import opened SmoothWrr
  import opened Routing
  import opened SchedulerRuns

  /** The weight of a head: what the snapshot sets, or 1. */
  function Share(rt: Runtime, id: string): int {
    if id in rt.byId && rt.byId[id].weight.Some? then rt.byId[id].weight.value else 1
  }

  function ShareSum(rt: Runtime, heads: seq<string>): int {
    if heads == [] then 0
    else
      var w := Share(rt, heads[|heads| - 1]);
      ShareSum(rt, heads[..|heads| - 1]) + (if w > 0 then w else 0)
  }

  ghost predicate AllIdle(rt: Runtime, heads: seq<string>) {
    forall h :: h in heads ==> Share(rt, h) <= 0
  }

  // ---------------------------------------------------------------- the pool

  lemma {:induction false} PoolJoin(rt: Runtime, xs: seq<string>, ys: seq<string>)
    ensures PoolOf(rt, xs + ys) == PoolOf(rt, xs) + PoolOf(rt, ys)
    decreases |ys|
  {
    if ys == [] {
      assert xs + ys == xs;
    } else {
      var n := |ys| - 1;
      assert (xs + ys)[..|xs + ys| - 1] == xs + ys[..n];
      PoolJoin(rt, xs, ys[..n]);
    }
  }

  lemma {:induction false} PoolSum(rt: Runtime, heads: seq<string>)
    ensures Total(PoolOf(rt, heads)) == ShareSum(rt, heads)
  {
    if heads != [] {
      var front := heads[..|heads| - 1];
      PoolSum(rt, front);
      SamePrefixSum(PoolOf(rt, front), PoolOf(rt, heads), |PoolOf(rt, front)|);
    }
  }

  lemma {:induction false} SamePrefixSum(few: seq<Candidate>, many: seq<Candidate>, n: nat)
    requires few <= many && n <= |few|
    ensures Weight(many, n) == Weight(few, n)
  {
    if n > 0 { SamePrefixSum(few, many, n - 1); }
  }

  lemma {:induction false} IdlePool(rt: Runtime, heads: seq<string>)
    ensures PoolOf(rt, heads) == [] <==> AllIdle(rt, heads)
  {
    if heads != [] {
      IdlePool(rt, heads[..|heads| - 1]);
      IdleNext(rt, heads);
    }
  }

  lemma IdleNext(rt: Runtime, heads: seq<string>)
    requires heads != []
    ensures AllIdle(rt, heads) <==> AllIdle(rt, heads[..|heads| - 1]) && Share(rt, heads[|heads| - 1]) <= 0
  {
    var (front, last) := (heads[..|heads| - 1], heads[|heads| - 1]);
    assert heads == front + [last];
    assert last in heads;
    forall h | h in front && AllIdle(rt, heads) ensures Share(rt, h) <= 0 { assert h in heads; }
  }

  // ---------------------------------------------------------------- who leads

  lemma {:induction false} WithoutSplits(xs: seq<string>, i: nat)
    requires Distinct(xs) && i < |xs|
    ensures Without(xs, xs[i]) == xs[..i] + xs[i + 1..]
  {
    var n := |xs| - 1;
    if i < n {
      WithoutSplits(xs[..n], i);
      assert xs[..n][..i] == xs[..i] && xs[i + 1..] == xs[..n][i + 1..] + [xs[n]];
    } else {
      WithoutAbsent(xs[..n], xs[n]);
    }
  }

  lemma {:induction false} WithoutAbsent(xs: seq<string>, x: string)
    requires x !in xs
    ensures Without(xs, x) == xs
  {
    if xs != [] {
      assert xs == xs[..|xs| - 1] + [xs[|xs| - 1]];
      assert xs[|xs| - 1] in xs;
      WithoutAbsent(xs[..|xs| - 1], x);
    }
  }

  /** What a head would score in the next round. */
  function Score(rt: Runtime, cw: Totals, id: string): int { Get(cw, id) + Share(rt, id) }

  /** The head at i leads: it scores highest among the heads that carry weight, before it strictly. */
  ghost predicate LeadsAt(rt: Runtime, cw: Totals, heads: seq<string>, i: nat)
    requires i < |heads|
  {
    && Share(rt, heads[i]) > 0
    && (forall j :: 0 <= j < i && Share(rt, heads[j]) > 0 ==> Score(rt, cw, heads[j]) < Score(rt, cw, heads[i]))
    && (forall j :: i < j < |heads| && Share(rt, heads[j]) > 0 ==> Score(rt, cw, heads[j]) <= Score(rt, cw, heads[i]))
  }

  /** The totals after a round that head i led: those of weighted heads gain their weight, the leader pays for all. */
  ghost predicate Charged(rt: Runtime, cw: Totals, heads: seq<string>, i: nat, after: Totals)
    requires i < |heads|
  {
    forall id: string ::
      Get(after, id) == if id in heads && Share(rt, id) > 0
                        then Score(rt, cw, id) - (if id == heads[i] then ShareSum(rt, heads) else 0)
                        else Get(cw, id)
  }

  lemma PlaceOf(heads: seq<string>, id: string) returns (i: nat)
    requires id in heads
    ensures i < |heads| && heads[i] == id
  {
    i :| 0 <= i < |heads| && heads[i] == id;
  }

  /** Where a weighted head stands in the pool. */
  lemma PoolPlace(rt: Runtime, heads: seq<string>, i: nat)
    requires i < |heads| && Share(rt, heads[i]) > 0
    ensures var k := |PoolOf(rt, heads[..i])|;
            k < |PoolOf(rt, heads)| && PoolOf(rt, heads)[k] == Candidate(heads[i], Share(rt, heads[i]))
    ensures PoolOf(rt, heads) == PoolOf(rt, heads[..i]) + [Candidate(heads[i], Share(rt, heads[i]))]
                                 + PoolOf(rt, heads[i + 1..])
  {
    assert heads == heads[..i] + ([heads[i]] + heads[i + 1..]);
    PoolJoin(rt, heads[..i], [heads[i]] + heads[i + 1..]);
    PoolJoin(rt, [heads[i]], heads[i + 1..]);
    assert [heads[i]][..0] == [];
  }

  lemma PoolPlacesRise(rt: Runtime, heads: seq<string>, i: nat, j: nat)
    requires i < j < |heads| && Share(rt, heads[i]) > 0
    ensures |PoolOf(rt, heads[..i])| < |PoolOf(rt, heads[..j])|
  {
    assert heads[..j][..i] == heads[..i];
    PoolPlace(rt, heads[..j], i);
  }

  lemma RoundLeads(rt: Runtime, cw: Totals, heads: seq<string>) returns (i: nat)
    requires Distinct(heads) && PoolOf(rt, heads) != []
    ensures i < |heads| && Round(cw, PoolOf(rt, heads)).winner == heads[i] && LeadsAt(rt, cw, heads, i)
    ensures Charged(rt, cw, heads, i, Round(cw, PoolOf(rt, heads)).cw)
  {
    var pool := PoolOf(rt, heads);
    PoolIsValid(rt, heads);
    PoolFacts(rt, heads);
    var k := RoundElectsFirstMaximum(cw, pool);
    assert pool[k] in pool;
    i := PlaceOf(heads, pool[k].id);
    PoolPlace(rt, heads, i);
    assert k == |PoolOf(rt, heads[..i])|;
    forall j | 0 <= j < |heads| && j != i && Share(rt, heads[j]) > 0
      ensures if j < i then Score(rt, cw, heads[j]) < Score(rt, cw, heads[i])
              else Score(rt, cw, heads[j]) <= Score(rt, cw, heads[i])
    {
      PoolPlace(rt, heads, j);
      if j < i { PoolPlacesRise(rt, heads, j, i); }
    }
    RoundCharges(rt, cw, heads, i, k);
  }

  /** A round leaves whoever carries no weight alone. */
  lemma UnpooledStays(rt: Runtime, cw: Totals, heads: seq<string>, id: string)
    requires Distinct(heads) && PoolOf(rt, heads) != [] && !(id in heads && Share(rt, id) > 0)
    ensures Get(Round(cw, PoolOf(rt, heads)).cw, id) == Get(cw, id)
  {
    var pool := PoolOf(rt, heads);
    PoolIsValid(rt, heads);
    PoolFacts(rt, heads);
    forall j | 0 <= j < |pool| ensures pool[j].id != id { assert pool[j] in pool; }
    RoundFrame(cw, pool, id);
  }

  lemma RoundCharges(rt: Runtime, cw: Totals, heads: seq<string>, i: nat, k: nat)
    requires Distinct(heads) && i < |heads| && PoolOf(rt, heads) != []
    requires k < |PoolOf(rt, heads)| && PoolOf(rt, heads)[k] == Candidate(heads[i], Share(rt, heads[i]))
    requires forall j :: 0 <= j < |PoolOf(rt, heads)| ==>
               Get(Round(cw, PoolOf(rt, heads)).cw, PoolOf(rt, heads)[j].id)
               == Polled(cw, PoolOf(rt, heads)[j]) - (if j == k then Total(PoolOf(rt, heads)) else 0)
    ensures Charged(rt, cw, heads, i, Round(cw, PoolOf(rt, heads)).cw)
  {
    var pool := PoolOf(rt, heads);
    PoolIsValid(rt, heads);
    PoolFacts(rt, heads);
    PoolSum(rt, heads);
    forall id: string
      ensures Get(Round(cw, pool).cw, id)
           == if id in heads && Share(rt, id) > 0
              then Score(rt, cw, id) - (if id == heads[i] then ShareSum(rt, heads) else 0) else Get(cw, id)
    {
      if id in heads && Share(rt, id) > 0 {
        var j := PlaceOf(heads, id);
        PoolPlace(rt, heads, j);
        assert pool[|PoolOf(rt, heads[..j])|].id == id;
      } else {
        UnpooledStays(rt, cw, heads, id);
      }
    }
  }

  // ---------------------------------------------------------------- one plan

  /** The rotation goes on where its last plan of this shape left it. */
  predicate Resumes(s: Table, rt: Runtime, route: Route) {
    route.id in s && s[route.id].fingerprint == Fingerprint(route, rt)
  }

  /** A newer snapshot of another shape has planned this route before. */
  predicate Overtaken(s: Table, rt: Runtime, route: Route) {
    && route.id in s && s[route.id].fingerprint != Fingerprint(route, rt)
    && rt.generation < s[route.id].generation
  }

  function CursorAt(s: Table, rt: Runtime, route: Route): nat {
    if Resumes(s, rt, route) then s[route.id].cursor else 0
  }

  function TotalsAt(s: Table, rt: Runtime, route: Route): Totals {
    if Resumes(s, rt, route) then s[route.id].cw else map[]
  }

  /** Nobody can lead. */
  ghost predicate Leaderless(rt: Runtime, route: Route, heads: seq<string>) {
    heads == [] || (route.strategy == "weighted_round_robin" && AllIdle(rt, heads))
  }

  /** The heads from the cursor's on, around to the one before it. */
  ghost predicate TurnsFrom(attempts: seq<string>, heads: seq<string>, cursor: nat) {
    && heads != [] && |attempts| == |heads|
    && forall k: nat :: k < |heads| ==> attempts[k] == heads[(cursor + k) % |heads|]
  }

  /** The leader first, then the others as the heads have them. */
  ghost predicate LedBy(attempts: seq<string>, heads: seq<string>, i: nat) {
    i < |heads| && attempts == [heads[i]] + heads[..i] + heads[i + 1..]
  }

  /** What the next plan finds: one entry moves, with the shape it belongs to, the generation that started it, and one
      turn more if turns are what the strategy counts. */
  ghost predicate Moves(s: Table, t: Table, rt: Runtime, route: Route) {
    && t.Keys == s.Keys + {route.id} && (forall id :: id in s && id != route.id ==> t[id] == s[id])
    && var st := t[route.id];
       && st.fingerprint == Fingerprint(route, rt)
       && st.generation == (if Resumes(s, rt, route) then s[route.id].generation else rt.generation)
       && st.cursor == CursorAt(s, rt, route) + (if route.strategy == "weighted_round_robin" then 0 else 1)
       && (route.strategy != "weighted_round_robin" ==> st.cw == TotalsAt(s, rt, route))
  }

  lemma RotateTurns(heads: seq<string>, cursor: nat)
    requires heads != []
    ensures TurnsFrom(Rotate(heads, cursor), heads, cursor)
  {
    forall k: nat | k < |heads| ensures Rotate(heads, cursor)[k] == heads[(cursor + k) % |heads|] {
      RotatedAt(heads, cursor, k);
    }
  }

  lemma RotatedAt(heads: seq<string>, cursor: nat, k: nat)
    requires k < |heads|
    ensures Rotate(heads, cursor)[k] == heads[(cursor + k) % |heads|]
  {
    var (n, i, q) := (|heads|, cursor % |heads|, cursor / |heads|);
    assert cursor == n * q + i;
    Wraps(n, q, i, k);
  }

  lemma Wraps(n: nat, q: nat, i: nat, k: nat)
    requires i < n && k < n
    ensures (n * q + i + k) % n == if i + k < n then i + k else i + k - n
  {
    var r := if i + k < n then i + k else i + k - n;
    var p := if i + k < n then q else q + 1;
    assert n * (q + 1) == n * q + n;
    assert n * q + i + k == n * p + r;
    Remainder(n, p, r);
  }

  lemma Remainder(n: nat, p: nat, r: nat)
    requires r < n
    ensures (n * p + r) % n == r
  {
    var x := n * p + r;
    assert x == n * (x / n) + x % n;
    if x / n != p {
      assert n * (x / n - p) == r - x % n;
      NoSmallMultiple(n, x / n - p);
      NoSmallMultiple(n, p - x / n);
      assert n * (p - x / n) == x % n - r;
    }
  }

  /** A weighted plan is led by the first head of highest score, the others follow in head order, and the totals that
      are stored, if any are, charge the leader. */
  lemma WeightedPlanIsLed(s: Table, rt: Runtime, route: Route, heads: seq<string>) returns (i: nat)
    requires Distinct(heads) && route.strategy == "weighted_round_robin" && !Leaderless(rt, route, heads)
    ensures i < |heads| && LeadsAt(rt, TotalsAt(s, rt, route), heads, i)
    ensures LedBy(PlanOn(s, rt, route, heads).1.attempts, heads, i)
    ensures !Overtaken(s, rt, route) ==>
              && route.id in PlanOn(s, rt, route, heads).0
              && Charged(rt, TotalsAt(s, rt, route), heads, i, PlanOn(s, rt, route, heads).0[route.id].cw)
  {
    IdlePool(rt, heads);
    assert StateFor(s, rt, route).cw == TotalsAt(s, rt, route);
    i := RoundLeads(rt, TotalsAt(s, rt, route), heads);
    WithoutSplits(heads, i);
    assert [heads[i]] + (heads[..i] + heads[i + 1..]) == [heads[i]] + heads[..i] + heads[i + 1..];
  }

  /** Any other plan takes the heads in turn, from the cursor of its rotation on. */
  lemma TurnPlanIsInTurn(s: Table, rt: Runtime, route: Route, heads: seq<string>)
    requires route.strategy != "weighted_round_robin" && heads != []
    ensures TurnsFrom(PlanOn(s, rt, route, heads).1.attempts, heads, CursorAt(s, rt, route))
  {
    RotateTurns(heads, CursorAt(s, rt, route));
  }

  /** Without a leader the plan is empty and the table stays. */
  lemma LeaderlessPlanIsEmpty(s: Table, rt: Runtime, route: Route, heads: seq<string>)
    requires Leaderless(rt, route, heads)
    ensures PlanOn(s, rt, route, heads).0 == s && PlanOn(s, rt, route, heads).1.attempts == []
  {
    IdlePool(rt, heads);
  }

  /** With one, an overtaken snapshot stores nothing, and any other moves its route's entry and no other. */
  lemma PlanStores(s: Table, rt: Runtime, route: Route, heads: seq<string>)
    requires !Leaderless(rt, route, heads)
    ensures if Overtaken(s, rt, route) then PlanOn(s, rt, route, heads).0 == s
            else Moves(s, PlanOn(s, rt, route, heads).0, rt, route)
  {
    IdlePool(rt, heads);
  }

  /** A plan names its route and strategy, and pairs each attempt with what its snapshot says of it. */
  lemma PlanResolves(s: Table, rt: Runtime, route: Route, heads: seq<string>)
    ensures var plan := PlanOn(s, rt, route, heads).1;
            && plan.routeId == route.id && plan.strategy == route.strategy && |plan.egresses| == |plan.attempts|
            && forall k :: 0 <= k < |plan.attempts| ==>
                 plan.egresses[k] == if plan.attempts[k] in rt.byId then Some(rt.byId[plan.attempts[k]]) else None
  {
  }

  /** A pruned table keeps the entries of the routes named, as they are, and no others. */
  lemma PruneExactly(s: Table, keep: set<string>)
    ensures forall id :: id in PruneOn(s, keep) <==> id in s && id in keep
    ensures forall id :: id in s && id in keep ==> PruneOn(s, keep)[id] == s[id]
  {
  }
}
