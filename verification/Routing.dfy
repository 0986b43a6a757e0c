/**
 The scheduler of internal/routing: per-route rotation state keyed by route id,
 tagged with the fingerprint and the generation that wrote it. Table is the
 value of Scheduler.state; Plan is specified by PlanOn, whose properties are
 proved in module SchedulerRuns.
 */
module Routing {
  import opened Basics
  import opened Config
  import opened SmoothWrr

  datatype Rotation = Rotation(fingerprint: string, generation: nat, cursor: nat, cw: Totals)

  type Table = map<string, Rotation>

  datatype RoutePlan = RoutePlan(routeId: string, strategy: string, attempts: seq<string>,
                                 egresses: seq<Option<Egress>>)

  function PoolOf(rt: Runtime, heads: seq<string>): seq<Candidate> {
    if heads == [] then []
    else
      var last := heads[|heads| - 1];
      PoolOf(rt, heads[..|heads| - 1]) + (if WeightOf(rt, last) > 0 then [Candidate(last, WeightOf(rt, last))] else [])
  }

  function Without(xs: seq<string>, drop: string): seq<string> {
    if xs == [] then []
    else Without(xs[..|xs| - 1], drop) + (if xs[|xs| - 1] != drop then [xs[|xs| - 1]] else [])
  }

  function Resolve(rt: Runtime, ids: seq<string>): (out: seq<Option<Egress>>)
    ensures |out| == |ids|
    ensures forall i :: 0 <= i < |ids| ==> out[i] == if ids[i] in rt.byId then Some(rt.byId[ids[i]]) else None
  {
    seq(|ids|, i requires 0 <= i < |ids| => if ids[i] in rt.byId then Some(rt.byId[ids[i]]) else None)
  }

  function Rotate(heads: seq<string>, cursor: nat): seq<string>
    requires heads != []
  {
    var i := cursor % |heads|;
    heads[i..] + heads[..i]
  }

  /** A superseded snapshot whose shape differs from the stored one plans on throwaway state. */
  predicate Superseded(s: Table, rt: Runtime, route: Route) {
    && route.id in s
    && s[route.id].fingerprint != Fingerprint(route, rt)
    && rt.generation < s[route.id].generation
  }

  /** The rotation state a plan starts from. */
  function StateFor(s: Table, rt: Runtime, route: Route): Rotation {
    if route.id in s && s[route.id].fingerprint == Fingerprint(route, rt) then s[route.id]
    else if Superseded(s, rt, route) then Rotation(Fingerprint(route, rt), 0, 0, map[])
    else Rotation(Fingerprint(route, rt), rt.generation, 0, map[])
  }

  datatype Planned = Planned(next: Rotation, attempts: seq<string>)

  function Advance(st: Rotation, rt: Runtime, route: Route, heads: seq<string>): Planned
    requires heads != []
    requires route.strategy == WEIGHTED_RR ==> PoolOf(rt, heads) != []
  {
    if route.strategy == WEIGHTED_RR then
      var pick := Round(st.cw, PoolOf(rt, heads));
      Planned(st.(cw := pick.cw), [pick.winner] + Without(heads, pick.winner))
    else
      Planned(st.(cursor := st.cursor + 1), Rotate(heads, st.cursor))
  }

  /** No head may be scheduled: the plan is empty and touches no state. */
  predicate Unroutable(rt: Runtime, route: Route, heads: seq<string>) {
    heads == [] || (route.strategy == WEIGHTED_RR && PoolOf(rt, heads) == [])
  }

  function PlanOn(s: Table, rt: Runtime, route: Route, heads: seq<string>): (Table, RoutePlan) {
    if Unroutable(rt, route, heads) then (s, RoutePlan(route.id, route.strategy, [], []))
    else
      var p := Advance(StateFor(s, rt, route), rt, route, heads);
      (if Superseded(s, rt, route) then s else s[route.id := p.next],
       RoutePlan(route.id, route.strategy, p.attempts, Resolve(rt, p.attempts)))
  }

  function PruneOn(s: Table, keep: set<string>): Table {
    map id | id in s && id in keep :: s[id]
  }

  // ---------------------------------------------------------------- the class

  method PositivePool(rt: Runtime, heads: seq<string>) returns (pool: seq<Candidate>)
    ensures pool == PoolOf(rt, heads)
  {
    pool := [];
    for i := 0 to |heads|
      invariant pool == PoolOf(rt, heads[..i])
    {
      assert heads[..i + 1][..i] == heads[..i];
      var w := WeightOf(rt, heads[i]);
      if w > 0 {
        pool := pool + [Candidate(heads[i], w)];
      }
    }
    assert heads[..|heads|] == heads;
  }

  method DropFrom(xs: seq<string>, drop: string) returns (out: seq<string>)
    ensures out == Without(xs, drop)
  {
    out := [];
    for i := 0 to |xs|
      invariant out == Without(xs[..i], drop)
    {
      assert xs[..i + 1][..i] == xs[..i];
      if xs[i] != drop {
        out := out + [xs[i]];
      }
    }
    assert xs[..|xs|] == xs;
  }

  method ResolveEgresses(rt: Runtime, ids: seq<string>) returns (out: seq<Option<Egress>>)
    ensures out == Resolve(rt, ids)
  {
    out := [];
    for i := 0 to |ids|
      invariant |out| == i
      invariant forall j :: 0 <= j < i ==> out[j] == if ids[j] in rt.byId then Some(rt.byId[ids[j]]) else None
    {
      out := out + [if ids[i] in rt.byId then Some(rt.byId[ids[i]]) else None];
    }
  }

  /** The selection loop of the weighted arm, over running totals it updates as it goes. */
  method PickWeighted(start: Totals, pool: seq<Candidate>) returns (cw: Totals, best: string)
    requires pool != []
    ensures Pick(cw, best) == Round(start, pool)
  {
    cw, best := start, "";
    var total, bestCW := 0, 0;
    for i := 0 to |pool|
      invariant Scan(cw, total, best, bestCW) == ScanPool(start, pool, i)
    {
      var c := pool[i];
      total := total + c.w;
      cw := cw[c.id := Get(cw, c.id) + c.w];
      if i == 0 || cw[c.id] > bestCW {
        best, bestCW := c.id, cw[c.id];
      }
    }
    cw := cw[best := Get(cw, best) - total];
  }

  class Scheduler {
    var state: Table

    constructor ()
      ensures state == map[]
    {
      state := map[];
    }

    /** stateFor: the stored state, a stored fresh one, or an unstored throwaway. */
    method RotationFor(route: Route, rt: Runtime) returns (st: Rotation, stored: bool)
      modifies this
      ensures st == StateFor(old(state), rt, route)
      ensures stored == !Superseded(old(state), rt, route)
      ensures state == if stored then old(state)[route.id := st] else old(state)
    {
      var fp := SchedulerFingerprint(route, rt);
      if route.id in state {
        if state[route.id].fingerprint == fp {
          return state[route.id], true;
        }
        if rt.generation < state[route.id].generation {
          return Rotation(fp, 0, 0, map[]), false;
        }
      }
      st, stored := Rotation(fp, rt.generation, 0, map[]), true;
      state := state[route.id := st];
    }

    /** Plan: the table and the plan are those of PlanOn. */
    method Plan(rt: Runtime, route: Route, heads: seq<string>) returns (plan: RoutePlan)
      modifies this
      ensures (state, plan) == PlanOn(old(state), rt, route, heads)
    {
      plan := RoutePlan(route.id, route.strategy, [], []);
      if |heads| == 0 {
        return;
      }
      var pool := [];
      if route.strategy == WEIGHTED_RR {
        pool := PositivePool(rt, heads);
        if |pool| == 0 {
          return;
        }
      }
      var st, stored := RotationFor(route, rt);
      var attempts;
      if route.strategy == WEIGHTED_RR {
        var cw, best := PickWeighted(st.cw, pool);
        st := st.(cw := cw);
        var rest := DropFrom(heads, best);
        attempts := [best] + rest;
      } else {
        var i := st.cursor % |heads|;
        attempts := heads[i..] + heads[..i];
        st := st.(cursor := st.cursor + 1);
      }
      if stored {
        state := state[route.id := st];
      }
      var egresses := ResolveEgresses(rt, attempts);
      plan := RoutePlan(route.id, route.strategy, attempts, egresses);
      assert state == PlanOn(old(state), rt, route, heads).0;
    }

    /** PruneRoutes drops every route the keep set does not name and counts them. */
    method PruneRoutes(keep: set<string>) returns (dropped: nat)
      modifies this
      ensures state == PruneOn(old(state), keep)
      ensures dropped == |old(state).Keys - keep|
    {
      state, dropped := DeleteAbsent(state, keep);
    }
  }

  /** Deletes while walking the map, counting what it drops. */
  method DeleteAbsent<V>(m: map<string, V>, keep: set<string>) returns (rest: map<string, V>, dropped: nat)
    ensures rest == m - (m.Keys - keep)
    ensures dropped == |m.Keys - keep|
  {
    rest, dropped := m, 0;
    var todo := m.Keys;
    ghost var gone: set<string> := {};
    while todo != {}
      invariant todo <= m.Keys
      invariant gone == m.Keys - todo - keep
      invariant rest == m - gone
      invariant dropped == |gone|
      decreases todo
    {
      var id :| id in todo;
      todo := todo - {id};
      if id !in keep {
        rest := rest - {id};
        gone := gone + {id};
        dropped := dropped + 1;
      }
    }
    assert gone == m.Keys - keep;
  }
}
