/**
 One route's rotation in arbitrary traffic: other routes plan and are pruned,
 overtaken snapshots plan, policies reload, and still the route's own plans share
 its egresses exactly, or take them in turn.
 */
module RotationRuns {
  import opened Basics
  import opened Config
  import opened SmoothWrr
  import opened Routing
  import opened SchedulerRuns
  import opened PlanOrder

  /** The rotation watched: a route id, the fingerprint of its shape, and its pool of weighted heads. */
  datatype Rotating = Rotating(id: string, fingerprint: string, pool: seq<Candidate>)

  /** A call of the rotation itself: any snapshot of this shape, not overtaken, offering this pool. */
  ghost predicate Own(s: Table, op: Op, r: Rotating) {
    && op.PlanOp? && op.route.id == r.id && op.route.strategy == WEIGHTED_RR
    && Fingerprint(op.route, op.rt) == r.fingerprint && !Superseded(s, op.rt, op.route)
    && op.heads != [] && PoolOf(op.rt, op.heads) == r.pool
  }

  /** Traffic beside it: other routes, overtaken snapshots, calls with nothing to schedule, prunes that keep it. */
  ghost predicate Aside(s: Table, op: Op, r: Rotating) {
    match op
    case PruneOp(keep) => r.id in keep
    case PlanOp(rt, route, heads) => route.id != r.id || Superseded(s, rt, route) || Unroutable(rt, route, heads)
  }

  ghost predicate Traffic(s: Table, ops: seq<Op>, r: Rotating)
    decreases |ops|
  {
    ops != [] ==> (Own(s, ops[0], r) || Aside(s, ops[0], r)) && Traffic(Step(s, ops[0]), ops[1..], r)
  }

  /** The leads of the rotation's own plans, in order. */
  ghost function OwnLeads(s: Table, ops: seq<Op>, r: Rotating): seq<string>
    decreases |ops|
  {
    if ops == [] then []
    else
      (if Own(s, ops[0], r) then [LeadOf(Output(s, ops[0]).value.attempts)] else [])
      + OwnLeads(Step(s, ops[0]), ops[1..], r)
  }

  /** The running totals the rotation would continue from. */
  function TotalsOf(s: Table, r: Rotating): Totals {
    if r.id in s && s[r.id].fingerprint == r.fingerprint then s[r.id].cw else map[]
  }

  lemma OwnIsRound(s: Table, op: Op, r: Rotating)
    requires Own(s, op, r) && r.pool != []
    ensures TotalsOf(Step(s, op), r) == Round(TotalsOf(s, r), r.pool).cw
    ensures LeadOf(Output(s, op).value.attempts) == Round(TotalsOf(s, r), r.pool).winner
  {
    PlanIsRound(s, op.rt, op.route, op.heads);
  }

  lemma AsideIsNoRound(s: Table, op: Op, r: Rotating)
    requires Aside(s, op, r)
    ensures TotalsOf(Step(s, op), r) == TotalsOf(s, r)
  {
  }

  lemma OwnLeadsNext(s: Table, ops: seq<Op>, r: Rotating)
    requires ops != []
    ensures var rest := OwnLeads(Step(s, ops[0]), ops[1..], r);
            OwnLeads(s, ops, r)
            == if Own(s, ops[0], r) then [LeadOf(Output(s, ops[0]).value.attempts)] + rest else rest
  {
  }

  lemma {:induction false} OwnLeadsAreWinners(s: Table, ops: seq<Op>, r: Rotating)
    requires Traffic(s, ops, r) && r.pool != []
    ensures OwnLeads(s, ops, r) == Winners(TotalsOf(s, r), r.pool, |OwnLeads(s, ops, r)|)
    decreases |ops|
  {
    if ops != [] {
      var rest := OwnLeads(Step(s, ops[0]), ops[1..], r);
      OwnLeadsAreWinners(Step(s, ops[0]), ops[1..], r);
      OwnLeadsNext(s, ops, r);
      if Own(s, ops[0], r) {
        OwnIsRound(s, ops[0], r);
        WinnersNext(TotalsOf(s, r), r.pool, |rest|);
      } else {
        AsideIsNoRound(s, ops[0], r);
      }
    }
  }

  lemma {:induction false} RoundsShift(cw: Totals, pool: seq<Candidate>, t: nat)
    requires pool != []
    ensures Rounds(Round(cw, pool).cw, pool, t) == Rounds(cw, pool, t + 1)
  {
    if t > 0 { RoundsShift(cw, pool, t - 1); }
  }

  lemma {:induction false} WinnersAfter(cw: Totals, pool: seq<Candidate>, n: nat, from: nat)
    requires pool != [] && from <= n
    ensures Winners(cw, pool, n)[from..] == Winners(Rounds(cw, pool, from), pool, n - from)
    decreases n
  {
    if from > 0 {
      var next := Round(cw, pool).cw;
      WinnersNext(cw, pool, n - 1);
      WinnersAfter(next, pool, n - 1, from - 1);
      RoundsShift(cw, pool, from - 1);
      assert Winners(cw, pool, n)[from..] == Winners(next, pool, n - 1)[from - 1..];
    }
  }

  lemma {:induction false} WinnersBefore(cw: Totals, pool: seq<Candidate>, n: nat, count: nat)
    requires pool != [] && count <= n
    ensures Winners(cw, pool, n)[..count] == Winners(cw, pool, count)
    decreases n
  {
    if count > 0 {
      var next := Round(cw, pool).cw;
      WinnersNext(cw, pool, n - 1);
      WinnersNext(cw, pool, count - 1);
      WinnersBefore(next, pool, n - 1, count - 1);
      PrefixCons(Round(cw, pool).winner, Winners(next, pool, n - 1), count - 1);
    }
  }

  lemma PrefixCons(x: string, xs: seq<string>, n: nat)
    requires n <= |xs|
    ensures ([x] + xs)[..n + 1] == [x] + xs[..n]
  {
  }

  lemma WinnersWindow(cw: Totals, pool: seq<Candidate>, n: nat, from: nat, count: nat)
    requires pool != [] && from + count <= n
    ensures Winners(cw, pool, n)[from..from + count] == Winners(Rounds(cw, pool, from), pool, count)
  {
    WinnersAfter(cw, pool, n, from);
    WinnersBefore(Rounds(cw, pool, from), pool, n - from, count);
    assert Winners(cw, pool, n)[from..from + count] == Winners(cw, pool, n)[from..][..count];
  }

  /** In any traffic, any T consecutive own plans of a rotation that began fresh lead with each member exactly its
      weight many times, T being the pool's total weight. */
  lemma SharesAreExactInTraffic(s: Table, ops: seq<Op>, r: Rotating, from: nat, j: nat)
    requires ValidPool(r.pool) && j < |r.pool| && Traffic(s, ops, r) && TotalsOf(s, r) == map[]
    requires from + Total(r.pool) <= |OwnLeads(s, ops, r)|
    ensures Total(r.pool) > 0
    ensures Count(OwnLeads(s, ops, r)[from..from + Total(r.pool)], r.pool[j].id) == r.pool[j].w
  {
    OwnLeadsAreWinners(s, ops, r);
    ExactWindow(r.pool, OwnLeads(s, ops, r), from, Total(r.pool), j);
  }

  lemma ExactWindow(pool: seq<Candidate>, ws: seq<string>, from: nat, total: int, j: nat)
    requires ValidPool(pool) && j < |pool| && total == Total(pool)
    requires from + total <= |ws| && ws == Winners(map[], pool, |ws|)
    ensures total > 0
    ensures Count(ws[from..from + total], pool[j].id) == pool[j].w
  {
    ExactWinners(pool, from, j);
    WinnersWindow(map[], pool, |ws|, from, total);
  }

  /** And among the first t of them a member of weight w leads at most the rounded-up t * w / T times. */
  lemma PrefixIsSmoothInTraffic(s: Table, ops: seq<Op>, r: Rotating, t: nat, j: nat)
    requires ValidPool(r.pool) && j < |r.pool| && Traffic(s, ops, r) && TotalsOf(s, r) == map[]
    requires t <= |OwnLeads(s, ops, r)|
    ensures WithinShare(Count(OwnLeads(s, ops, r)[..t], r.pool[j].id), t, r.pool[j].w, Total(r.pool))
  {
    OwnLeadsAreWinners(s, ops, r);
    WinnersWindow(map[], r.pool, |OwnLeads(s, ops, r)|, 0, t);
    assert OwnLeads(s, ops, r)[..t] == OwnLeads(s, ops, r)[0..0 + t];
    SmoothWinners(r.pool, t, j);
  }

  // ---------------------------------------------------------------- taking turns

  /** A rotation that takes turns: a route id and the fingerprint of its shape. */
  datatype Turning = Turning(id: string, fingerprint: string)

  /** A call of that rotation: any snapshot of the shape, whatever heads it offers. */
  ghost predicate OwnTurn(s: Table, op: Op, r: Turning) {
    && op.PlanOp? && op.route.id == r.id && op.route.strategy != "weighted_round_robin"
    && Fingerprint(op.route, op.rt) == r.fingerprint && !Overtaken(s, op.rt, op.route) && op.heads != []
  }

  /** Traffic beside it: other routes, overtaken snapshots, calls without heads, prunes that keep it. */
  ghost predicate BesideTurns(s: Table, op: Op, r: Turning) {
    match op
    case PruneOp(keep) => r.id in keep
    case PlanOp(rt, route, heads) => route.id != r.id || Overtaken(s, rt, route) || heads == []
  }

  ghost predicate TurnTraffic(s: Table, ops: seq<Op>, r: Turning)
    decreases |ops|
  {
    ops != [] ==> (OwnTurn(s, ops[0], r) || BesideTurns(s, ops[0], r)) && TurnTraffic(Step(s, ops[0]), ops[1..], r)
  }

  /** How many of these calls are the rotation's own. */
  ghost function TurnsTaken(s: Table, ops: seq<Op>, r: Turning): nat
    decreases |ops|
  {
    if ops == [] then 0 else (if OwnTurn(s, ops[0], r) then 1 else 0) + TurnsTaken(Step(s, ops[0]), ops[1..], r)
  }

  function CursorOf(s: Table, r: Turning): nat {
    if r.id in s && s[r.id].fingerprint == r.fingerprint then s[r.id].cursor else 0
  }

  lemma CallTurns(s: Table, op: Op, r: Turning)
    requires OwnTurn(s, op, r) || BesideTurns(s, op, r)
    ensures CursorOf(Step(s, op), r) == CursorOf(s, r) + (if OwnTurn(s, op, r) then 1 else 0)
  {
    if op.PlanOp? {
      if Leaderless(op.rt, op.route, op.heads) {
        LeaderlessPlanIsEmpty(s, op.rt, op.route, op.heads);
      } else {
        PlanStores(s, op.rt, op.route, op.heads);
      }
    } else {
      PruneExactly(s, op.keep);
    }
  }

  lemma {:induction false} CursorCountsTurns(s: Table, ops: seq<Op>, r: Turning)
    requires TurnTraffic(s, ops, r)
    ensures CursorOf(Final(s, ops), r) == CursorOf(s, r) + TurnsTaken(s, ops, r)
    decreases |ops|
  {
    if ops != [] {
      CallTurns(s, ops[0], r);
      CursorCountsTurns(Step(s, ops[0]), ops[1..], r);
    }
  }

  /** In any traffic the t-th own plan of a rotation that began fresh, counting from 0, takes its heads in turn from
      head t on: entry k is head t + k, around. So the fallbacks behind the leader follow it in head order, whatever
      heads the call offers. */
  lemma TurnsInTraffic(s: Table, ops: seq<Op>, op: Op, r: Turning)
    requires TurnTraffic(s, ops, r) && OwnTurn(Final(s, ops), op, r)
    requires !(r.id in s && s[r.id].fingerprint == r.fingerprint)
    ensures Output(Final(s, ops), op).Some?
    ensures TurnsFrom(Output(Final(s, ops), op).value.attempts, op.heads, TurnsTaken(s, ops, r))
  {
    CursorCountsTurns(s, ops, r);
    TurnPlanIsInTurn(Final(s, ops), op.rt, op.route, op.heads);
  }
}
