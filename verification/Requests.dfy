/**
 One request from its eligible heads through its plan to its verdict.
 */
module Requests {
  import opened Basics
  import opened Config
  import opened Routing
  import opened Router
  import SchedulerRuns
  import Upstream
  import opened Failover
  import opened FailoverRuns

  function PlanFor(s: Table, rt: Runtime, route: Route, v: Sight): RoutePlan
    requires |v.now| >= |route.egress|
  {
    PlanOn(s, rt, route, HeadsOf(rt, route.egress, v)).1
  }

  lemma PlannedAreEligible(s: Table, rt: Runtime, route: Route, v: Sight)
    requires |v.now| >= |route.egress| && Distinct(route.egress)
    ensures var plan := PlanFor(s, rt, route, v);
            && Distinct(plan.attempts) && |plan.egresses| == |plan.attempts|
            && forall k :: 0 <= k < |plan.attempts| ==> PlannedWell(rt, route, v, plan, k)
  {
    var heads := HeadsOf(rt, route.egress, v);
    var plan := PlanFor(s, rt, route, v);
    HeadsAreTheEligible(rt, route.egress, v);
    SchedulerRuns.PlanIsPermutation(s, rt, route, heads);
    forall k | 0 <= k < |plan.attempts| ensures PlannedWell(rt, route, v, plan, k) {
      assert plan.attempts[k] in plan.attempts;
      assert plan.attempts[k] in multiset(plan.attempts) && plan.attempts[k] in multiset(heads);
      EligibleSomewhere(rt, route, v, plan.attempts[k]);
    }
  }

  lemma EligibleSomewhere(rt: Runtime, route: Route, v: Sight, id: string)
    requires |v.now| >= |route.egress| && Distinct(route.egress) && id in HeadsOf(rt, route.egress, v)
    ensures exists i :: EligibleAt(rt, route.egress, v, i) && route.egress[i] == id
  {
    HeadsAreTheEligible(rt, route.egress, v);
    assert id in route.egress;
    var i :| 0 <= i < |route.egress| && route.egress[i] == id;
    assert EligibleAt(rt, route.egress, v, i);
  }

  /** Plan entry k is an egress of the route that was eligible when it was looked at, as the snapshot defines it. */
  ghost predicate PlannedWell(rt: Runtime, route: Route, v: Sight, plan: RoutePlan, k: nat)
    requires k < |plan.attempts|
  {
    && (exists i :: EligibleAt(rt, route.egress, v, i) && route.egress[i] == plan.attempts[k])
    && plan.attempts[k] in rt.byId
    && EgressAt(plan, k) == Some(rt.byId[plan.attempts[k]])
  }

  /** Whatever rotation state, health, occupancy and dial outcomes a request meets: it dials egresses of its route that
      were eligible, each at most once, as its own snapshot defines them, and at most its budget of them; and a reply
      comes from the last of them. */
  lemma RequestDialsEligibleEgressesOnce(s: Table, rt: Runtime, route: Route, v: Sight, policy: AttemptPolicy,
                                         world: World, log: Upstream.Log)
    requires |v.now| >= |route.egress| && Distinct(route.egress) && ValidWorld(world)
    ensures var plan := PlanFor(s, rt, route, v);
            var r := ExecFrom(plan, policy, world, 0, Begin(log));
            var ds := DialledAt(r.calls);
            && |ds| == r.attempts <= policy.Budget()
            && (forall a :: 0 <= a < |ds| ==> ds[a] < |plan.attempts| && PlannedWell(rt, route, v, plan, ds[a]))
            && (forall a, b :: 0 <= a < b < |ds| ==> plan.attempts[ds[a]] != plan.attempts[ds[b]])
            && (ds != [] ==> r.egress == plan.attempts[ds[|ds| - 1]])
            && (r.won ==> ds != [])
  {
    var plan := PlanFor(s, rt, route, v);
    PlannedAreEligible(s, rt, route, v);
    EgressesDialledOnce(plan, policy, world, log);
    FailoverIsHonest(plan, policy, world, log);
    DialsFollowThePlan(plan, policy, ExecFrom(plan, policy, world, 0, Begin(log)).calls);
  }
}
