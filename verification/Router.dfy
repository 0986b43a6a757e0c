/**
 The per-process caches of internal/router: transports by signature, health
 identities and scheduler rotation state, maintained once per configuration
 generation, and the eligible heads a request plans over.
 */
module Router {
  import opened Basics
  import opened Config
  import opened Health
  import opened Routing
  import Slots

  /** A transport is known here by the identity it was built with. */
  type Client = nat

  // ---------------------------------------------------------------- keep sets

  /** The listed egresses that the snapshot resolves, in order. */
  function Resolved(rt: Runtime, ids: seq<string>): seq<Egress> {
    if ids == [] then []
    else
      var id := ids[|ids| - 1];
      Resolved(rt, ids[..|ids| - 1]) + (if id in rt.byId then [rt.byId[id]] else [])
  }

  function Reachable(rt: Runtime, routes: seq<Route>): seq<Egress> {
    if routes == [] then []
    else Reachable(rt, routes[..|routes| - 1]) + Resolved(rt, routes[|routes| - 1].egress)
  }

  function HealthKeys(es: seq<Egress>): seq<string> {
    seq(|es|, i requires 0 <= i < |es| => es[i].HealthKey())
  }

  ghost function Signatures(es: seq<Egress>): set<string> { set e | e in es :: e.TransportSignature() }

  ghost function Identities(es: seq<Egress>): set<string> { set e | e in es :: e.HealthKey() }

  ghost function RouteIds(routes: seq<Route>): set<string> { set r | r in routes :: r.id }

  datatype KeepSets = KeepSets(sigs: set<string>, active: set<string>, routes: set<string>)

  ghost function Keep(rt: Runtime): KeepSets {
    var es := Reachable(rt, rt.routes);
    KeepSets(Signatures(es), Identities(es), RouteIds(rt.routes))
  }

  method AddEgressKeys(rt: Runtime, ids: seq<string>, ghost before: seq<Egress>, sigs0: set<string>,
                       active0: set<string>)
      returns (sigs: set<string>, active: set<string>)
    requires sigs0 == Signatures(before) && active0 == Identities(before)
    ensures sigs == Signatures(before + Resolved(rt, ids))
    ensures active == Identities(before + Resolved(rt, ids))
  {
    sigs, active := sigs0, active0;
    assert before + Resolved(rt, []) == before;
    for i := 0 to |ids|
      invariant sigs == Signatures(before + Resolved(rt, ids[..i]))
      invariant active == Identities(before + Resolved(rt, ids[..i]))
    {
      assert ids[..i + 1][..i] == ids[..i];
      ghost var es := before + Resolved(rt, ids[..i]);
      if ids[i] in rt.byId {
        var e := rt.byId[ids[i]];
        sigs := sigs + {e.TransportSignature()};
        active := active + {e.HealthKey()};
        assert before + Resolved(rt, ids[..i + 1]) == es + [e];
        KeysAppend(es, e);
      } else {
        assert before + Resolved(rt, ids[..i + 1]) == es;
      }
    }
    assert ids[..|ids|] == ids;
  }

  lemma KeysAppend(es: seq<Egress>, e: Egress)
    ensures Signatures(es + [e]) == Signatures(es) + {e.TransportSignature()}
    ensures Identities(es + [e]) == Identities(es) + {e.HealthKey()}
  {
    assert forall x :: x in es + [e] <==> x in es || x == e;
  }

  /** generationKeepSets: transports and identities of route-referenced egresses, and every route's id. */
  method GenerationKeepSets(rt: Runtime) returns (keep: KeepSets)
    ensures keep == Keep(rt)
  {
    var sigs, active, routes: set<string> := {}, {}, {};
    for i := 0 to |rt.routes|
      invariant sigs == Signatures(Reachable(rt, rt.routes[..i]))
      invariant active == Identities(Reachable(rt, rt.routes[..i]))
      invariant routes == RouteIds(rt.routes[..i])
    {
      assert rt.routes[..i + 1][..i] == rt.routes[..i];
      assert forall r :: r in rt.routes[..i + 1] <==> r in rt.routes[..i] || r == rt.routes[i];
      routes := routes + {rt.routes[i].id};
      sigs, active := AddEgressKeys(rt, rt.routes[i].egress, Reachable(rt, rt.routes[..i]), sigs, active);
    }
    assert rt.routes[..|rt.routes|] == rt.routes;
    keep := KeepSets(sigs, active, routes);
  }

  lemma {:induction false} ResolvedMembers(rt: Runtime, ids: seq<string>, e: Egress)
    ensures e in Resolved(rt, ids) <==> exists i :: 0 <= i < |ids| && ids[i] in rt.byId && rt.byId[ids[i]] == e
  {
    if ids != [] {
      var n := |ids| - 1;
      ResolvedMembers(rt, ids[..n], e);
      assert forall i :: 0 <= i < n ==> ids[..n][i] == ids[i];
      if e in Resolved(rt, ids[..n]) {
        var i :| 0 <= i < n && ids[..n][i] in rt.byId && rt.byId[ids[..n][i]] == e;
        assert ids[i] in rt.byId && rt.byId[ids[i]] == e;
      }
    }
  }

  lemma {:induction false} ReachableMembers(rt: Runtime, routes: seq<Route>, e: Egress)
    ensures e in Reachable(rt, routes) <==> exists j :: 0 <= j < |routes| && e in Resolved(rt, routes[j].egress)
  {
    if routes != [] {
      var n := |routes| - 1;
      ReachableMembers(rt, routes[..n], e);
      assert forall j :: 0 <= j < n ==> routes[..n][j] == routes[j];
      if e in Reachable(rt, routes[..n]) {
        var j :| 0 <= j < n && e in Resolved(rt, routes[..n][j].egress);
        assert e in Resolved(rt, routes[j].egress);
      }
    }
  }

  /** An egress of any route of the snapshot keeps its transport, its health identity and its route's rotation state. */
  lemma RoutedEgressIsKept(rt: Runtime, j: nat, i: nat)
    requires j < |rt.routes| && i < |rt.routes[j].egress| && rt.routes[j].egress[i] in rt.byId
    ensures var e := rt.byId[rt.routes[j].egress[i]];
            && e.TransportSignature() in Keep(rt).sigs && e.HealthKey() in Keep(rt).active
            && rt.routes[j].id in Keep(rt).routes
  {
    var e := rt.byId[rt.routes[j].egress[i]];
    ResolvedMembers(rt, rt.routes[j].egress, e);
    ReachableMembers(rt, rt.routes, e);
  }

  // ---------------------------------------------------------------- eligible heads

  datatype Profile = Profile(model: string, streaming: bool, bodyBytes: int)

  /** Everything routeHeads consults besides the snapshot; now[i] is the clock when the i-th listed egress is looked
      at. */
  datatype Sight = Sight(profile: Profile, policy: Policy, states: States, cur: Slots.Occupancy, now: seq<int>,
                         modelAllowed: (seq<string>, string) -> bool)

  predicate Eligible(rt: Runtime, id: string, v: Sight, now: int) {
    && id in rt.byId
    && var e := rt.byId[id];
       && (e.enabled.Some? ==> e.enabled.value)
       && (v.profile.streaming ==> e.streaming.Some? ==> e.streaming.value)
       && (e.models != [] ==> v.modelAllowed(e.models, v.profile.model))
       && (e.maxBodyBytes > 0 ==> v.profile.bodyBytes <= e.maxBodyBytes)
       && HealthyIn(Look(v.states, e.HealthKey()), v.policy, now)
       && Slots.Admits(v.cur, id, e.maxConcurrency)
  }

  /** The eligible members of the list, in its order. */
  function HeadsOf(rt: Runtime, ids: seq<string>, v: Sight): seq<string>
    requires |v.now| >= |ids|
  {
    if ids == [] then []
    else
      var n := |ids| - 1;
      HeadsOf(rt, ids[..n], v) + (if Eligible(rt, ids[n], v, v.now[n]) then [ids[n]] else [])
  }

  ghost predicate EligibleAt(rt: Runtime, ids: seq<string>, v: Sight, i: int) {
    0 <= i < |ids| <= |v.now| && Eligible(rt, ids[i], v, v.now[i])
  }

  lemma {:induction false} HeadsAreMembers(rt: Runtime, ids: seq<string>, v: Sight)
    requires |v.now| >= |ids|
    ensures forall h :: h in HeadsOf(rt, ids, v) ==> h in ids
  {
    if ids != [] {
      var n := |ids| - 1;
      HeadsAreMembers(rt, ids[..n], v);
      assert ids == ids[..n] + [ids[n]];
    }
  }

  lemma {:induction false} HeadsExactly(rt: Runtime, ids: seq<string>, v: Sight)
    requires |v.now| >= |ids| && Distinct(ids)
    ensures Distinct(HeadsOf(rt, ids, v))
    ensures forall i :: 0 <= i < |ids| ==> (ids[i] in HeadsOf(rt, ids, v) <==> EligibleAt(rt, ids, v, i))
  {
    if ids != [] {
      var n := |ids| - 1;
      HeadsExactly(rt, ids[..n], v);
      HeadsAreMembers(rt, ids[..n], v);
      var front := HeadsOf(rt, ids[..n], v);
      assert forall i :: 0 <= i < n ==> ids[..n][i] == ids[i];
      assert ids[n] !in ids[..n];
      forall i | 0 <= i < n ensures ids[i] in HeadsOf(rt, ids, v) <==> EligibleAt(rt, ids, v, i) {
        assert ids[i] in front <==> EligibleAt(rt, ids[..n], v, i);
      }
    }
  }

  ghost predicate InOrder(ids: seq<string>, hs: seq<string>) {
    forall a, b :: 0 <= a < b < |hs| ==> Before(ids, hs[a], hs[b])
  }

  lemma {:induction false} HeadsInOrder(rt: Runtime, ids: seq<string>, v: Sight)
    requires |v.now| >= |ids|
    ensures InOrder(ids, HeadsOf(rt, ids, v))
  {
    if ids != [] {
      var n := |ids| - 1;
      HeadsInOrder(rt, ids[..n], v);
      HeadsAreMembers(rt, ids[..n], v);
      var (front, hs) := (HeadsOf(rt, ids[..n], v), HeadsOf(rt, ids, v));
      forall a, b | 0 <= a < b < |hs| ensures Before(ids, hs[a], hs[b]) {
        assert hs[a] == front[a] && front[a] in front;
        if b < |front| { BeforeGrows(ids, hs[a], hs[b]); } else { BeforeLast(ids, hs[a]); }
      }
    }
  }

  /** For a route with distinct egresses the heads are exactly the eligible ones, each once and in route order. */
  lemma HeadsAreTheEligible(rt: Runtime, ids: seq<string>, v: Sight)
    requires |v.now| >= |ids| && Distinct(ids)
    ensures Distinct(HeadsOf(rt, ids, v)) && InOrder(ids, HeadsOf(rt, ids, v))
    ensures forall i :: 0 <= i < |ids| ==> (ids[i] in HeadsOf(rt, ids, v) <==> EligibleAt(rt, ids, v, i))
    ensures forall h :: h in HeadsOf(rt, ids, v) ==> h in ids
  {
    HeadsAreMembers(rt, ids, v);
    HeadsExactly(rt, ids, v);
    HeadsInOrder(rt, ids, v);
  }

  ghost predicate Before(ids: seq<string>, x: string, y: string) {
    exists i, j :: 0 <= i < j < |ids| && ids[i] == x && ids[j] == y
  }

  lemma BeforeGrows(ids: seq<string>, x: string, y: string)
    requires ids != [] && Before(ids[..|ids| - 1], x, y)
    ensures Before(ids, x, y)
  {
    var i, j :| 0 <= i < j < |ids| - 1 && ids[..|ids| - 1][i] == x && ids[..|ids| - 1][j] == y;
    assert ids[i] == x && ids[j] == y;
  }

  lemma BeforeLast(ids: seq<string>, x: string)
    requires ids != [] && x in ids[..|ids| - 1]
    ensures Before(ids, x, ids[|ids| - 1])
  {
    var i :| 0 <= i < |ids| - 1 && ids[..|ids| - 1][i] == x;
    assert ids[i] == x;
  }

  // ---------------------------------------------------------------- the server

  function PruneClientsOn(clients: map<string, Client>, keep: set<string>): map<string, Client> {
    map sig | sig in clients && sig in keep :: clients[sig]
  }

  /** A lookup that builds on a miss; built is None when the transport cannot be built. */
  function ClientOn(clients: map<string, Client>, sig: string, built: Option<Client>): map<string, Client> {
    if sig in clients || built.None? then clients else clients[sig := built.value]
  }

  class Server {
    var clients: map<string, Client>
    var prunedGen: nat
    const health: Registry
    const scheduler: Scheduler
    const slots: Slots.Limiter

    constructor (health: Registry, scheduler: Scheduler, slots: Slots.Limiter)
      ensures clients == map[] && prunedGen == 0
      ensures this.health == health && this.scheduler == scheduler && this.slots == slots
    {
      clients, prunedGen := map[], 0;
      this.health, this.scheduler, this.slots := health, scheduler, slots;
    }

    method PruneClients(keep: set<string>)
      modifies this`clients
      ensures clients == PruneClientsOn(old(clients), keep)
    {
      var rest, _ := DeleteAbsent(clients, keep);
      clients := rest;
    }

    /** onGeneration: a snapshot newer than the last serviced one prunes transports, reclaims health identities and
        drops rotation state, all against its own keep sets; any other snapshot does nothing. */
    method OnGeneration(rt: Runtime)
      modifies this, health, scheduler
      ensures prunedGen == if rt.generation > old(prunedGen) then rt.generation else old(prunedGen)
      ensures rt.generation > old(prunedGen) ==>
                && clients == PruneClientsOn(old(clients), Keep(rt).sigs)
                && health.states == ReclaimOn(old(health.states), health.refs, Keep(rt).active)
                && scheduler.state == PruneOn(old(scheduler.state), Keep(rt).routes)
      ensures rt.generation <= old(prunedGen) ==>
                && clients == old(clients) && health.states == old(health.states)
                && scheduler.state == old(scheduler.state)
      ensures health.refs == old(health.refs)
    {
      if rt.generation == 0 {
        return;
      }
      if prunedGen >= rt.generation {
        return;
      }
      prunedGen := rt.generation;
      var keep := GenerationKeepSets(rt);
      PruneClients(keep.sigs);
      var _ := health.Reclaim(keep.active);
      assert health.refs == old(health.refs) && scheduler.state == old(scheduler.state);
      var _ := scheduler.PruneRoutes(keep.routes);
    }

    /** clientForEgress: one client per transport signature, whichever egress or generation asks. */
    method ClientForEgress(e: Egress, built: Option<Client>) returns (c: Option<Client>)
      modifies this`clients
      ensures clients == ClientOn(old(clients), e.TransportSignature(), built)
      ensures c == if e.TransportSignature() in old(clients) then Some(old(clients)[e.TransportSignature()]) else built
      ensures c.Some? ==> e.TransportSignature() in clients && clients[e.TransportSignature()] == c.value
      ensures forall sig :: sig != e.TransportSignature() || c.None? ==>
                (sig in clients <==> sig in old(clients)) && (sig in clients ==> clients[sig] == old(clients)[sig])
    {
      var sig := e.TransportSignature();
      if sig in clients {
        return Some(clients[sig]);
      }
      if built.Some? {
        clients := clients[sig := built.value];
      }
      c := built;
    }

    method RouteHeads(rt: Runtime, route: Route, profile: Profile, policy: Policy, now: seq<int>,
                      modelAllowed: (seq<string>, string) -> bool) returns (heads: seq<string>)
      requires |now| >= |route.egress|
      ensures heads == HeadsOf(rt, route.egress, Sight(profile, policy, health.states, slots.cur, now, modelAllowed))
    {
      heads := [];
      ghost var v := Sight(profile, policy, health.states, slots.cur, now, modelAllowed);
      for i := 0 to |route.egress|
        invariant heads == HeadsOf(rt, route.egress[..i], v)
      {
        assert route.egress[..i + 1][..i] == route.egress[..i];
        var id := route.egress[i];
        if id !in rt.byId {
          continue;
        }
        var e := rt.byId[id];
        if e.enabled.Some? && !e.enabled.value {
          continue;
        }
        if e.streaming.Some? && !e.streaming.value && profile.streaming {
          continue;
        }
        if |e.models| > 0 && !modelAllowed(e.models, profile.model) {
          continue;
        }
        if e.maxBodyBytes > 0 && profile.bodyBytes > e.maxBodyBytes {
          continue;
        }
        var healthy := health.Healthy(e.HealthKey(), policy, now[i]);
        if !healthy {
          continue;
        }
        var free := slots.Peek(id, e.maxConcurrency);
        if !free {
          continue;
        }
        heads := heads + [id];
      }
      assert route.egress[..|route.egress|] == route.egress;
    }
  }

  // ---------------------------------------------------------------- what maintenance leaves

  /** The snapshot routes to e: some route lists an id that stands for it. */
  ghost predicate RoutesTo(rt: Runtime, e: Egress) {
    exists j, i ::
      && 0 <= j < |rt.routes| && 0 <= i < |rt.routes[j].egress|
      && rt.routes[j].egress[i] in rt.byId && rt.byId[rt.routes[j].egress[i]] == e
  }

  lemma ReachableIsRouted(rt: Runtime, e: Egress)
    ensures e in Reachable(rt, rt.routes) <==> RoutesTo(rt, e)
  {
    ReachableMembers(rt, rt.routes, e);
    if e in Reachable(rt, rt.routes) {
      var j :| 0 <= j < |rt.routes| && e in Resolved(rt, rt.routes[j].egress);
      ResolvedMembers(rt, rt.routes[j].egress, e);
      var i :| 0 <= i < |rt.routes[j].egress| && rt.routes[j].egress[i] in rt.byId
        && rt.byId[rt.routes[j].egress[i]] == e;
    }
    if RoutesTo(rt, e) {
      var j, i :| && 0 <= j < |rt.routes| && 0 <= i < |rt.routes[j].egress|
                  && rt.routes[j].egress[i] in rt.byId && rt.byId[rt.routes[j].egress[i]] == e;
      ResolvedMembers(rt, rt.routes[j].egress, e);
    }
  }

  /** What a generation keeps: the transports and the identities of the egresses it routes to, and its routes. */
  lemma KeepsExactly(rt: Runtime)
    ensures forall sig :: sig in Keep(rt).sigs <==> exists e: Egress :: RoutesTo(rt, e) && e.TransportSignature() == sig
    ensures forall k :: k in Keep(rt).active <==> exists e: Egress :: RoutesTo(rt, e) && e.HealthKey() == k
    ensures forall id :: id in Keep(rt).routes <==> exists r: Route :: r in rt.routes && r.id == id
  {
    var es := Reachable(rt, rt.routes);
    forall e: Egress ensures e in es <==> RoutesTo(rt, e) { ReachableIsRouted(rt, e); }
  }

  /** What the maintenance of a generation leaves, entry by entry: exactly the transports it routes over, the health
      states it routes to or that requests hold, and the rotations of its routes, each as it was. */
  lemma MaintenanceLeaves(rt: Runtime, clients: map<string, Client>, states: States, refs: Refs, table: Table)
    ensures forall sig :: sig in PruneClientsOn(clients, Keep(rt).sigs)
                     <==> sig in clients && exists e: Egress :: RoutesTo(rt, e) && e.TransportSignature() == sig
    ensures forall k :: k in ReclaimOn(states, refs, Keep(rt).active)
                   <==> k in states && (Held(refs, k) > 0 || exists e: Egress :: RoutesTo(rt, e) && e.HealthKey() == k)
    ensures forall id :: id in PruneOn(table, Keep(rt).routes)
                    <==> id in table && exists r: Route :: r in rt.routes && r.id == id
    ensures forall sig :: sig in PruneClientsOn(clients, Keep(rt).sigs) ==>
              PruneClientsOn(clients, Keep(rt).sigs)[sig] == clients[sig]
    ensures forall k :: k in ReclaimOn(states, refs, Keep(rt).active) ==>
              ReclaimOn(states, refs, Keep(rt).active)[k] == states[k]
    ensures forall id :: id in PruneOn(table, Keep(rt).routes) ==> PruneOn(table, Keep(rt).routes)[id] == table[id]
  {
    KeepsExactly(rt);
  }

  /** What holds a listed egress back from a request: the snapshot does not know it, it is switched off, it does not
      stream, serve the model or take the body, a cooldown runs for it, or its slots are taken. */
  predicate HeldBack(rt: Runtime, id: string, v: Sight, now: int) {
    id !in rt.byId
    || (var e := rt.byId[id];
        || e.enabled == Some(false)
        || (e.streaming == Some(false) && v.profile.streaming)
        || (|e.models| > 0 && !v.modelAllowed(e.models, v.profile.model))
        || (e.maxBodyBytes > 0 && v.profile.bodyBytes > e.maxBodyBytes)
        || (v.policy.enabled && e.HealthKey() in v.states && v.states[e.HealthKey()].until.Some?
            && now < v.states[e.HealthKey()].until.value)
        || (e.maxConcurrency > 0 && id in v.cur && v.cur[id] >= e.maxConcurrency))
  }

  /** A member of the route is no head exactly when something holds it back. */
  lemma HeldBackExactly(rt: Runtime, ids: seq<string>, v: Sight, i: nat)
    requires |v.now| >= |ids| && Distinct(ids) && i < |ids|
    ensures ids[i] !in HeadsOf(rt, ids, v) <==> HeldBack(rt, ids[i], v, v.now[i])
  {
    HeadsExactly(rt, ids, v);
    assert EligibleAt(rt, ids, v, i) <==> Eligible(rt, ids[i], v, v.now[i]);
  }

  /** The identities a request pins are those of the listed egresses that its snapshot knows. */
  lemma PinsExactly(rt: Runtime, ids: seq<string>, k: string)
    ensures k in HealthKeys(Resolved(rt, ids))
       <==> exists i :: 0 <= i < |ids| && ids[i] in rt.byId && rt.byId[ids[i]].HealthKey() == k
  {
    var es := Resolved(rt, ids);
    if k in HealthKeys(es) {
      var n :| 0 <= n < |es| && HealthKeys(es)[n] == k;
      assert es[n] in es;
      ResolvedMembers(rt, ids, es[n]);
      var i :| 0 <= i < |ids| && ids[i] in rt.byId && rt.byId[ids[i]] == es[n];
    }
    if i :| 0 <= i < |ids| && ids[i] in rt.byId && rt.byId[ids[i]].HealthKey() == k {
      ResolvedMembers(rt, ids, rt.byId[ids[i]]);
      var n :| 0 <= n < |es| && es[n] == rt.byId[ids[i]];
      assert HealthKeys(es)[n] == k;
    }
  }

  /** routeHealthKeys: the identities a request pins. */
  method RouteHealthKeys(rt: Runtime, route: Route) returns (keys: seq<string>)
    ensures keys == HealthKeys(Resolved(rt, route.egress))
  {
    keys := [];
    for i := 0 to |route.egress|
      invariant keys == HealthKeys(Resolved(rt, route.egress[..i]))
    {
      assert route.egress[..i + 1][..i] == route.egress[..i];
      if route.egress[i] in rt.byId {
        HealthKeysNext(Resolved(rt, route.egress[..i]), rt.byId[route.egress[i]]);
        keys := keys + [rt.byId[route.egress[i]].HealthKey()];
      }
    }
    assert route.egress[..|route.egress|] == route.egress;
  }

  lemma HealthKeysNext(es: seq<Egress>, e: Egress)
    ensures HealthKeys(es + [e]) == HealthKeys(es) + [e.HealthKey()]
  {
  }
}
