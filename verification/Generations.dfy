/**
 Requests interleaved step by step over the shared caches of module Router:
 arrivals, configuration swaps, pins, the once-per-generation maintenance under
 the client lock, plans, dials, observations and releases, in any order the
 locks allow.
 */
module Generations {
  import opened Basics
  import opened Config
  import opened Health
  import opened Routing
  import opened Router

  /** Where a request stands. From Matching to Matched and from Servicing to Serviced it holds the client lock. */
  datatype Phase =
    | Arrived
    | Matching | Matched
    | Waiting
    | Servicing | Pruning | Reclaiming | Dropping | Serviced
    | Serving
    | Finished

  datatype Request = Request(rt: Runtime, route: Option<Route>, keys: seq<string>, phase: Phase)

  datatype Caches = Caches(clients: map<string, Client>, states: States, table: Table)

  datatype Sys = Sys(
    store: seq<Runtime>,
    prunedGen: nat,
    caches: Caches,
    refs: Refs,
    holder: Option<nat>,
    reqs: seq<Request>)

  datatype Step =
    | Swap(rt: Runtime)
    | Arrive
    | Act(i: nat, act: Act)

  datatype Act =
    | Lock
    | Pin(route: Option<Route>)
    | Unlock
    | LockAgain
    | Compare
    | Prune
    | Reclaim
    | Drop
    | UnlockAgain
    | Plan(heads: seq<string>)
    | Dial(id: string, built: Option<Client>)
    | Observe(id: string, obs: Obs)
    | Release

  function Newest(s: Sys): Runtime
    requires s.store != []
  {
    s.store[|s.store| - 1]
  }

  predicate Locked(p: Phase) { p in {Matching, Matched, Servicing, Pruning, Reclaiming, Dropping, Serviced} }

  predicate Routed(r: Request, id: string) { r.route.Some? && id in r.route.value.egress && id in r.rt.byId }

  predicate CanAct(s: Sys, r: Request, act: Act) {
    match act
    case Lock => r.phase == Arrived && s.holder.None?
    case Pin(route) => r.phase == Matching && (route.Some? ==> route.value in r.rt.routes)
    case Unlock => r.phase == Matched
    case LockAgain => r.phase == Waiting && s.holder.None?
    case Compare => r.phase == Servicing
    case Prune => r.phase == Pruning
    case Reclaim => r.phase == Reclaiming
    case Drop => r.phase == Dropping
    case UnlockAgain => r.phase == Serviced
    case Plan(_) => r.phase == Serving && r.route.Some?
    case Dial(id, _) => r.phase == Serving && s.holder.None? && Routed(r, id)
    case Observe(id, _) => r.phase == Serving && Routed(r, id)
    case Release => r.phase == Serving
  }

  predicate Possible(s: Sys, step: Step) {
    && s.store != []
    && match step
       case Swap(rt) => rt.generation > Newest(s).generation
       case Arrive => true
       case Act(i, act) => i < |s.reqs| && CanAct(s, s.reqs[i], act)
  }

  function KeysOf(r: Request): seq<string> {
    if r.route.Some? then HealthKeys(Resolved(r.rt, r.route.value.egress)) else []
  }

  /** The request after its own act. */
  function Moved(s: Sys, r: Request, act: Act): Request {
    match act
    case Lock => r.(phase := Matching)
    case Pin(route) => var q := r.(phase := Matched, route := route); q.(keys := KeysOf(q))
    case Unlock => r.(phase := if r.route.None? then Finished else if r.rt.generation == 0 then Serving else Waiting)
    case LockAgain => r.(phase := Servicing)
    case Compare => r.(phase := if s.prunedGen >= r.rt.generation then Serviced else Pruning)
    case Prune => r.(phase := Reclaiming)
    case Reclaim => r.(phase := Dropping)
    case Drop => r.(phase := Serviced)
    case UnlockAgain => r.(phase := Serving)
    case Release => r.(phase := Finished, keys := [])
    case _ => r
  }

  function HolderAfter(s: Sys, i: nat, act: Act): Option<nat> {
    match act
    case Lock => Some(i)
    case LockAgain => Some(i)
    case Unlock => None
    case UnlockAgain => None
    case _ => s.holder
  }

  function RefsAfter(s: Sys, r: Request, act: Act): Refs {
    match act
    case Pin(route) => PinOn(s.refs, KeysOf(r.(route := route)))
    case Release => Health.ReleaseOn(s.refs, r.keys)
    case _ => s.refs
  }

  function PrunedAfter(s: Sys, r: Request, act: Act): nat {
    if act.Compare? && s.prunedGen < r.rt.generation then r.rt.generation else s.prunedGen
  }

  ghost function CachesAfter(s: Sys, r: Request, act: Act): Caches {
    var c := s.caches;
    match act
    case Prune => c.(clients := PruneClientsOn(c.clients, Keep(r.rt).sigs))
    case Reclaim => c.(states := ReclaimOn(c.states, s.refs, Keep(r.rt).active))
    case Drop => c.(table := PruneOn(c.table, Keep(r.rt).routes))
    case Plan(heads) => if r.route.Some? then c.(table := PlanOn(c.table, r.rt, r.route.value, heads).0) else c
    case Dial(id, built) =>
      if id in r.rt.byId then c.(clients := ClientOn(c.clients, r.rt.byId[id].TransportSignature(), built)) else c
    case Observe(id, obs) =>
      if id in r.rt.byId then
        var k := r.rt.byId[id].HealthKey();
        c.(states := Put(c.states, k, ObserveOn(Look(c.states, k), obs)))
      else c
    case _ => c
  }

  ghost function Apply(s: Sys, step: Step): Sys
    requires Possible(s, step)
  {
    match step
    case Swap(rt) => s.(store := s.store + [rt])
    case Arrive => s.(reqs := s.reqs + [Request(Newest(s), None, [], Arrived)])
    case Act(i, act) =>
      var r := s.reqs[i];
      Sys(s.store, PrunedAfter(s, r, act), CachesAfter(s, r, act), RefsAfter(s, r, act), HolderAfter(s, i, act),
          s.reqs[i := Moved(s, r, act)])
  }

  ghost predicate Runs(s: Sys, run: seq<Step>)
    decreases |run|
  {
    run == [] || (Possible(s, run[0]) && Runs(Apply(s, run[0]), run[1..]))
  }

  ghost function End(s: Sys, run: seq<Step>): Sys
    requires Runs(s, run)
    decreases |run|
  {
    if run == [] then s else End(Apply(s, run[0]), run[1..])
  }

  function Boot(rt: Runtime): Sys {
    Sys([rt], 0, Caches(map[], map[], map[]), map[], None, [])
  }

  // ---------------------------------------------------------------- invariants

  ghost predicate Rising(store: seq<Runtime>) {
    forall i, j :: 0 <= i < j < |store| ==> store[i].generation < store[j].generation
  }

  /** Snapshots only rise, requests hold snapshots of the store, and nothing newer than the store was serviced. */
  ghost predicate StoreInv(s: Sys) {
    && s.store != [] && Rising(s.store)
    && s.prunedGen <= Newest(s).generation
    && forall i :: 0 <= i < |s.reqs| ==> s.reqs[i].rt in s.store
  }

  /** The lock has at most one holder, who is the request between its lock and its unlock. */
  ghost predicate LockInv(s: Sys) {
    && (s.holder.Some? ==> s.holder.value < |s.reqs|)
    && forall i :: 0 <= i < |s.reqs| ==> (Locked(s.reqs[i].phase) <==> s.holder == Some(i))
  }

  /** Whoever prunes, reclaims or drops does so against the newest generation serviced. */
  ghost predicate ServiceInv(s: Sys) {
    forall i :: 0 <= i < |s.reqs| ==> s.reqs[i].phase in {Pruning, Reclaiming, Dropping} ==>
      s.reqs[i].rt.generation == s.prunedGen
  }

  function Pins(reqs: seq<Request>, k: string): nat {
    if reqs == [] then 0 else Pins(reqs[..|reqs| - 1], k) + Occurrences(reqs[|reqs| - 1].keys, k)
  }

  ghost predicate KeysInv(r: Request) {
    if r.phase in {Arrived, Matching, Finished} then r.keys == [] else r.keys == KeysOf(r)
  }

  /** The reference counts are the pins held by requests in flight. */
  ghost predicate PinInv(s: Sys) {
    && Tidy(s.refs)
    && (forall k: string :: Held(s.refs, k) == Pins(s.reqs, k))
    && forall i :: 0 <= i < |s.reqs| ==> KeysInv(s.reqs[i])
  }

  ghost predicate Inv(s: Sys) {
    StoreInv(s) && LockInv(s) && ServiceInv(s) && PinInv(s)
  }

  lemma StoreKept(s: Sys, step: Step)
    requires StoreInv(s) && Possible(s, step)
    ensures StoreInv(Apply(s, step))
  {
    var t := Apply(s, step);
    match step
    case Swap(rt) =>
      forall i | 0 <= i < |s.reqs| ensures s.reqs[i].rt in t.store { assert s.reqs[i].rt in s.store; }
    case Arrive =>
      assert Newest(s) in s.store;
    case Act(i, act) =>
      assert t.reqs[i].rt == s.reqs[i].rt && s.reqs[i].rt in s.store;
      GenerationsInStore(s, s.reqs[i].rt);
  }

  lemma GenerationsInStore(s: Sys, rt: Runtime)
    requires s.store != [] && Rising(s.store) && rt in s.store
    ensures rt.generation <= Newest(s).generation
  {
    var j :| 0 <= j < |s.store| && s.store[j] == rt;
    assert j < |s.store| - 1 ==> s.store[j].generation < s.store[|s.store| - 1].generation;
  }

  lemma LockKept(s: Sys, step: Step)
    requires LockInv(s) && Possible(s, step)
    ensures LockInv(Apply(s, step))
  {
    if step.Act? {
      var t := Apply(s, step);
      forall j | 0 <= j < |t.reqs| ensures Locked(t.reqs[j].phase) <==> t.holder == Some(j) {
        if j != step.i { assert t.reqs[j] == s.reqs[j]; }
      }
    }
  }

  lemma ServiceKept(s: Sys, step: Step)
    requires LockInv(s) && ServiceInv(s) && Possible(s, step)
    ensures ServiceInv(Apply(s, step))
  {
    if step.Act? {
      var t := Apply(s, step);
      forall j | 0 <= j < |t.reqs| && t.reqs[j].phase in {Pruning, Reclaiming, Dropping}
        ensures t.reqs[j].rt.generation == t.prunedGen
      {
        if j != step.i {
          assert t.reqs[j] == s.reqs[j];
          assert s.holder == Some(j) && !step.act.Compare?;
        }
      }
    }
  }

  lemma {:induction false} PinsUpdate(reqs: seq<Request>, i: nat, r: Request, k: string)
    requires i < |reqs|
    ensures Pins(reqs[i := r], k) == Pins(reqs, k) - Occurrences(reqs[i].keys, k) + Occurrences(r.keys, k)
    decreases |reqs|
  {
    var n := |reqs| - 1;
    var after := reqs[i := r];
    if i == n {
      assert after[..n] == reqs[..n];
    } else {
      assert after[..n] == reqs[..n][i := r];
      PinsUpdate(reqs[..n], i, r, k);
    }
  }

  /** One request's pins are among all pins. */
  lemma PinsAtLeast(reqs: seq<Request>, i: nat, k: string)
    requires i < |reqs|
    ensures Pins(reqs, k) >= Occurrences(reqs[i].keys, k)
  {
    PinsUpdate(reqs, i, reqs[i].(keys := []), k);
  }

  lemma PinnedByAct(s: Sys, i: nat, route: Option<Route>)
    requires PinInv(s) && Possible(s, Act(i, Act.Pin(route)))
    ensures var (refs, q) := (RefsAfter(s, s.reqs[i], Act.Pin(route)), Moved(s, s.reqs[i], Act.Pin(route)));
            Tidy(refs) && forall k: string :: Held(refs, k) == Held(s.refs, k) + Occurrences(q.keys, k)
  {
    PinCounts(s.refs, KeysOf(s.reqs[i].(route := route)));
  }

  lemma ReleasedByAct(s: Sys, i: nat)
    requires PinInv(s) && Possible(s, Act(i, Release))
    ensures var (refs, r) := (RefsAfter(s, s.reqs[i], Release), s.reqs[i]);
            Tidy(refs) && forall k: string :: Held(refs, k) == Held(s.refs, k) - Occurrences(r.keys, k)
  {
    var r := s.reqs[i];
    Health.ReleaseCounts(s.refs, r.keys);
    forall k: string ensures Held(s.refs, k) >= Occurrences(r.keys, k) {
      PinsAtLeast(s.reqs, i, k);
      assert Held(s.refs, k) == Pins(s.reqs, k);
    }
  }

  lemma PinnedRefs(s: Sys, i: nat, act: Act)
    requires PinInv(s) && Possible(s, Act(i, act))
    ensures Tidy(RefsAfter(s, s.reqs[i], act))
    ensures var (refs, r, q) := (RefsAfter(s, s.reqs[i], act), s.reqs[i], Moved(s, s.reqs[i], act));
            forall k: string :: Held(refs, k) == Held(s.refs, k) - Occurrences(r.keys, k) + Occurrences(q.keys, k)
  {
    assert KeysInv(s.reqs[i]);
    match act
    case Pin(route) => PinnedByAct(s, i, route);
    case Release => ReleasedByAct(s, i);
    case _ => assert Moved(s, s.reqs[i], act).keys == s.reqs[i].keys;
  }

  lemma MovedKeys(s: Sys, i: nat, act: Act)
    requires Possible(s, Act(i, act)) && KeysInv(s.reqs[i])
    ensures KeysInv(Moved(s, s.reqs[i], act))
  {
  }

  lemma PinnedAt(s: Sys, i: nat, act: Act, k: string)
    requires PinInv(s) && Possible(s, Act(i, act))
    ensures Held(RefsAfter(s, s.reqs[i], act), k) == Pins(s.reqs[i := Moved(s, s.reqs[i], act)], k)
  {
    PinnedRefs(s, i, act);
    PinsUpdate(s.reqs, i, Moved(s, s.reqs[i], act), k);
    assert Held(s.refs, k) == Pins(s.reqs, k);
  }

  lemma ActPinKept(s: Sys, i: nat, act: Act)
    requires PinInv(s) && Possible(s, Act(i, act))
    ensures PinInv(Apply(s, Act(i, act)))
  {
    PinnedRefs(s, i, act);
    MovedKeys(s, i, act);
    forall k: string
      ensures Held(RefsAfter(s, s.reqs[i], act), k) == Pins(s.reqs[i := Moved(s, s.reqs[i], act)], k)
    {
      PinnedAt(s, i, act, k);
    }
  }

  lemma ArrivalPinKept(s: Sys)
    requires PinInv(s) && Possible(s, Arrive)
    ensures PinInv(Apply(s, Arrive))
  {
    var t := Apply(s, Arrive);
    assert t.reqs[..|s.reqs|] == s.reqs;
  }

  lemma PinKept(s: Sys, step: Step)
    requires PinInv(s) && Possible(s, step)
    ensures PinInv(Apply(s, step))
  {
    match step
    case Swap(_) =>
    case Arrive => ArrivalPinKept(s);
    case Act(i, act) => ActPinKept(s, i, act);
  }

  lemma BootInv(rt: Runtime)
    ensures Inv(Boot(rt))
  {
  }

  lemma StepInv(s: Sys, step: Step)
    requires Inv(s) && Possible(s, step)
    ensures Inv(Apply(s, step))
    ensures s.prunedGen <= Apply(s, step).prunedGen
  {
    StoreKept(s, step);
    LockKept(s, step);
    ServiceKept(s, step);
    PinKept(s, step);
  }

  /** Every interleaving keeps the invariants, and the serviced generation never decreases. */
  lemma {:induction false} EveryRunIsSafe(s: Sys, run: seq<Step>)
    requires Inv(s) && Runs(s, run)
    ensures Inv(End(s, run))
    ensures s.prunedGen <= End(s, run).prunedGen
    decreases |run|
  {
    if run != [] {
      StepInv(s, run[0]);
      EveryRunIsSafe(Apply(s, run[0]), run[1..]);
    }
  }

  // ---------------------------------------------------------------- mutual exclusion

  /** While one request holds the client lock nobody else changes the transports or the serviced generation,
      nobody reclaims health state, and nobody takes a pin. */
  lemma LockExcludes(s: Sys, i: nat, step: Step)
    requires LockInv(s) && s.holder == Some(i) && Possible(s, step)
    requires step.Act? ==> step.i != i
    ensures var t := Apply(s, step);
            && t.holder == s.holder && t.prunedGen == s.prunedGen && t.caches.clients == s.caches.clients
            && (step.Act? ==> !step.act.Reclaim? && !step.act.Pin? && !step.act.Drop?)
  {
    if step.Act? { assert !Locked(s.reqs[step.i].phase); }
  }

  function Maintenance(i: nat): seq<Step> { [Act(i, Compare), Act(i, Prune), Act(i, Act.Reclaim), Act(i, Drop)] }

  /** One act, as far as the maintenance looks. */
  lemma ActMoves(s: Sys, i: nat, act: Act)
    requires Possible(s, Act(i, act))
    ensures var (t, r) := (Apply(s, Act(i, act)), s.reqs[i]);
            && t.store == s.store && |t.reqs| == |s.reqs| && t.reqs[i] == Moved(s, r, act)
            && t.prunedGen == PrunedAfter(s, r, act) && t.caches == CachesAfter(s, r, act)
            && t.refs == RefsAfter(s, r, act)
  {
  }

  /** Left alone, the four steps under the lock do what Server.OnGeneration promises. */
  lemma MaintenanceIsOnGeneration(s: Sys, i: nat)
    requires s.store != [] && i < |s.reqs| && s.reqs[i].phase == Servicing && s.prunedGen < s.reqs[i].rt.generation
    ensures Runs(s, Maintenance(i))
    ensures var (t, keep) := (End(s, Maintenance(i)), Keep(s.reqs[i].rt));
            && t.prunedGen == s.reqs[i].rt.generation && t.refs == s.refs
            && t.caches == Caches(PruneClientsOn(s.caches.clients, keep.sigs),
                                  ReclaimOn(s.caches.states, s.refs, keep.active),
                                  PruneOn(s.caches.table, keep.routes))
  {
    var s1 := Apply(s, Act(i, Compare));
    var s2 := Apply(s1, Act(i, Prune));
    var s3 := Apply(s2, Act(i, Act.Reclaim));
    var s4 := Apply(s3, Act(i, Drop));
    ActMoves(s, i, Compare);
    ActMoves(s1, i, Prune);
    ActMoves(s2, i, Act.Reclaim);
    ActMoves(s3, i, Drop);
    FourSteps(s, s1, s2, s3, s4, Act(i, Compare), Act(i, Prune), Act(i, Act.Reclaim), Act(i, Drop));
  }

  lemma FourSteps(s: Sys, s1: Sys, s2: Sys, s3: Sys, s4: Sys, a: Step, b: Step, c: Step, d: Step)
    requires Possible(s, a) && s1 == Apply(s, a) && Possible(s1, b) && s2 == Apply(s1, b)
    requires Possible(s2, c) && s3 == Apply(s2, c) && Possible(s3, d) && s4 == Apply(s3, d)
    ensures Runs(s, [a, b, c, d]) && End(s, [a, b, c, d]) == s4
  {
    OneStep(s3, d, [], s4);
    OneStep(s2, c, [d], s4);
    assert [c] + [d] == [c, d];
    OneStep(s1, b, [c, d], s4);
    assert [b] + [c, d] == [b, c, d];
    OneStep(s, a, [b, c, d], s4);
    assert [a] + [b, c, d] == [a, b, c, d];
  }

  lemma OneStep(s: Sys, step: Step, rest: seq<Step>, end: Sys)
    requires Possible(s, step) && Runs(Apply(s, step), rest) && End(Apply(s, step), rest) == end
    ensures Runs(s, [step] + rest) && End(s, [step] + rest) == end
  {
    assert ([step] + rest)[1..] == rest;
  }

  // ---------------------------------------------------------------- what the newest serviced generation names

  lemma SameGeneration(s: Sys, a: Runtime, b: Runtime)
    requires Rising(s.store) && a in s.store && b in s.store && a.generation == b.generation
    ensures a == b
  {
    var i :| 0 <= i < |s.store| && s.store[i] == a;
    var j :| 0 <= j < |s.store| && s.store[j] == b;
  }

  /** The entries of the three caches that rt names and that were there are still there. */
  ghost predicate Survives(rt: Runtime, before: Caches, after: Caches) {
    && (forall sig :: sig in Keep(rt).sigs && sig in before.clients ==>
          sig in after.clients && after.clients[sig] == before.clients[sig])
    && (forall k :: k in Keep(rt).active && k in before.states ==> k in after.states)
    && (forall id :: id in Keep(rt).routes && id in before.table ==> id in after.table)
  }

  lemma PlanKeepsRoutes(t: Table, rt: Runtime, route: Route, heads: seq<string>)
    ensures forall id :: id in t ==> id in PlanOn(t, rt, route, heads).0
  {
  }

  lemma ActSurvives(s: Sys, i: nat, act: Act, rt: Runtime)
    requires Inv(s) && Possible(s, Act(i, act))
    requires rt in s.store && rt.generation == s.prunedGen
    ensures Survives(rt, s.caches, CachesAfter(s, s.reqs[i], act))
  {
    var r := s.reqs[i];
    if act.Prune? || act.Reclaim? || act.Drop? {
      assert r.rt in s.store && r.rt.generation == s.prunedGen;
      SameGeneration(s, r.rt, rt);
    } else if act.Plan? {
      PlanKeepsRoutes(s.caches.table, r.rt, r.route.value, act.heads);
    }
  }

  /** What the newest serviced generation names is dropped only once a strictly newer generation is serviced. */
  lemma {:induction false} NewestServicedSurvives(s: Sys, run: seq<Step>, rt: Runtime, before: Caches)
    requires Inv(s) && Runs(s, run)
    requires rt in s.store && rt.generation == s.prunedGen && Survives(rt, before, s.caches)
    ensures End(s, run).prunedGen > rt.generation || Survives(rt, before, End(s, run).caches)
    decreases |run|
  {
    if run != [] {
      var t := Apply(s, run[0]);
      StepInv(s, run[0]);
      if run[0].Act? { ActSurvives(s, run[0].i, run[0].act, rt); }
      SurvivesTransitively(rt, before, s.caches, t.caches);
      if t.prunedGen == s.prunedGen {
        assert rt in t.store;
        NewestServicedSurvives(t, run[1..], rt, before);
      } else {
        EveryRunIsSafe(t, run[1..]);
      }
    }
  }

  lemma SurvivesTransitively(rt: Runtime, a: Caches, b: Caches, c: Caches)
    requires Survives(rt, a, b) && Survives(rt, b, c)
    ensures Survives(rt, a, c)
  {
  }

  /** How many times a run services generation g. */
  ghost function Services(s: Sys, run: seq<Step>, g: nat): nat
    requires Runs(s, run)
    decreases |run|
  {
    if run == [] then 0
    else
      var t := Apply(s, run[0]);
      (if t.prunedGen != s.prunedGen && t.prunedGen == g then 1 else 0) + Services(t, run[1..], g)
  }

  /** Maintenance runs at most once per generation, however many requests carry its snapshot. */
  lemma {:induction false} ServicedAtMostOnce(s: Sys, run: seq<Step>, g: nat)
    requires Inv(s) && Runs(s, run)
    ensures Services(s, run, g) <= if s.prunedGen < g then 1 else 0
    decreases |run|
  {
    if run != [] {
      StepInv(s, run[0]);
      ServicedAtMostOnce(Apply(s, run[0]), run[1..], g);
    }
  }

  /** How many times a run prunes the transports against generation g. */
  ghost function Prunings(s: Sys, run: seq<Step>, g: nat): nat
    requires Runs(s, run)
    decreases |run|
  {
    if run == [] then 0
    else
      var step := run[0];
      (if step.Act? && step.act.Prune? && s.reqs[step.i].rt.generation == g then 1 else 0)
      + Prunings(Apply(s, step), run[1..], g)
  }

  /** A pruning against g is still to come: g was not serviced yet, or its servant is about to prune. */
  ghost predicate PruningDue(s: Sys, g: nat) {
    s.prunedGen < g || exists i :: 0 <= i < |s.reqs| && s.reqs[i].phase == Pruning && s.reqs[i].rt.generation == g
  }

  lemma StepPrunes(s: Sys, step: Step, g: nat)
    requires Inv(s) && Possible(s, step)
    ensures step.Act? && step.act.Prune? && s.reqs[step.i].rt.generation == g ==>
              PruningDue(s, g) && !PruningDue(Apply(s, step), g)
    ensures PruningDue(Apply(s, step), g) ==> PruningDue(s, g)
  {
    var t := Apply(s, step);
    if step.Act? {
      forall j | 0 <= j < |t.reqs| && j != step.i && t.reqs[j].phase == Pruning
        ensures t.reqs[j] == s.reqs[j] && t.holder == Some(j) && !step.act.Prune? && !step.act.Compare?
      {
        assert t.reqs[j] == s.reqs[j];
        assert s.holder == Some(j);
        LockKept(s, step);
      }
    } else {
      forall j | 0 <= j < |t.reqs| && t.reqs[j].phase == Pruning ensures j < |s.reqs| && t.reqs[j] == s.reqs[j] {}
    }
  }

  /** However requests interleave, a generation's transports are pruned at most once, and so its maintenance runs at
      most once; and never again once a newer one was serviced. */
  lemma {:induction false} PrunedAtMostOnce(s: Sys, run: seq<Step>, g: nat)
    requires Inv(s) && Runs(s, run)
    ensures Prunings(s, run, g) <= if PruningDue(s, g) then 1 else 0
    decreases |run|
  {
    if run != [] {
      StepInv(s, run[0]);
      StepPrunes(s, run[0], g);
      PrunedAtMostOnce(Apply(s, run[0]), run[1..], g);
    }
  }

  // ---------------------------------------------------------------- pinned health state

  lemma {:induction false} AfterCons(s: Option<State>, o: Obs, h: seq<Obs>)
    ensures After(s, [o] + h) == After(ObserveOn(s, o), h)
    decreases |h|
  {
    if h == [] {
      assert [o] + h == [o] && [o][..0] == [];
    } else {
      var n := |h| - 1;
      assert ([o] + h)[..n + 1] == [o] + h[..n];
      AfterCons(s, o, h[..n]);
    }
  }

  /** What this step observes of identity k. */
  function Seen(s: Sys, step: Step, k: string): seq<Obs>
    requires Possible(s, step)
  {
    if step.Act? && step.act.Observe? && s.reqs[step.i].rt.byId[step.act.id].HealthKey() == k
    then [step.act.obs] else []
  }

  ghost function History(s: Sys, run: seq<Step>, k: string): seq<Obs>
    requires Runs(s, run)
    decreases |run|
  {
    if run == [] then [] else Seen(s, run[0], k) + History(Apply(s, run[0]), run[1..], k)
  }

  lemma StepHistory(s: Sys, step: Step, k: string)
    requires Possible(s, step) && Held(s.refs, k) > 0
    ensures Look(Apply(s, step).caches.states, k) == After(Look(s.caches.states, k), Seen(s, step, k))
  {
    if Seen(s, step, k) != [] { assert [step.act.obs][..0] == []; }
  }

  ghost predicate HeldThroughout(s: Sys, run: seq<Step>, k: string)
    requires Runs(s, run)
    decreases |run|
  {
    Held(s.refs, k) > 0 && (run == [] || HeldThroughout(Apply(s, run[0]), run[1..], k))
  }

  /** As long as somebody holds a pin on an identity, its health state is exactly the fold of everything observed
      about it, whatever generations are swapped, serviced and reclaimed meanwhile. */
  lemma {:induction false} PinnedHistorySurvives(s: Sys, run: seq<Step>, k: string)
    requires Runs(s, run) && HeldThroughout(s, run, k)
    ensures Look(End(s, run).caches.states, k) == After(Look(s.caches.states, k), History(s, run, k))
    decreases |run|
  {
    if run != [] {
      var (t, h) := (Apply(s, run[0]), History(Apply(s, run[0]), run[1..], k));
      StepHistory(s, run[0], k);
      PinnedHistorySurvives(t, run[1..], k);
      if Seen(s, run[0], k) == [] {
        assert History(s, run, k) == h;
      } else {
        AfterCons(Look(s.caches.states, k), run[0].act.obs, h);
      }
    }
  }

  lemma {:induction false} OccursIn(keys: seq<string>, k: string)
    ensures Occurrences(keys, k) > 0 <==> k in keys
  {
    if keys != [] {
      OccursIn(keys[..|keys| - 1], k);
      assert keys == keys[..|keys| - 1] + [keys[|keys| - 1]];
    }
  }

  lemma KeysStay(s: Sys, step: Step, i: nat)
    requires Possible(s, step) && i < |s.reqs| && s.reqs[i].keys != [] && KeysInv(s.reqs[i])
    requires step != Act(i, Release)
    ensures i < |Apply(s, step).reqs| && Apply(s, step).reqs[i].keys == s.reqs[i].keys
  {
  }

  lemma PinnedIsHeld(s: Sys, i: nat, k: string)
    requires PinInv(s) && i < |s.reqs| && k in s.reqs[i].keys
    ensures Held(s.refs, k) > 0
  {
    PinsAtLeast(s.reqs, i, k);
    OccursIn(s.reqs[i].keys, k);
    assert Held(s.refs, k) == Pins(s.reqs, k);
  }

  /** A request that has pinned and not released holds its pins. */
  lemma {:induction false} UnreleasedHolds(s: Sys, run: seq<Step>, i: nat, k: string)
    requires Inv(s) && Runs(s, run) && i < |s.reqs| && k in s.reqs[i].keys
    requires forall n :: 0 <= n < |run| ==> run[n] != Act(i, Release)
    ensures HeldThroughout(s, run, k)
    decreases |run|
  {
    PinnedIsHeld(s, i, k);
    if run != [] {
      StepInv(s, run[0]);
      KeysStay(s, run[0], i);
      assert forall n :: 0 <= n < |run| - 1 ==> run[1..][n] == run[n + 1];
      UnreleasedHolds(Apply(s, run[0]), run[1..], i, k);
    }
  }

  /** From its pin to its release a request judges and observes one continuous history of each identity it may
      touch: nothing is reclaimed under it. */
  lemma RequestKeepsItsHistory(s: Sys, run: seq<Step>, i: nat, id: string)
    requires Inv(s) && Runs(s, run) && i < |s.reqs| && Routed(s.reqs[i], id)
    requires s.reqs[i].phase !in {Arrived, Matching, Finished}
    requires forall n :: 0 <= n < |run| ==> run[n] != Act(i, Release)
    ensures var k := s.reqs[i].rt.byId[id].HealthKey();
            Look(End(s, run).caches.states, k) == After(Look(s.caches.states, k), History(s, run, k))
  {
    var r := s.reqs[i];
    var k := r.rt.byId[id].HealthKey();
    assert KeysInv(r);
    RoutedIsPinned(r, id);
    UnreleasedHolds(s, run, i, k);
    PinnedHistorySurvives(s, run, k);
  }

  lemma RoutedIsPinned(r: Request, id: string)
    requires Routed(r, id)
    ensures r.rt.byId[id].HealthKey() in KeysOf(r)
  {
    var ids := r.route.value.egress;
    var j :| 0 <= j < |ids| && ids[j] == id;
    ResolvedMembers(r.rt, ids, r.rt.byId[id]);
    var es := Resolved(r.rt, ids);
    var n :| 0 <= n < |es| && es[n] == r.rt.byId[id];
    assert HealthKeys(es)[n] == r.rt.byId[id].HealthKey();
  }
}
