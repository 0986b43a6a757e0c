/**
 An execution of module Failover seen by the limiter: its calls, the closes of
 its winner's body and whatever other requests do in between form a run of
 module Slots, so what is proved of such runs holds of the executor.
 */
module SlotRuns {
  import opened Basics
  import opened Routing
  import opened Upstream
  import opened Failover
  import opened FailoverRuns
  import Slots

  /** What happens at the limiter: a call of the execution, a half of a Close of its body, or another request's step. */
  datatype Happening = Mine(call: Call) | Body(frees: bool) | Theirs(step: Slots.Step)

  function CapOf(policy: AttemptPolicy, id: string): int {
    if id in policy.maxConcurrency then policy.maxConcurrency[id] else 0
  }

  /** The limiter and the numbers of the holds the execution took, the current one last. */
  datatype View = View(sys: Slots.System, taken: seq<nat>)
  {
    function mine(): nat { if taken == [] then 0 else taken[|taken| - 1] }
  }

  /** The step a happening is, if it concerns the limiter. */
  function StepOf(plan: RoutePlan, policy: AttemptPolicy, v: View, h: Happening): Option<Slots.Step> {
    match h
    case Mine(Acquired(i)) =>
      if i < |plan.attempts| then Some(Slots.Acquire(plan.attempts[i], CapOf(policy, plan.attempts[i]))) else None
    case Mine(Released(_)) => Some(Slots.Fail(v.mine()))
    case Mine(Handed(_)) => Some(Slots.Win(v.mine()))
    case Mine(_) => None
    case Body(frees) => Some(if frees then Slots.Free(v.mine()) else Slots.CloseBody(v.mine()))
    case Theirs(step) => Some(step)
  }

  function After(plan: RoutePlan, policy: AttemptPolicy, v: View, h: Happening): View {
    var step := StepOf(plan, policy, v, h);
    View(if step.Some? && Slots.Possible(v.sys, step.value) then Slots.Apply(v.sys, step.value) else v.sys,
         if h.Mine? && h.call.Acquired? then v.taken + [|v.sys.holds|] else v.taken)
  }

  function ViewAfter(plan: RoutePlan, policy: AttemptPolicy, v: View, hs: seq<Happening>): View {
    if hs == [] then v else After(plan, policy, ViewAfter(plan, policy, v, hs[..|hs| - 1]), hs[|hs| - 1])
  }

  function StepsOf(plan: RoutePlan, policy: AttemptPolicy, v: View, hs: seq<Happening>): seq<Slots.Step> {
    if hs == [] then []
    else
      var (front, last) := (hs[..|hs| - 1], hs[|hs| - 1]);
      var step := StepOf(plan, policy, ViewAfter(plan, policy, v, front), last);
      StepsOf(plan, policy, v, front) + (if step.Some? then [step.value] else [])
  }

  function CallsOf(hs: seq<Happening>): seq<Call> {
    if hs == [] then []
    else CallsOf(hs[..|hs| - 1]) + (if hs[|hs| - 1].Mine? then [hs[|hs| - 1].call] else [])
  }

  predicate Touches(step: Slots.Step, i: nat) { !step.Acquire? && step.i == i }

  /** The body was closed at least once. */
  predicate ClosedBefore(hs: seq<Happening>) {
    hs != [] && (ClosedBefore(hs[..|hs| - 1]) || hs[|hs| - 1] == Body(false))
  }

  /** How things can happen: an Acquired call was admitted by the limiter, a body is closed once it is handed over,
      first the connection and then the slot, and others take possible steps on holds of their own. */
  ghost predicate Fair(plan: RoutePlan, policy: AttemptPolicy, v: View, hs: seq<Happening>) {
    hs != [] ==>
      var (front, last) := (hs[..|hs| - 1], hs[|hs| - 1]);
      var (w, m) := (ViewAfter(plan, policy, v, front), SeeAll(plan, policy, CallsOf(front)));
      && Fair(plan, policy, v, front)
      && match last
         case Mine(Acquired(i)) =>
           i < |plan.attempts| && Slots.Admits(w.sys.cur, plan.attempts[i], CapOf(policy, plan.attempts[i]))
         case Mine(_) => true
         case Body(frees) => m.stage == Streaming && (frees ==> ClosedBefore(front))
         case Theirs(step) =>
           Slots.Possible(w.sys, step) && forall k :: 0 <= k < |w.taken| ==> !Touches(step, w.taken[k])
  }

  /** Where the execution's holds stand, by the stage of its protocol: all but the last are freed. */
  ghost predicate HoldsStand(v: View, s: Stage, closed: bool) {
    && (forall k :: 0 <= k < |v.taken| ==> v.taken[k] < |v.sys.holds|)
    && (forall k :: 0 <= k < |v.taken| - 1 ==> v.sys.holds[v.taken[k]].phase == Slots.Freed)
    && (s != Streaming ==> !closed)
    && (v.taken == [] ==> s == Idle)
    && (v.taken != [] ==> LastStands(v.sys.holds[v.mine()].phase, s, closed))
  }

  predicate LastStands(phase: Slots.Phase, s: Stage, closed: bool) {
    if HasSlot(s) then phase == Slots.Dialling
    else if s == Streaming then phase != Slots.Dialling && (closed ==> phase in {Slots.Closed, Slots.Freed})
    else phase == Slots.Freed
  }

  lemma OthersLeaveHold(s: Slots.System, step: Slots.Step, i: nat)
    requires Slots.Possible(s, step) && i < |s.holds| && !Touches(step, i)
    ensures i < |Slots.Apply(s, step).holds| && Slots.Apply(s, step).holds[i] == s.holds[i]
  {
  }

  /** The last hold changes phase, the earlier ones stay freed. */
  lemma LastMoves(v: View, t: Slots.System, s: Stage, closed: bool)
    requires v.taken != [] && |t.holds| == |v.sys.holds|
    requires forall k :: 0 <= k < |v.taken| ==> v.taken[k] < |v.sys.holds|
    requires forall k :: 0 <= k < |v.taken| - 1 ==> v.sys.holds[v.taken[k]].phase == Slots.Freed
    requires forall i :: 0 <= i < |t.holds| && i != v.mine() ==> t.holds[i] == v.sys.holds[i]
    requires v.sys.holds[v.mine()].phase != Slots.Freed && (s != Streaming ==> !closed)
    requires LastStands(t.holds[v.mine()].phase, s, closed)
    ensures HoldsStand(View(t, v.taken), s, closed)
  {
  }

  lemma AcquiredKeeps(plan: RoutePlan, policy: AttemptPolicy, v: View, m: Watch, i: nat)
    requires HoldsStand(v, m.stage, false) && See(plan, policy, m, Acquired(i)).ok
    requires i < |plan.attempts| && Slots.Admits(v.sys.cur, plan.attempts[i], CapOf(policy, plan.attempts[i]))
    ensures HoldsStand(After(plan, policy, v, Mine(Acquired(i))), Holding, false)
  {
    var w := After(plan, policy, v, Mine(Acquired(i)));
    assert w.mine() == |v.sys.holds|;
    forall k | 0 <= k < |w.taken| - 1 ensures w.sys.holds[w.taken[k]].phase == Slots.Freed {
      assert w.taken[k] == v.taken[k];
    }
  }

  lemma ReleasedKeeps(plan: RoutePlan, policy: AttemptPolicy, v: View, m: Watch, i: nat)
    requires HoldsStand(v, m.stage, false) && See(plan, policy, m, Released(i)).ok
    ensures Slots.Possible(v.sys, Slots.Fail(v.mine()))
    ensures HoldsStand(After(plan, policy, v, Mine(Released(i))), Freed(m.stage.kind), false)
  {
    LastMoves(v, Slots.GiveBack(v.sys, v.mine()), Freed(m.stage.kind), false);
  }

  lemma HandedKeeps(plan: RoutePlan, policy: AttemptPolicy, v: View, m: Watch, i: nat)
    requires HoldsStand(v, m.stage, false) && See(plan, policy, m, Handed(i)).ok
    ensures Slots.Possible(v.sys, Slots.Win(v.mine()))
    ensures HoldsStand(After(plan, policy, v, Mine(Handed(i))), Streaming, false)
  {
    LastMoves(v, Slots.Enter(v.sys, v.mine(), Slots.Streaming), Streaming, false);
  }

  lemma SilentKeeps(plan: RoutePlan, policy: AttemptPolicy, v: View, m: Watch, c: Call)
    requires HoldsStand(v, m.stage, false) && See(plan, policy, m, c).ok && m.stage != Streaming
    requires c.Skipped? || c.Dialled? || c.Observed?
    ensures HoldsStand(v, See(plan, policy, m, c).stage, false)
  {
  }

  lemma MineKeeps(plan: RoutePlan, policy: AttemptPolicy, v: View, m: Watch, c: Call)
    requires HoldsStand(v, m.stage, false) && See(plan, policy, m, c).ok && m.stage != Streaming
    requires c.Acquired? ==>
               c.i < |plan.attempts| && Slots.Admits(v.sys.cur, plan.attempts[c.i], CapOf(policy, plan.attempts[c.i]))
    ensures StepOf(plan, policy, v, Mine(c)).Some? ==> Slots.Possible(v.sys, StepOf(plan, policy, v, Mine(c)).value)
    ensures HoldsStand(After(plan, policy, v, Mine(c)), See(plan, policy, m, c).stage, false)
  {
    match c
    case Acquired(i) => AcquiredKeeps(plan, policy, v, m, i);
    case Released(i) => ReleasedKeeps(plan, policy, v, m, i);
    case Handed(i) => HandedKeeps(plan, policy, v, m, i);
    case _ => SilentKeeps(plan, policy, v, m, c);
  }

  /** Once a body streams the execution makes no further call. */
  lemma StreamingIsLast(plan: RoutePlan, policy: AttemptPolicy, m: Watch, c: Call)
    requires m.stage == Streaming
    ensures !See(plan, policy, m, c).ok
  {
  }

  lemma BodyKeeps(plan: RoutePlan, policy: AttemptPolicy, v: View, frees: bool, closed: bool)
    requires HoldsStand(v, Streaming, closed) && (frees ==> closed)
    ensures var (step, w) := (StepOf(plan, policy, v, Body(frees)), After(plan, policy, v, Body(frees)));
            Slots.Possible(v.sys, step.value) && HoldsStand(w, Streaming, closed || !frees)
  {
    var (i, phase) := (v.mine(), v.sys.holds[v.mine()].phase);
    if frees && phase == Slots.Closed {
      LastMoves(v, Slots.GiveBack(v.sys, i), Streaming, true);
    } else if !frees && phase == Slots.Streaming {
      LastMoves(v, Slots.Enter(v.sys, i, Slots.Closed), Streaming, true);
    } else {
      assert After(plan, policy, v, Body(frees)) == v;
    }
  }

  lemma TheirsKeep(plan: RoutePlan, policy: AttemptPolicy, v: View, step: Slots.Step, s: Stage, closed: bool)
    requires HoldsStand(v, s, closed) && Slots.Possible(v.sys, step)
    requires forall k :: 0 <= k < |v.taken| ==> !Touches(step, v.taken[k])
    ensures HoldsStand(After(plan, policy, v, Theirs(step)), s, closed)
  {
    forall k | 0 <= k < |v.taken|
      ensures v.taken[k] < |Slots.Apply(v.sys, step).holds|
      ensures Slots.Apply(v.sys, step).holds[v.taken[k]] == v.sys.holds[v.taken[k]]
    {
      OthersLeaveHold(v.sys, step, v.taken[k]);
    }
  }

  /** A monitor that is still content was content all along. */
  lemma SeeStaysBad(plan: RoutePlan, policy: AttemptPolicy, m: Watch, c: Call)
    ensures See(plan, policy, m, c).ok ==> m.ok
  {
  }

  lemma {:induction false} HoldsFollow(plan: RoutePlan, policy: AttemptPolicy, v: View, hs: seq<Happening>)
    requires v.taken == [] && Fair(plan, policy, v, hs) && SeeAll(plan, policy, CallsOf(hs)).ok
    ensures HoldsStand(ViewAfter(plan, policy, v, hs), SeeAll(plan, policy, CallsOf(hs)).stage, ClosedBefore(hs))
    ensures hs != [] ==>
              var (w, last) := (ViewAfter(plan, policy, v, hs[..|hs| - 1]), hs[|hs| - 1]);
              StepOf(plan, policy, w, last).Some? ==> Slots.Possible(w.sys, StepOf(plan, policy, w, last).value)
  {
    if hs != [] {
      var (front, last) := (hs[..|hs| - 1], hs[|hs| - 1]);
      var (w, m) := (ViewAfter(plan, policy, v, front), SeeAll(plan, policy, CallsOf(front)));
      if last.Mine? {
        SeeNext(plan, policy, CallsOf(front), last.call);
        SeeStaysBad(plan, policy, m, last.call);
        HoldsFollow(plan, policy, v, front);
        if m.stage == Streaming { StreamingIsLast(plan, policy, m, last.call); }
        MineKeeps(plan, policy, w, m, last.call);
      } else {
        assert CallsOf(front) + [] == CallsOf(front);
        HoldsFollow(plan, policy, v, front);
        match last {
          case Body(frees) => BodyKeeps(plan, policy, w, frees, ClosedBefore(front));
          case Theirs(step) => TheirsKeep(plan, policy, w, step, m.stage, ClosedBefore(front));
          case Mine(_) =>
        }
      }
    }
  }

  lemma {:induction false} RunsNext(s: Slots.System, run: seq<Slots.Step>, step: Slots.Step)
    requires Slots.Runs(s, run) && Slots.Possible(Slots.End(s, run), step)
    ensures Slots.Runs(s, run + [step]) && Slots.End(s, run + [step]) == Slots.Apply(Slots.End(s, run), step)
    decreases |run|
  {
    if run == [] {
      assert run + [step] == [step] && [step][1..] == [];
      assert Slots.Runs(Slots.Apply(s, step), []);
    } else {
      assert (run + [step])[1..] == run[1..] + [step];
      RunsNext(Slots.Apply(s, run[0]), run[1..], step);
    }
  }

  /** However other requests interleave, an execution that keeps its protocol drives the limiter along a run. */
  lemma {:induction false} ProtocolIsARun(plan: RoutePlan, policy: AttemptPolicy, v: View, hs: seq<Happening>)
    requires v.taken == [] && Fair(plan, policy, v, hs) && SeeAll(plan, policy, CallsOf(hs)).ok
    ensures Slots.Runs(v.sys, StepsOf(plan, policy, v, hs))
    ensures Slots.End(v.sys, StepsOf(plan, policy, v, hs)) == ViewAfter(plan, policy, v, hs).sys
  {
    if hs != [] {
      var (front, last) := (hs[..|hs| - 1], hs[|hs| - 1]);
      var w := ViewAfter(plan, policy, v, front);
      if last.Mine? {
        SeeNext(plan, policy, CallsOf(front), last.call);
        SeeStaysBad(plan, policy, SeeAll(plan, policy, CallsOf(front)), last.call);
      } else {
        assert CallsOf(front) + [] == CallsOf(front);
      }
      HoldsFollow(plan, policy, v, hs);
      ProtocolIsARun(plan, policy, v, front);
      var step := StepOf(plan, policy, w, last);
      if step.Some? {
        RunsNext(v.sys, StepsOf(plan, policy, v, front), step.value);
      } else {
        assert StepsOf(plan, policy, v, front) + [] == StepsOf(plan, policy, v, front);
      }
    }
  }

  /** Every execution, interleaved with other requests in any fair way, is a run of the limiter; so while no cap turns
      on or off the limiter's count stays the number of attempts running plus bodies not yet freed, the execution's
      own among them. */
  lemma ExecutionIsASlotRun(plan: RoutePlan, policy: AttemptPolicy, world: World, log: Log, v: View,
                            hs: seq<Happening>, capped: set<string>)
    requires ValidWorld(world) && Fair(plan, policy, v, hs) && v.taken == []
    requires CallsOf(hs) == ExecFrom(plan, policy, world, 0, Begin(log)).calls
    requires Slots.Regular(v.sys, capped) && Slots.Steady(StepsOf(plan, policy, v, hs), capped)
    ensures Slots.Runs(v.sys, StepsOf(plan, policy, v, hs))
    ensures Slots.Regular(Slots.End(v.sys, StepsOf(plan, policy, v, hs)), capped)
  {
    FailoverIsHonest(plan, policy, world, log);
    ProtocolIsARun(plan, policy, v, hs);
    Slots.SlotsAreConserved(v.sys, StepsOf(plan, policy, v, hs), capped);
  }

  lemma AtRest(v: View, s: Stage, closed: bool)
    requires HoldsStand(v, s, closed) && (Quiet(s) || s == Streaming)
    ensures forall k :: 0 <= k < |v.taken| - (if s == Streaming then 1 else 0) ==>
              v.taken[k] < |v.sys.holds| && v.sys.holds[v.taken[k]].phase == Slots.Freed
    ensures s == Streaming ==>
              v.taken != [] && v.mine() < |v.sys.holds| && v.sys.holds[v.mine()].phase != Slots.Dialling
              && (closed ==> v.sys.holds[v.mine()].phase in {Slots.Closed, Slots.Freed})
  {
    assert v.taken != [] ==> v.mine() == v.taken[|v.taken| - 1];
  }

  /** When an execution has returned, every slot it took is given back, but for the winner's, whose hold its body has;
      that one is given back once the body is closed and frees it. */
  lemma ReturnedHoldsAreFreed(plan: RoutePlan, policy: AttemptPolicy, world: World, log: Log, v: View,
                              hs: seq<Happening>)
    requires ValidWorld(world) && Fair(plan, policy, v, hs) && v.taken == []
    requires CallsOf(hs) == ExecFrom(plan, policy, world, 0, Begin(log)).calls
    ensures var (won, w) := (ExecFrom(plan, policy, world, 0, Begin(log)).won, ViewAfter(plan, policy, v, hs));
            && (forall k :: 0 <= k < |w.taken| - (if won then 1 else 0) ==>
                  w.taken[k] < |w.sys.holds| && w.sys.holds[w.taken[k]].phase == Slots.Freed)
            && (won ==> w.taken != [] && w.mine() < |w.sys.holds| && w.sys.holds[w.mine()].phase != Slots.Dialling)
  {
    FailoverIsHonest(plan, policy, world, log);
    HoldsFollow(plan, policy, v, hs);
    AtRest(ViewAfter(plan, policy, v, hs), SeeAll(plan, policy, CallsOf(hs)).stage, ClosedBefore(hs));
  }
}
