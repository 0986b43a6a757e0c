/**
 The per-egress concurrency gate of internal/upstream/limits.go, and the slots
 that the attempts and response bodies of interleaved requests hold on it.
 */
module Slots {
  import opened Basics

  type Occupancy = map<string, nat>

  function Taken(cur: Occupancy, id: string): nat { if id in cur then cur[id] else 0 }

  /** Acquire counts nothing for an uncapped egress and refuses a full one. */
  predicate Admits(cur: Occupancy, id: string, max: int) { max <= 0 || Taken(cur, id) < max }

  function AcquireOn(cur: Occupancy, id: string, max: int): Occupancy {
    if max <= 0 || Taken(cur, id) >= max then cur else cur[id := Taken(cur, id) + 1]
  }

  function ReleaseOn(cur: Occupancy, id: string): Occupancy {
    if Taken(cur, id) > 0 then cur[id := Taken(cur, id) - 1] else cur
  }

  class Limiter {
    var cur: Occupancy

    constructor ()
      ensures cur == map[]
    {
      cur := map[];
    }

    method Peek(id: string, max: int) returns (free: bool)
      ensures free == Admits(cur, id, max)
    {
      if max <= 0 {
        return true;
      }
      free := Taken(cur, id) < max;
    }

    method Acquire(id: string, max: int) returns (ok: bool)
      modifies this
      ensures ok == Admits(old(cur), id, max)
      ensures cur == AcquireOn(old(cur), id, max)
    {
      if max <= 0 {
        return true;
      }
      if Taken(cur, id) >= max {
        return false;
      }
      cur := cur[id := Taken(cur, id) + 1];
      ok := true;
    }

    method Release(id: string)
      modifies this
      ensures cur == ReleaseOn(old(cur), id)
    {
      if Taken(cur, id) > 0 {
        cur := cur[id := Taken(cur, id) - 1];
      }
    }
  }

  // ---------------------------------------------------------------- interleaved attempts

  /** An attempt dials, wins and streams a body, whose first Close closes the connection and then frees the slot. */
  datatype Phase = Dialling | Streaming | Closed | Freed

  datatype Hold = Hold(id: string, counted: bool, phase: Phase)

  datatype System = System(cur: Occupancy, holds: seq<Hold>)

  /** CloseBody and Free are the two halves of slotReleaseBody.Close; either may be repeated. */
  datatype Step =
    | Acquire(id: string, max: int)
    | Fail(i: nat)
    | Win(i: nat)
    | CloseBody(i: nat)
    | Free(i: nat)

  predicate Possible(s: System, step: Step) {
    match step
    case Acquire(_, _) => true
    case Fail(i) => i < |s.holds| && s.holds[i].phase == Dialling
    case Win(i) => i < |s.holds| && s.holds[i].phase == Dialling
    case CloseBody(i) => i < |s.holds| && s.holds[i].phase != Dialling
    case Free(i) => i < |s.holds| && s.holds[i].phase in {Closed, Freed}
  }

  function Enter(s: System, i: nat, phase: Phase): System
    requires i < |s.holds|
  {
    s.(holds := s.holds[i := s.holds[i].(phase := phase)])
  }

  /** The slot of attempt i goes back, whether or not it was ever counted. */
  function GiveBack(s: System, i: nat): System
    requires i < |s.holds|
  {
    System(ReleaseOn(s.cur, s.holds[i].id), s.holds[i := s.holds[i].(phase := Freed)])
  }

  function Apply(s: System, step: Step): System
    requires Possible(s, step)
  {
    match step
    case Acquire(id, max) =>
      if Admits(s.cur, id, max) then System(AcquireOn(s.cur, id, max), s.holds + [Hold(id, max > 0, Dialling)]) else s
    case Fail(i) => GiveBack(s, i)
    case Win(i) => Enter(s, i, Streaming)
    case CloseBody(i) => if s.holds[i].phase == Streaming then Enter(s, i, Closed) else s
    case Free(i) => if s.holds[i].phase == Closed then GiveBack(s, i) else s
  }

  predicate Runs(s: System, run: seq<Step>)
    decreases |run|
  {
    run == [] || (Possible(s, run[0]) && Runs(Apply(s, run[0]), run[1..]))
  }

  function End(s: System, run: seq<Step>): System
    requires Runs(s, run)
    decreases |run|
  {
    if run == [] then s else End(Apply(s, run[0]), run[1..])
  }

  predicate Occupies(h: Hold, id: string) { h.id == id && h.counted && h.phase != Freed }

  /** The counted attempts of id that still run or whose body is not freed. */
  function Occupants(holds: seq<Hold>, id: string): nat {
    if holds == [] then 0
    else Occupants(holds[..|holds| - 1], id) + (if Occupies(holds[|holds| - 1], id) then 1 else 0)
  }

  lemma {:induction false} OccupantsUpdate(holds: seq<Hold>, i: nat, h: Hold, id: string)
    requires i < |holds|
    ensures Occupants(holds[i := h], id)
         == Occupants(holds, id) - (if Occupies(holds[i], id) then 1 else 0) + (if Occupies(h, id) then 1 else 0)
    decreases |holds|
  {
    var n := |holds| - 1;
    var after := holds[i := h];
    if i == n {
      assert after[..n] == holds[..n];
    } else {
      assert after[..n] == holds[..n][i := h];
      OccupantsUpdate(holds[..n], i, h, id);
    }
  }

  lemma OccupantsAppend(holds: seq<Hold>, h: Hold, id: string)
    ensures Occupants(holds + [h], id) == Occupants(holds, id) + (if Occupies(h, id) then 1 else 0)
  {
    assert (holds + [h])[..|holds|] == holds;
  }

  /** The gate's count is the number of counted holds. */
  ghost predicate Conserved(s: System) {
    forall id: string :: Taken(s.cur, id) == Occupants(s.holds, id)
  }

  /** Giving back an uncounted slot while others of the same egress are taken frees a slot somebody still holds. */
  predicate Harmless(s: System, step: Step)
    requires Possible(s, step)
  {
    var gives := step.Fail? || (step.Free? && s.holds[step.i].phase == Closed);
    gives ==> s.holds[step.i].counted || Taken(s.cur, s.holds[step.i].id) == 0
  }

  lemma OccupantAmong(holds: seq<Hold>, i: nat)
    requires i < |holds| && Occupies(holds[i], holds[i].id)
    ensures Occupants(holds, holds[i].id) > 0
  {
    OccupantsUpdate(holds, i, holds[i].(phase := Freed), holds[i].id);
  }

  lemma GiveBackConserves(s: System, i: nat)
    requires Conserved(s) && i < |s.holds| && s.holds[i].phase != Freed
    ensures Conserved(GiveBack(s, i)) <==> s.holds[i].counted || Taken(s.cur, s.holds[i].id) == 0
  {
    var h := s.holds[i];
    forall id: string
      ensures Occupants(GiveBack(s, i).holds, id) == Occupants(s.holds, id) - (if Occupies(h, id) then 1 else 0)
    {
      OccupantsUpdate(s.holds, i, h.(phase := Freed), id);
    }
    if h.counted { OccupantAmong(s.holds, i); }
    if !h.counted && Taken(s.cur, h.id) > 0 {
      assert Taken(GiveBack(s, i).cur, h.id) != Occupants(GiveBack(s, i).holds, h.id);
    }
  }

  lemma EnterConserves(s: System, i: nat, phase: Phase)
    requires Conserved(s) && i < |s.holds| && s.holds[i].phase != Freed && phase != Freed
    ensures Conserved(Enter(s, i, phase))
  {
    forall id: string ensures Occupants(Enter(s, i, phase).holds, id) == Occupants(s.holds, id) {
      OccupantsUpdate(s.holds, i, s.holds[i].(phase := phase), id);
    }
  }

  lemma AcquireConserves(s: System, id: string, max: int)
    requires Conserved(s)
    ensures Conserved(Apply(s, Acquire(id, max)))
  {
    if Admits(s.cur, id, max) {
      forall k: string
        ensures Taken(AcquireOn(s.cur, id, max), k) == Occupants(s.holds + [Hold(id, max > 0, Dialling)], k)
      {
        OccupantsAppend(s.holds, Hold(id, max > 0, Dialling), k);
      }
    }
  }

  /** A step keeps the count exactly when it is harmless. */
  lemma StepConserves(s: System, step: Step)
    requires Conserved(s) && Possible(s, step)
    ensures Conserved(Apply(s, step)) <==> Harmless(s, step)
  {
    match step
    case Acquire(id, max) => AcquireConserves(s, id, max);
    case Fail(i) => GiveBackConserves(s, i);
    case Win(i) => EnterConserves(s, i, Streaming);
    case CloseBody(i) => if s.holds[i].phase == Streaming { EnterConserves(s, i, Closed); }
    case Free(i) => if s.holds[i].phase == Closed { GiveBackConserves(s, i); }
  }

  ghost predicate ConservedThroughout(s: System, run: seq<Step>)
    requires Runs(s, run)
    decreases |run|
  {
    Conserved(s) && (run == [] || ConservedThroughout(Apply(s, run[0]), run[1..]))
  }

  predicate HarmlessThroughout(s: System, run: seq<Step>)
    requires Runs(s, run)
    decreases |run|
  {
    run == [] || (Harmless(s, run[0]) && HarmlessThroughout(Apply(s, run[0]), run[1..]))
  }

  /** Over any interleaving the count equals the slots held at every moment, exactly when no uncounted slot was
      ever given back while others of its egress were taken. */
  lemma {:induction false} ConservedExactlyWhenHarmless(s: System, run: seq<Step>)
    requires Conserved(s) && Runs(s, run)
    ensures ConservedThroughout(s, run) <==> HarmlessThroughout(s, run)
    decreases |run|
  {
    if run != [] {
      StepConserves(s, run[0]);
      if Harmless(s, run[0]) { ConservedExactlyWhenHarmless(Apply(s, run[0]), run[1..]); }
    }
  }

  // ---------------------------------------------------------------- caps that keep their sign

  /** Across all configurations in force, id is either capped or not. */
  ghost predicate Steady(run: seq<Step>, capped: set<string>) {
    forall k :: 0 <= k < |run| ==> run[k].Acquire? ==> (run[k].max > 0 <==> run[k].id in capped)
  }

  ghost predicate Regular(s: System, capped: set<string>) {
    && Conserved(s)
    && forall i :: 0 <= i < |s.holds| ==> (s.holds[i].counted <==> s.holds[i].id in capped)
  }

  lemma {:induction false} NoOccupants(holds: seq<Hold>, id: string)
    requires forall i :: 0 <= i < |holds| ==> holds[i].id == id ==> !holds[i].counted
    ensures Occupants(holds, id) == 0
  {
    if holds != [] { NoOccupants(holds[..|holds| - 1], id); }
  }

  lemma StepRegular(s: System, step: Step, capped: set<string>)
    requires Regular(s, capped) && Possible(s, step)
    requires step.Acquire? ==> (step.max > 0 <==> step.id in capped)
    ensures Regular(Apply(s, step), capped) && Harmless(s, step)
  {
    StepConserves(s, step);
    if !step.Acquire? && !s.holds[step.i].counted { NoOccupants(s.holds, s.holds[step.i].id); }
  }

  /** While no cap turns on or off, every run keeps the count equal to the attempts running plus the bodies not yet
      freed. */
  lemma {:induction false} SlotsAreConserved(s: System, run: seq<Step>, capped: set<string>)
    requires Regular(s, capped) && Runs(s, run) && Steady(run, capped)
    ensures Regular(End(s, run), capped)
    decreases |run|
  {
    if run != [] {
      StepRegular(s, run[0], capped);
      assert forall k :: 0 <= k < |run| - 1 ==> run[1..][k] == run[k + 1];
      SlotsAreConserved(Apply(s, run[0]), run[1..], capped);
    }
  }

  predicate Live(h: Hold, id: string) { h.id == id && h.counted && h.phase in {Dialling, Streaming} }

  /** Counted attempts of id whose connection is still open. */
  function Connections(holds: seq<Hold>, id: string): nat {
    if holds == [] then 0
    else Connections(holds[..|holds| - 1], id) + (if Live(holds[|holds| - 1], id) then 1 else 0)
  }

  lemma {:induction false} ConnectionsOccupy(holds: seq<Hold>, id: string)
    ensures Connections(holds, id) <= Occupants(holds, id)
  {
    if holds != [] { ConnectionsOccupy(holds[..|holds| - 1], id); }
  }

  /** The body closes before the slot frees, so an admitted attempt finds fewer than max connections of its
      egress open, and there are at most max with its own. */
  lemma CapBoundsConnections(s: System, id: string, max: int)
    requires Conserved(s) && max > 0 && Admits(s.cur, id, max)
    ensures Connections(s.holds, id) < max
    ensures Connections(Apply(s, Acquire(id, max)).holds, id) <= max
    ensures Taken(Apply(s, Acquire(id, max)).cur, id) <= max
  {
    var after := Apply(s, Acquire(id, max));
    ConnectionsOccupy(s.holds, id);
    AcquireConserves(s, id, max);
    ConnectionsOccupy(after.holds, id);
  }

  predicate IsFreed(s: System, i: nat) { i < |s.holds| && s.holds[i].phase == Freed }

  /** The step gives back the slot of hold i. */
  predicate Gives(s: System, step: Step, i: nat)
    requires Possible(s, step)
  {
    step == Fail(i) || (step == Free(i) && s.holds[i].phase == Closed)
  }

  /** How often a run gives back the slot of hold i, which may only be taken in the course of it. */
  function GivenBack(s: System, run: seq<Step>, i: nat): nat
    requires Runs(s, run)
    decreases |run|
  {
    if run == [] then 0
    else (if Gives(s, run[0], i) then 1 else 0) + GivenBack(Apply(s, run[0]), run[1..], i)
  }

  /** In any run, however bodies are closed and others interleave, each slot is given back at most once: exactly when
      its hold ends freed and did not start so. A freed hold stays freed. */
  lemma {:induction false} GivenBackOnce(s: System, run: seq<Step>, i: nat)
    requires Runs(s, run)
    ensures GivenBack(s, run, i) == (if IsFreed(End(s, run), i) then 1 else 0) - (if IsFreed(s, i) then 1 else 0)
    ensures IsFreed(s, i) ==> IsFreed(End(s, run), i)
    decreases |run|
  {
    if run != [] { GivenBackOnce(Apply(s, run[0]), run[1..], i); }
  }

  /** Closing a freed body again, in any order of the halves, changes nothing at all. */
  lemma {:induction false} FreedForGood(s: System, run: seq<Step>, i: nat)
    requires Runs(s, run) && IsFreed(s, i)
    requires forall k :: 0 <= k < |run| ==> run[k] == CloseBody(i) || run[k] == Free(i)
    ensures End(s, run) == s
    decreases |run|
  {
    if run != [] {
      assert run[0] == CloseBody(i) || run[0] == Free(i);
      assert forall k :: 0 <= k < |run| - 1 ==> run[1..][k] == run[k + 1];
      FreedForGood(s, run[1..], i);
    }
  }

  /** The occupancy right after a capped attempt was admitted: that attempt and those before it, within the cap. */
  lemma OccupancyIncludesTheDial(s: System, id: string, max: int)
    requires Conserved(s) && max > 0 && Admits(s.cur, id, max)
    ensures var t := Apply(s, Acquire(id, max));
            Taken(t.cur, id) == Occupants(t.holds, id) == Occupants(s.holds, id) + 1 && Taken(t.cur, id) <= max
  {
    AcquireConserves(s, id, max);
    OccupantsAppend(s.holds, Hold(id, true, Dialling), id);
  }

  /** A reload that turns a cap on under an uncounted attempt breaks the bound: two connections under a cap of one. */
  lemma CapTurnedOnOvershoots(id: string)
    ensures var run := [Acquire(id, 0), Acquire(id, 1), Fail(0), Acquire(id, 1)];
            && Runs(System(map[], []), run)
            && !HarmlessThroughout(System(map[], []), run)
            && Connections(End(System(map[], []), run).holds, id) == 2
  {
    var s0 := System(map[], []);
    var (a, b, c) := (Acquire(id, 0), Acquire(id, 1), Fail(0));
    var s1 := Apply(s0, a);
    var s2 := Apply(s1, b);
    var s3 := Apply(s2, c);
    var s4 := Apply(s3, b);
    var run := [a, b, c, b];
    assert run[1..] == [b, c, b] && run[1..][1..] == [c, b] && run[1..][1..][1..] == [b];
    assert run[1..][1..][1..][1..] == [];
    assert Runs(s4, []) && Runs(s3, [b]) && Runs(s2, [c, b]) && Runs(s1, [b, c, b]);
    assert End(s3, [b]) == s4 && End(s2, [c, b]) == s4 && End(s1, [b, c, b]) == s4;
    assert !Harmless(s2, c);
    assert !HarmlessThroughout(s2, [c, b]) && !HarmlessThroughout(s1, [b, c, b]);
    var d := Hold(id, true, Dialling);
    assert s4.holds == [Hold(id, false, Freed), d, d];
    assert s4.holds[..2] == [Hold(id, false, Freed), d];
    assert s4.holds[..2][..1] == [Hold(id, false, Freed)];
    assert Connections([Hold(id, false, Freed)], id) == 0;
  }
}
