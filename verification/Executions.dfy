/**
 A whole execution read off its plan, its policy and the world: which entries
 it touches, whom it calls for each, what it returns and which rows it leaves.
 The executor is proved to do just that, with every rule written out: no retry
 matrix, no class table and no budget of its own.
 */
module Executions {
  import opened Basics
  import opened Config
  import opened Routing
  import opened Upstream
  import opened Attempts
  import opened Failover
  import FailoverRuns

  // ---------------------------------------------------------------- one entry

  /** Entry i names an egress, its transport can be built, and the limiter admits it. */
  predicate Dialable(plan: RoutePlan, world: World, i: nat) {
    i < |plan.egresses| && plan.egresses[i].Some? && world(i).built && world(i).admitted
  }

  /** What the dials of entry i come to. */
  function ResultOf(world: World, i: nat): Outcome { world(i).oracle(LastDial(world(i).oracle, 0)) }

  predicate Serves(o: Outcome) { o.Answered? && o.status < 400 }

  /** A failure that another egress may do better with. */
  predicate PassesOn(o: Outcome) {
    match o
    case NetFailed(kind, _, _) => kind in {ConnectionError, ProxyAuthError, Timeout}
    case Answered(status, _, _) => status == 429 || status >= 500
  }

  /** A failure that counts against the egress. */
  predicate Blames(o: Outcome) {
    match o
    case NetFailed(kind, _, _) => kind in {ConnectionError, ProxyAuthError, Timeout}
    case Answered(status, _, _) => status >= 500
  }

  /** The calls that entry i leads to. */
  function EntryCalls(plan: RoutePlan, world: World, i: nat): seq<Call> {
    if !Dialable(plan, world, i) then [Skipped(i)]
    else
      var (o, key) := (ResultOf(world, i), plan.egresses[i].value.HealthKey());
      [Acquired(i), Dialled(i, ClassOf(o))]
      + (if Serves(o) then [Observed(i, key, true), Handed(i)]
         else if Blames(o) then [Released(i), Observed(i, key, false)]
         else [Released(i)])
  }

  // ---------------------------------------------------------------- the walk

  /** The entries among the first n that are dialled when reached. */
  function DialsAmong(plan: RoutePlan, world: World, n: nat): seq<nat> {
    if n == 0 then [] else DialsAmong(plan, world, n - 1) + (if Dialable(plan, world, n - 1) then [n - 1] else [])
  }

  /** At most this many egresses are dialled: one, or with fallback as many as the policy says. */
  function Limit(policy: AttemptPolicy): nat {
    if policy.fallbackEnabled && policy.maxAttempts > 1 then policy.maxAttempts else 1
  }

  /** After the first n entries the walk goes on: without fallback there is no second entry; with it, a skip never ends
      the walk, and a dial only by serving, by a failure that no other egress can help, or by being the last allowed. */
  predicate GoesOn(plan: RoutePlan, policy: AttemptPolicy, world: World, n: nat) {
    n == 0
    || (policy.fallbackEnabled
        && (Dialable(plan, world, n - 1) ==>
              PassesOn(ResultOf(world, n - 1)) && |DialsAmong(plan, world, n)| < Limit(policy)))
  }

  /** How many entries are touched, when the first n are. */
  function Touched(plan: RoutePlan, policy: AttemptPolicy, world: World, n: nat): (m: nat)
    requires n <= |plan.attempts|
    ensures n <= m <= |plan.attempts|
    decreases |plan.attempts| - n
  {
    if n < |plan.attempts| && GoesOn(plan, policy, world, n) then Touched(plan, policy, world, n + 1) else n
  }

  function CallsAmong(plan: RoutePlan, world: World, n: nat): seq<Call> {
    if n == 0 then [] else CallsAmong(plan, world, n - 1) + EntryCalls(plan, world, n - 1)
  }

  /** The verdict on a request whose first n entries were touched: that of the last dial, or that none was possible. */
  ghost predicate Concludes(plan: RoutePlan, world: World, n: nat, v: Verdict)
    requires n <= |plan.attempts|
  {
    var ds := DialsAmong(plan, world, n);
    && v.attempts == |ds|
    && if ds == [] then
         && !v.won && v.egress == "" && v.kind == ConnectionError
         && v.error == Some(UpstreamError(502, "none of the eligible egresses could serve the request"))
       else
         var last := ds[|ds| - 1];
         && last < |plan.attempts| && v.egress == plan.attempts[last]
         && v.kind == ClassOf(ResultOf(world, last)) && v.error == ErrorTold(ResultOf(world, last))
         && (v.won <==> Serves(ResultOf(world, last)))
  }

  // ---------------------------------------------------------------- the executor does this

  /** Progress after the first n entries, none of which ended the walk. */
  ghost predicate Stands(plan: RoutePlan, world: World, n: nat, x: Progress)
    requires n <= |plan.attempts|
  {
    var ds := DialsAmong(plan, world, n);
    && x.calls == CallsAmong(plan, world, n) && x.attempts == |ds|
    && (x.lastError.Some? <==> ds != [])
    && if ds == [] then x.lastId == "" && x.lastKind == ConnectionError
       else
         var last := ds[|ds| - 1];
         && last < n && x.lastId == plan.attempts[last]
         && x.lastKind == ClassOf(ResultOf(world, last)) && x.lastError == ErrorTold(ResultOf(world, last))
         && !Serves(ResultOf(world, last))
  }

  lemma {:induction false} DialsAreAmong(plan: RoutePlan, world: World, n: nat)
    ensures forall a :: 0 <= a < |DialsAmong(plan, world, n)| ==>
              DialsAmong(plan, world, n)[a] < n && Dialable(plan, world, DialsAmong(plan, world, n)[a])
    ensures forall a, b :: 0 <= a < b < |DialsAmong(plan, world, n)| ==>
              DialsAmong(plan, world, n)[a] < DialsAmong(plan, world, n)[b]
  {
    if n > 0 { DialsAreAmong(plan, world, n - 1); }
  }

  /** The class table, said of outcomes. */
  lemma ClassesMean(o: Outcome)
    requires o.Valid()
    ensures ClassOf(o).FallbackAllowed() <==> PassesOn(o)
    ensures ClassOf(o).MarksHealth() <==> Blames(o)
    ensures ErrorTold(o).None? <==> Serves(o)
    ensures Serves(o) <==> ClassOf(o) == Success
  {
  }

  lemma DialCallsMean(plan: RoutePlan, world: World, i: nat)
    requires Dialable(plan, world, i) && ResultOf(world, i).Valid()
    ensures var o := ResultOf(world, i);
            EntryCalls(plan, world, i)
            == DialCalls(i, plan.egresses[i].value.HealthKey(), ClassOf(o), ErrorTold(o).None?)
  {
    var (o, key) := (ResultOf(world, i), plan.egresses[i].value.HealthKey());
    ClassesMean(o);
    assert [Released(i)] + [] == [Released(i)];
    assert [Released(i)] + [Observed(i, key, false)] == [Released(i), Observed(i, key, false)];
  }

  lemma BudgetIsLimit(policy: AttemptPolicy)
    ensures policy.Budget() == Limit(policy)
  {
  }

  lemma AmongNext(plan: RoutePlan, world: World, i: nat)
    ensures DialsAmong(plan, world, i + 1)
         == DialsAmong(plan, world, i) + (if Dialable(plan, world, i) then [i] else [])
    ensures CallsAmong(plan, world, i + 1) == CallsAmong(plan, world, i) + EntryCalls(plan, world, i)
  {
  }

  /** A skip: nothing is remembered but that it was. */
  ghost predicate Skips(x: Progress, y: Progress, i: nat) {
    && y.attempts == x.attempts && y.lastId == x.lastId && y.lastKind == x.lastKind && y.lastError == x.lastError
    && y.calls == x.calls + [Skipped(i)]
  }

  lemma SkipStands(plan: RoutePlan, world: World, i: nat, x: Progress, y: Progress)
    requires i < |plan.attempts| && Stands(plan, world, i, x) && !Dialable(plan, world, i) && Skips(x, y, i)
    ensures Stands(plan, world, i + 1, y)
  {
    AmongNext(plan, world, i);
  }

  /** A dial that did not end the walk. */
  ghost predicate Fails(plan: RoutePlan, world: World, i: nat, x: Progress, y: Progress)
    requires i < |plan.attempts|
  {
    var o := ResultOf(world, i);
    && y.attempts == x.attempts + 1 && y.lastId == plan.attempts[i] && y.lastKind == ClassOf(o)
    && y.lastError == ErrorTold(o) && !Serves(o) && y.calls == x.calls + EntryCalls(plan, world, i)
  }

  lemma FailStands(plan: RoutePlan, world: World, i: nat, x: Progress, y: Progress)
    requires i < |plan.attempts| && Stands(plan, world, i, x) && Dialable(plan, world, i)
    requires Fails(plan, world, i, x, y)
    ensures Stands(plan, world, i + 1, y)
  {
    AmongNext(plan, world, i);
  }

  /** A dial that did. */
  ghost predicate Ends(plan: RoutePlan, world: World, i: nat, x: Progress, v: Verdict)
    requires i < |plan.attempts|
  {
    var o := ResultOf(world, i);
    && v.attempts == x.attempts + 1 && v.egress == plan.attempts[i] && v.kind == ClassOf(o)
    && v.error == ErrorTold(o) && (v.won <==> Serves(o)) && v.calls == x.calls + EntryCalls(plan, world, i)
  }

  lemma EndConcludes(plan: RoutePlan, world: World, i: nat, x: Progress, v: Verdict)
    requires i < |plan.attempts| && Stands(plan, world, i, x) && Dialable(plan, world, i) && Ends(plan, world, i, x, v)
    ensures Concludes(plan, world, i + 1, v) && v.calls == CallsAmong(plan, world, i + 1)
  {
    AmongNext(plan, world, i);
  }

  /** What a dial comes to, apart from the rows. */
  ghost predicate Comes(plan: RoutePlan, policy: AttemptPolicy, world: World, i: nat, x: Progress, m: Move)
    requires i < |plan.attempts|
  {
    && (m.Go? <==> PassesOn(ResultOf(world, i)) && x.attempts + 1 < Limit(policy))
    && (m.Go? ==> Fails(plan, world, i, x, m.x)) && (m.Halt? ==> Ends(plan, world, i, x, m.v))
  }

  lemma DialReads(plan: RoutePlan, policy: AttemptPolicy, world: World, i: nat, x: Progress)
    requires i < |plan.attempts| && Dialable(plan, world, i) && ResultOf(world, i).Valid()
    ensures Comes(plan, policy, world, i, x,
                  DialEntry(policy, plan.attempts[i], plan.egresses[i].value, world(i), i, x))
  {
    AttemptExactly(world(i).oracle, x.log);
    DialCallsMean(plan, world, i);
    ClassesMean(ResultOf(world, i));
    BudgetIsLimit(policy);
  }

  /** One step: on to an entry that the walk goes on to, or to the verdict where it does not. */
  ghost predicate StepsRightly(plan: RoutePlan, policy: AttemptPolicy, world: World, i: nat, m: Move)
    requires i < |plan.attempts|
  {
    match m
    case Go(y) => Stands(plan, world, i + 1, y) && GoesOn(plan, policy, world, i + 1)
    case Halt(v) =>
      && Concludes(plan, world, i + 1, v) && v.calls == CallsAmong(plan, world, i + 1)
      && !GoesOn(plan, policy, world, i + 1)
  }

  lemma DialSteps(plan: RoutePlan, policy: AttemptPolicy, world: World, i: nat, x: Progress, m: Move)
    requires i < |plan.attempts| && Stands(plan, world, i, x) && Dialable(plan, world, i)
    requires Comes(plan, policy, world, i, x, m) && (i == 0 || policy.fallbackEnabled)
    ensures StepsRightly(plan, policy, world, i, m)
  {
    AmongNext(plan, world, i);
    if m.Go? {
      FailStands(plan, world, i, x, m.x);
      if !policy.fallbackEnabled { FirstDial(plan, world); }
    } else {
      EndConcludes(plan, world, i, x, m.v);
    }
  }

  lemma FirstDial(plan: RoutePlan, world: World)
    requires Dialable(plan, world, 0)
    ensures |DialsAmong(plan, world, 1)| == 1
  {
    assert DialsAmong(plan, world, 0) == [];
  }

  lemma SkipSteps(plan: RoutePlan, policy: AttemptPolicy, world: World, i: nat, x: Progress)
    requires i < |plan.attempts| && Stands(plan, world, i, x) && !Dialable(plan, world, i)
    ensures var y := SkipEntry(plan.attempts[i], i, x);
            StepsRightly(plan, policy, world, i, if policy.fallbackEnabled then Go(y) else Halt(Exhausted(y)))
  {
    var y := SkipEntry(plan.attempts[i], i, x);
    SkipStands(plan, world, i, x, y);
    StoodConcludes(plan, world, i + 1, y);
  }

  lemma StoodConcludes(plan: RoutePlan, world: World, n: nat, x: Progress)
    requires n <= |plan.attempts| && Stands(plan, world, n, x)
    ensures Concludes(plan, world, n, Exhausted(x)) && Exhausted(x).calls == CallsAmong(plan, world, n)
  {
  }

  lemma StepIsRight(plan: RoutePlan, policy: AttemptPolicy, world: World, i: nat, x: Progress)
    requires FailoverRuns.ValidWorld(world) && i < |plan.attempts|
    requires Stands(plan, world, i, x) && GoesOn(plan, policy, world, i)
    ensures StepsRightly(plan, policy, world, i, StepOn(plan, policy, world, i, x))
  {
    if Dialable(plan, world, i) {
      assert ResultOf(world, i).Valid();
      DialReads(plan, policy, world, i, x);
      DialSteps(plan, policy, world, i, x,
                DialEntry(policy, plan.attempts[i], plan.egresses[i].value, world(i), i, x));
    } else {
      SkipSteps(plan, policy, world, i, x);
    }
  }

  /** What one step leads to: the next stand of the same execution, or its verdict. */
  ghost predicate Leads(plan: RoutePlan, policy: AttemptPolicy, world: World, i: nat, m: Move, v: Verdict)
    requires i < |plan.attempts|
  {
    && Touched(plan, policy, world, i) == (if m.Go? then Touched(plan, policy, world, i + 1) else i + 1)
    && match m
       case Go(y) =>
         && v == ExecFrom(plan, policy, world, i + 1, y)
         && Stands(plan, world, i + 1, y) && GoesOn(plan, policy, world, i + 1)
       case Halt(w) => v == w && Concludes(plan, world, i + 1, v) && v.calls == CallsAmong(plan, world, i + 1)
  }

  lemma TouchedNext(plan: RoutePlan, policy: AttemptPolicy, world: World, i: nat)
    requires i < |plan.attempts| && GoesOn(plan, policy, world, i)
    ensures Touched(plan, policy, world, i)
         == if GoesOn(plan, policy, world, i + 1) then Touched(plan, policy, world, i + 1) else i + 1
  {
  }

  lemma StepLeads(plan: RoutePlan, policy: AttemptPolicy, world: World, i: nat, x: Progress, m: Move, v: Verdict)
    requires FailoverRuns.ValidWorld(world) && i < |plan.attempts| && m == StepOn(plan, policy, world, i, x)
    requires Stands(plan, world, i, x) && GoesOn(plan, policy, world, i) && v == ExecFrom(plan, policy, world, i, x)
    ensures Leads(plan, policy, world, i, m, v)
  {
    StepIsRight(plan, policy, world, i, x);
    TouchedNext(plan, policy, world, i);
    ExecNext(plan, policy, world, i, x, m, v);
  }

  lemma ExecNext(plan: RoutePlan, policy: AttemptPolicy, world: World, i: nat, x: Progress, m: Move, v: Verdict)
    requires i < |plan.attempts| && m == StepOn(plan, policy, world, i, x) && v == ExecFrom(plan, policy, world, i, x)
    ensures v == match m case Go(y) => ExecFrom(plan, policy, world, i + 1, y) case Halt(w) => w
  {
  }

  lemma TakeStep(plan: RoutePlan, policy: AttemptPolicy, world: World, i: nat, x: Progress, v: Verdict)
      returns (m: Move)
    requires FailoverRuns.ValidWorld(world) && i < |plan.attempts|
    requires Stands(plan, world, i, x) && GoesOn(plan, policy, world, i) && v == ExecFrom(plan, policy, world, i, x)
    ensures Leads(plan, policy, world, i, m, v)
  {
    m := StepOn(plan, policy, world, i, x);
    StepLeads(plan, policy, world, i, x, m, v);
  }

  lemma {:induction false} WalkConcludes(plan: RoutePlan, policy: AttemptPolicy, world: World, i: nat, x: Progress,
                                         n: nat, v: Verdict)
    requires FailoverRuns.ValidWorld(world) && i <= |plan.attempts| && v == ExecFrom(plan, policy, world, i, x)
    requires Stands(plan, world, i, x) && GoesOn(plan, policy, world, i) && n == Touched(plan, policy, world, i)
    ensures v.calls == CallsAmong(plan, world, n) && Concludes(plan, world, n, v)
    decreases |plan.attempts| - i
  {
    if i == |plan.attempts| {
      StoodConcludes(plan, world, i, x);
    } else {
      var m := TakeStep(plan, policy, world, i, x, v);
      if m.Go? { WalkConcludes(plan, policy, world, i + 1, m.x, n, v); }
    }
  }

  /** For every plan, policy and world: an execution calls for each entry it touches what that entry leads to, in plan
      order, touches entries just as long as the walk goes on, and returns the verdict of its last dial, or the
      synthetic one when it never dialled. */
  lemma ExecutionExactly(plan: RoutePlan, policy: AttemptPolicy, world: World, log: Log)
    requires FailoverRuns.ValidWorld(world)
    ensures var (v, n) := (ExecFrom(plan, policy, world, 0, Begin(log)), Touched(plan, policy, world, 0));
            v.calls == CallsAmong(plan, world, n) && Concludes(plan, world, n, v)
  {
    WalkConcludes(plan, policy, world, 0, Begin(log), Touched(plan, policy, world, 0),
                  ExecFrom(plan, policy, world, 0, Begin(log)));
  }

  // ---------------------------------------------------------------- how much is dialled

  lemma DialledAreAttempts(plan: RoutePlan, policy: AttemptPolicy, world: World, log: Log)
    requires FailoverRuns.ValidWorld(world)
    ensures var v := ExecFrom(plan, policy, world, 0, Begin(log)); |FailoverRuns.DialledAt(v.calls)| == v.attempts
  {
    FailoverRuns.FailoverIsHonest(plan, policy, world, log);
    FailoverRuns.DialsFollowThePlan(plan, policy, ExecFrom(plan, policy, world, 0, Begin(log)).calls);
  }

  lemma {:induction false} DialsWithinLimit(plan: RoutePlan, policy: AttemptPolicy, world: World, n: nat)
    requires n <= |plan.attempts| && |DialsAmong(plan, world, n)| <= Limit(policy)
    requires GoesOn(plan, policy, world, n) ==> |DialsAmong(plan, world, n)| < Limit(policy)
    ensures |DialsAmong(plan, world, Touched(plan, policy, world, n))| <= Limit(policy)
    decreases |plan.attempts| - n
  {
    if n < |plan.attempts| && GoesOn(plan, policy, world, n) {
      if policy.fallbackEnabled && !Dialable(plan, world, n) {
        assert DialsAmong(plan, world, n + 1) == DialsAmong(plan, world, n);
      }
      DialsWithinLimit(plan, policy, world, n + 1);
    }
  }

  lemma TouchedAlone(plan: RoutePlan, policy: AttemptPolicy, world: World)
    requires !policy.fallbackEnabled
    ensures Touched(plan, policy, world, 0) == if plan.attempts == [] then 0 else 1
  {
  }

  lemma EntryCallsItsOwn(plan: RoutePlan, world: World, i: nat)
    ensures forall k :: 0 <= k < |EntryCalls(plan, world, i)| ==> EntryCalls(plan, world, i)[k].i == i
  {
  }

  lemma CallsOfOne(plan: RoutePlan, world: World)
    ensures CallsAmong(plan, world, 0) == [] && CallsAmong(plan, world, 1) == EntryCalls(plan, world, 0)
    ensures DialsAmong(plan, world, 0) == []
    ensures DialsAmong(plan, world, 1) == if Dialable(plan, world, 0) then [0] else []
  {
    assert CallsAmong(plan, world, 0) == [] && DialsAmong(plan, world, 0) == [];
  }

  /** Without fallback nothing but the first entry is ever touched, and it is dialled at most once. */
  lemma NoFallbackTouchesOne(plan: RoutePlan, policy: AttemptPolicy, world: World, log: Log)
    requires FailoverRuns.ValidWorld(world) && !policy.fallbackEnabled
    ensures var v := ExecFrom(plan, policy, world, 0, Begin(log));
            && (forall k :: 0 <= k < |v.calls| ==> v.calls[k].i == 0)
            && |FailoverRuns.DialledAt(v.calls)| == v.attempts
            && v.attempts == (if plan.attempts != [] && Dialable(plan, world, 0) then 1 else 0)
  {
    ExecutionExactly(plan, policy, world, log);
    TouchedAlone(plan, policy, world);
    CallsOfOne(plan, world);
    EntryCallsItsOwn(plan, world, 0);
    DialledAreAttempts(plan, policy, world, log);
  }

  /** With fallback at most as many are dialled as the policy says, and at least one may be. */
  lemma FallbackDialsWithinLimit(plan: RoutePlan, policy: AttemptPolicy, world: World, log: Log)
    requires FailoverRuns.ValidWorld(world)
    ensures var ds := FailoverRuns.DialledAt(ExecFrom(plan, policy, world, 0, Begin(log)).calls);
            |ds| <= if policy.fallbackEnabled && policy.maxAttempts > 1 then policy.maxAttempts else 1
  {
    ExecutionExactly(plan, policy, world, log);
    DialsWithinLimit(plan, policy, world, 0);
    DialledAreAttempts(plan, policy, world, log);
  }

  lemma {:induction false} FailingWalkGoesOn(plan: RoutePlan, policy: AttemptPolicy, world: World, n: nat)
    requires policy.fallbackEnabled && n <= |plan.attempts| && |DialsAmong(plan, world, n)| < Limit(policy)
    requires forall i: nat :: i < |plan.attempts| && Dialable(plan, world, i) ==> PassesOn(ResultOf(world, i))
    ensures var (m, all) := (Touched(plan, policy, world, n), |DialsAmong(plan, world, |plan.attempts|)|);
            |DialsAmong(plan, world, m)| == if all < Limit(policy) then all else Limit(policy)
    decreases |plan.attempts| - n
  {
    if n < |plan.attempts| {
      assert GoesOn(plan, policy, world, n);
      if |DialsAmong(plan, world, n + 1)| < Limit(policy) {
        FailingWalkGoesOn(plan, policy, world, n + 1);
      } else {
        DialsGrow(plan, world, n + 1, |plan.attempts|);
      }
    }
  }

  lemma {:induction false} DialsGrow(plan: RoutePlan, world: World, n: nat, m: nat)
    requires n <= m
    ensures |DialsAmong(plan, world, n)| <= |DialsAmong(plan, world, m)|
    decreases m
  {
    if n < m { DialsGrow(plan, world, n, m - 1); }
  }

  /** When every dial fails in a way that another egress may do better, exactly the limit is dialled, or every dialable
      entry of a shorter plan. */
  lemma FailingFallbackDialsItsLimit(plan: RoutePlan, policy: AttemptPolicy, world: World, log: Log)
    requires FailoverRuns.ValidWorld(world) && policy.fallbackEnabled
    requires forall i: nat :: i < |plan.attempts| && Dialable(plan, world, i) ==> PassesOn(ResultOf(world, i))
    ensures var v := ExecFrom(plan, policy, world, 0, Begin(log));
            var (all, most) := (|DialsAmong(plan, world, |plan.attempts|)|,
                                if policy.maxAttempts > 1 then policy.maxAttempts else 1);
            |FailoverRuns.DialledAt(v.calls)| == v.attempts == (if all < most then all else most)
  {
    ExecutionExactly(plan, policy, world, log);
    FailingWalkGoesOn(plan, policy, world, 0);
    DialledAreAttempts(plan, policy, world, log);
  }
}
