/**
 Whole executions of module Failover, for every plan, policy and world: the
 call protocol, the honesty of the verdict, and what the evidence rows claim.
 */
module FailoverRuns {
  import opened Basics
  import opened Config
  import opened Routing
  import opened Upstream
  import opened Failover

  // ---------------------------------------------------------------- the call protocol

  /** Where the current entry stands: its slot is held from Holding on, and either given back or handed to the body. */
  datatype Stage =
    | Idle
    | Holding
    | Judged(kind: Class)
    | Freed(kind: Class)
    | Blamed(kind: Class)
    | Credited
    | Streaming

  /** A monitor over the calls: entries seen, dials made, index of the last dial; ok until one breaks the protocol. */
  datatype Watch = Watch(next: nat, dials: nat, last: nat, stage: Stage, ok: bool)

  const START := Watch(0, 0, 0, Idle, true)

  /** The next plan entry may be tried after a skip or a failure that allows it, never once a mark is owed, a slot is
      held, the budget is spent or, without fallback, another entry was tried. */
  predicate MayMove(policy: AttemptPolicy, m: Watch) {
    match m.stage
    case Idle => m.next == 0 || policy.fallbackEnabled
    case Freed(k) => !k.MarksHealth() && k.FallbackAllowed() && m.dials < policy.Budget()
    case Blamed(k) => k.FallbackAllowed() && m.dials < policy.Budget()
    case _ => false
  }

  function Blame(w: Watch, good: bool): Watch { w.(ok := w.ok && good) }

  function See(plan: RoutePlan, policy: AttemptPolicy, m: Watch, c: Call): Watch {
    match c
    case Skipped(i) => Blame(Watch(m.next + 1, m.dials, m.last, Idle, m.ok), i == m.next && MayMove(policy, m))
    case Acquired(i) => Blame(Watch(m.next + 1, m.dials, m.last, Holding, m.ok), i == m.next && MayMove(policy, m))
    case Dialled(i, k) => Blame(Watch(m.next, m.dials + 1, i, Judged(k), m.ok), i + 1 == m.next && m.stage == Holding)
    case Released(i) =>
      Blame(m.(stage := Freed(if m.stage.Judged? then m.stage.kind else Success)),
            i + 1 == m.next && m.stage.Judged? && m.stage.kind != Success)
    case Observed(i, key, ok) =>
      Blame(m.(stage := if ok then Credited else Blamed(if m.stage.Freed? then m.stage.kind else Success)),
            && i + 1 == m.next && EgressAt(plan, i).Some? && key == EgressAt(plan, i).value.HealthKey()
            && if ok then m.stage == Judged(Success) else m.stage.Freed? && m.stage.kind.MarksHealth())
    case Handed(i) => Blame(m.(stage := Streaming), i + 1 == m.next && m.stage == Credited)
  }

  function SeeAll(plan: RoutePlan, policy: AttemptPolicy, calls: seq<Call>): Watch {
    if calls == [] then START
    else See(plan, policy, SeeAll(plan, policy, calls[..|calls| - 1]), calls[|calls| - 1])
  }

  lemma SeeNext(plan: RoutePlan, policy: AttemptPolicy, calls: seq<Call>, c: Call)
    ensures SeeAll(plan, policy, calls + [c]) == See(plan, policy, SeeAll(plan, policy, calls), c)
  {
    assert (calls + [c])[..|calls|] == calls;
  }

  /** Nothing is held or owed: every slot is back, every failure that marks health was reported. */
  predicate Quiet(s: Stage) {
    s == Idle || (s.Freed? && !s.kind.MarksHealth()) || s.Blamed?
  }

  function AfterDial(m: Watch, i: nat, kind: Class, won: bool): Watch {
    Watch(i + 1, m.dials + 1, i,
          if won then Streaming else if kind.MarksHealth() then Blamed(kind) else Freed(kind), true)
  }

  lemma DialSeen(plan: RoutePlan, policy: AttemptPolicy, calls: seq<Call>, i: nat, kind: Class)
    requires var m := SeeAll(plan, policy, calls); m.ok && m.next == i && MayMove(policy, m)
    ensures SeeAll(plan, policy, calls + [Acquired(i)] + [Dialled(i, kind)])
         == Watch(i + 1, SeeAll(plan, policy, calls).dials + 1, i, Judged(kind), true)
  {
    SeeNext(plan, policy, calls, Acquired(i));
    SeeNext(plan, policy, calls + [Acquired(i)], Dialled(i, kind));
  }

  lemma WinSeen(plan: RoutePlan, policy: AttemptPolicy, calls: seq<Call>, i: nat)
    requires var m := SeeAll(plan, policy, calls); m.ok && m.next == i + 1 && m.stage == Judged(Success)
    requires EgressAt(plan, i).Some?
    ensures SeeAll(plan, policy, calls + [Observed(i, EgressAt(plan, i).value.HealthKey(), true)] + [Handed(i)])
         == SeeAll(plan, policy, calls).(stage := Streaming)
  {
    var c := Observed(i, EgressAt(plan, i).value.HealthKey(), true);
    SeeNext(plan, policy, calls, c);
    SeeNext(plan, policy, calls + [c], Handed(i));
  }

  lemma LossSeen(plan: RoutePlan, policy: AttemptPolicy, calls: seq<Call>, i: nat, kind: Class)
    requires var m := SeeAll(plan, policy, calls); m.ok && m.next == i + 1 && m.stage == Judged(kind)
    requires EgressAt(plan, i).Some? && kind != Success
    ensures var (m, c) := (SeeAll(plan, policy, calls), calls + [Released(i)]);
            && SeeAll(plan, policy, c) == m.(stage := Freed(kind))
            && (kind.MarksHealth() ==>
                  SeeAll(plan, policy, c + [Observed(i, EgressAt(plan, i).value.HealthKey(), false)])
                      == m.(stage := Blamed(kind)))
  {
    SeeNext(plan, policy, calls, Released(i));
    SeeNext(plan, policy, calls + [Released(i)], Observed(i, EgressAt(plan, i).value.HealthKey(), false));
  }

  lemma DialWatched(plan: RoutePlan, policy: AttemptPolicy, calls: seq<Call>, i: nat, kind: Class, won: bool)
    requires var m := SeeAll(plan, policy, calls); m.ok && m.next == i && MayMove(policy, m)
    requires EgressAt(plan, i).Some? && (won <==> kind == Success)
    ensures SeeAll(plan, policy, calls + DialCalls(i, EgressAt(plan, i).value.HealthKey(), kind, won))
         == AfterDial(SeeAll(plan, policy, calls), i, kind, won)
  {
    var key := EgressAt(plan, i).value.HealthKey();
    var c := calls + [Acquired(i)] + [Dialled(i, kind)];
    DialSeen(plan, policy, calls, i, kind);
    DialCallsGroup(calls, i, key, kind, won);
    if won {
      WinSeen(plan, policy, c, i);
    } else {
      LossSeen(plan, policy, c, i, kind);
    }
  }

  lemma DialCallsGroup(calls: seq<Call>, i: nat, key: string, kind: Class, won: bool)
    ensures var c := calls + [Acquired(i)] + [Dialled(i, kind)];
            calls + DialCalls(i, key, kind, won)
            == if won then c + [Observed(i, key, true)] + [Handed(i)]
               else if kind.MarksHealth() then c + [Released(i)] + [Observed(i, key, false)] else c + [Released(i)]
  {
  }

  // ---------------------------------------------------------------- executions

  function StandingOutcome(e: Entry): Outcome { e.oracle(Standing(e.oracle, 0)) }

  ghost predicate ValidWorld(world: World) {
    forall i: nat, d: nat :: world(i).oracle(d).Valid()
  }

  /** What is remembered of the last dial is that dial's verdict. */
  ghost predicate Remembers(plan: RoutePlan, world: World, m: Watch, egress: string, kind: Class,
                            error: Option<UpstreamError>) {
    && m.last < |plan.attempts| && egress == plan.attempts[m.last]
    && kind == StandingOutcome(world(m.last)).Verdict() && error == ErrorOf(StandingOutcome(world(m.last)))
  }

  ghost predicate OnTrack(plan: RoutePlan, policy: AttemptPolicy, world: World, i: nat, x: Progress) {
    var m := SeeAll(plan, policy, x.calls);
    && m.ok && m.next == i && m.dials == x.attempts && x.attempts < policy.Budget() && MayMove(policy, m)
    && (x.attempts == 0 <==> x.lastError.None?)
    && (x.attempts > 0 ==> Remembers(plan, world, m, x.lastId, x.lastKind, x.lastError))
  }

  /** An execution keeps the protocol, dials at most Budget egresses, ends with nothing held or owed unless a body is
      streaming, gives up early only where it must, and returns its last dial's verdict or, when it never dialled,
      the synthetic one. */
  ghost predicate Honest(plan: RoutePlan, policy: AttemptPolicy, world: World, v: Verdict) {
    var m := SeeAll(plan, policy, v.calls);
    && m.ok && m.dials == v.attempts <= policy.Budget() && m.next <= |plan.attempts|
    && (v.won ==> m.stage == Streaming && v.error.None?)
    && (!v.won ==> Quiet(m.stage) && v.error.Some? && (m.next == |plan.attempts| || !MayMove(policy, m)))
    && (v.attempts > 0 ==> Remembers(plan, world, m, v.egress, v.kind, v.error))
    && (v.attempts == 0 ==> !v.won && v.error == Some(NONE_SERVED))
  }

  lemma BeginOnTrack(plan: RoutePlan, policy: AttemptPolicy, world: World, log: Log)
    ensures OnTrack(plan, policy, world, 0, Begin(log))
  {
  }

  /** Progress y is x after a skip of entry i. */
  ghost predicate SkipsTo(plan: RoutePlan, policy: AttemptPolicy, i: nat, x: Progress, y: Progress) {
    var m := SeeAll(plan, policy, x.calls);
    && SeeAll(plan, policy, y.calls) == m.(next := i + 1, stage := Idle)
    && y.attempts == x.attempts && y.lastError == x.lastError && y.lastId == x.lastId && y.lastKind == x.lastKind
  }

  lemma SkipSeen(plan: RoutePlan, policy: AttemptPolicy, i: nat, x: Progress)
    requires var m := SeeAll(plan, policy, x.calls); m.ok && m.next == i && MayMove(policy, m)
    requires i < |plan.attempts|
    ensures SkipsTo(plan, policy, i, x, SkipEntry(plan.attempts[i], i, x))
  {
    SeeNext(plan, policy, x.calls, Skipped(i));
  }

  lemma SkippedGoesOn(plan: RoutePlan, policy: AttemptPolicy, world: World, i: nat, x: Progress, y: Progress)
    requires OnTrack(plan, policy, world, i, x) && SkipsTo(plan, policy, i, x, y) && policy.fallbackEnabled
    ensures OnTrack(plan, policy, world, i + 1, y)
  {
  }

  lemma SkippedEnds(plan: RoutePlan, policy: AttemptPolicy, world: World, i: nat, x: Progress, y: Progress)
    requires OnTrack(plan, policy, world, i, x) && SkipsTo(plan, policy, i, x, y) && !policy.fallbackEnabled
    requires i < |plan.attempts|
    ensures Honest(plan, policy, world, Exhausted(y))
  {
  }

  lemma SkipOnTrack(plan: RoutePlan, policy: AttemptPolicy, world: World, i: nat, x: Progress, y: Progress)
    requires i < |plan.attempts| && OnTrack(plan, policy, world, i, x) && y == SkipEntry(plan.attempts[i], i, x)
    ensures policy.fallbackEnabled ==> OnTrack(plan, policy, world, i + 1, y)
    ensures !policy.fallbackEnabled ==> Honest(plan, policy, world, Exhausted(y))
  {
    SkipSeen(plan, policy, i, x);
    if policy.fallbackEnabled {
      SkippedGoesOn(plan, policy, world, i, x, y);
    } else {
      SkippedEnds(plan, policy, world, i, x, y);
    }
  }

  lemma ExhaustedIsHonest(plan: RoutePlan, policy: AttemptPolicy, world: World, x: Progress)
    requires OnTrack(plan, policy, world, |plan.attempts|, x)
    ensures Honest(plan, policy, world, Exhausted(x))
  {
  }

  /** An attempt's verdict is the standing outcome's, whatever the log. */
  lemma AttemptVerdict(e: Entry, log: Log)
    requires forall d: nat :: e.oracle(d).Valid()
    ensures AttemptOn(e.oracle, log).kind == StandingOutcome(e).Verdict()
    ensures AttemptOn(e.oracle, log).error == ErrorOf(StandingOutcome(e))
    ensures StandingOutcome(e).Verdict() == Success <==> ErrorOf(StandingOutcome(e)).None?
  {
    VerdictIsHonest(e.oracle, log);
  }

  lemma DialOnTrack(plan: RoutePlan, policy: AttemptPolicy, world: World, i: nat, x: Progress)
    requires ValidWorld(world) && i < |plan.attempts| && OnTrack(plan, policy, world, i, x)
    requires EgressAt(plan, i).Some?
    ensures match DialEntry(policy, plan.attempts[i], EgressAt(plan, i).value, world(i), i, x)
            case Go(y) => OnTrack(plan, policy, world, i + 1, y)
            case Halt(v) => Honest(plan, policy, world, v)
  {
    AttemptVerdict(world(i), x.log);
    var a := AttemptOn(world(i).oracle, x.log);
    DialWatched(plan, policy, x.calls, i, a.kind, a.error.None?);
  }

  lemma StepIsHonest(plan: RoutePlan, policy: AttemptPolicy, world: World, i: nat, x: Progress)
    requires ValidWorld(world) && i < |plan.attempts| && OnTrack(plan, policy, world, i, x)
    ensures match StepOn(plan, policy, world, i, x)
            case Go(y) => OnTrack(plan, policy, world, i + 1, y)
            case Halt(v) => Honest(plan, policy, world, v)
  {
    if EgressAt(plan, i).None? || !world(i).built || !world(i).admitted {
      SkipOnTrack(plan, policy, world, i, x, SkipEntry(plan.attempts[i], i, x));
    } else {
      DialOnTrack(plan, policy, world, i, x);
    }
  }

  lemma {:induction false} RunIsHonest(plan: RoutePlan, policy: AttemptPolicy, world: World, i: nat, x: Progress)
    requires ValidWorld(world) && i <= |plan.attempts| && OnTrack(plan, policy, world, i, x)
    ensures Honest(plan, policy, world, ExecFrom(plan, policy, world, i, x))
    decreases |plan.attempts| - i
  {
    if i == |plan.attempts| {
      ExhaustedIsHonest(plan, policy, world, x);
    } else {
      StepIsHonest(plan, policy, world, i, x);
      match StepOn(plan, policy, world, i, x) {
        case Go(y) => RunIsHonest(plan, policy, world, i + 1, y);
        case Halt(_) =>
      }
    }
  }

  /** Failover is bounded and honest for every plan, policy and dial outcome. */
  lemma FailoverIsHonest(plan: RoutePlan, policy: AttemptPolicy, world: World, log: Log)
    requires ValidWorld(world)
    ensures Honest(plan, policy, world, ExecFrom(plan, policy, world, 0, Begin(log)))
  {
    BeginOnTrack(plan, policy, world, log);
    RunIsHonest(plan, policy, world, 0, Begin(log));
  }

  // ---------------------------------------------------------------- what the protocol means

  function DialledAt(calls: seq<Call>): seq<nat> {
    if calls == [] then []
    else Noted(DialledAt(calls[..|calls| - 1]), calls[|calls| - 1])
  }

  function Noted(ds: seq<nat>, c: Call): seq<nat> { if c.Dialled? then ds + [c.i] else ds }

  function Bound(m: Watch): int { if m.stage == Holding then m.next - 1 else m.next }

  ghost predicate InOrder(ds: seq<nat>, m: Watch) {
    && |ds| == m.dials && 0 <= Bound(m)
    && (forall a :: 0 <= a < |ds| ==> ds[a] < Bound(m))
    && (forall a, b :: 0 <= a < b < |ds| ==> ds[a] < ds[b])
    && (ds != [] ==> ds[|ds| - 1] == m.last)
  }

  lemma SeeAdvances(plan: RoutePlan, policy: AttemptPolicy, m: Watch, c: Call)
    requires See(plan, policy, m, c).ok
    ensures var r := See(plan, policy, m, c);
            && m.ok && Bound(m) <= Bound(r)
            && (if c.Dialled? then r.dials == m.dials + 1 && r.last == c.i && Bound(m) <= c.i < Bound(r)
                else r.dials == m.dials && r.last == m.last)
  {
  }

  lemma OrderNext(plan: RoutePlan, policy: AttemptPolicy, m: Watch, c: Call, ds: seq<nat>)
    requires (m.ok ==> InOrder(ds, m)) && See(plan, policy, m, c).ok
    ensures m.ok && InOrder(Noted(ds, c), See(plan, policy, m, c))
  {
    SeeAdvances(plan, policy, m, c);
  }

  /** Plan entries are dialled in plan order, none twice. */
  lemma {:induction false} DialsFollowThePlan(plan: RoutePlan, policy: AttemptPolicy, calls: seq<Call>)
    ensures SeeAll(plan, policy, calls).ok ==> InOrder(DialledAt(calls), SeeAll(plan, policy, calls))
  {
    if calls != [] {
      var n := |calls| - 1;
      DialsFollowThePlan(plan, policy, calls[..n]);
      var m := SeeAll(plan, policy, calls[..n]);
      if See(plan, policy, m, calls[n]).ok { OrderNext(plan, policy, m, calls[n], DialledAt(calls[..n])); }
    }
  }

  /** With distinct ids in the plan, no egress is dialled twice by one request. */
  lemma EgressesDialledOnce(plan: RoutePlan, policy: AttemptPolicy, world: World, log: Log)
    requires ValidWorld(world) && Distinct(plan.attempts)
    ensures var ds := DialledAt(ExecFrom(plan, policy, world, 0, Begin(log)).calls);
            && |ds| <= policy.Budget()
            && (forall a :: 0 <= a < |ds| ==> ds[a] < |plan.attempts|)
            && forall a, b :: 0 <= a < b < |ds| ==> plan.attempts[ds[a]] != plan.attempts[ds[b]]
  {
    FailoverIsHonest(plan, policy, world, log);
    var v := ExecFrom(plan, policy, world, 0, Begin(log));
    DialsFollowThePlan(plan, policy, v.calls);
    assert SeeAll(plan, policy, v.calls).next <= |plan.attempts|;
  }

  /** Slots taken, given back and handed to a body; failures and successes reported. */
  datatype Tally = Tally(taken: nat, back: nat, handed: nat, blamed: nat, marking: nat, credited: nat)

  function TallyOf(calls: seq<Call>): Tally {
    if calls == [] then Tally(0, 0, 0, 0, 0, 0)
    else
      var t := TallyOf(calls[..|calls| - 1]);
      match calls[|calls| - 1]
      case Skipped(_) => t
      case Acquired(_) => t.(taken := t.taken + 1)
      case Dialled(_, k) => t.(marking := t.marking + (if k.MarksHealth() then 1 else 0))
      case Released(_) => t.(back := t.back + 1)
      case Observed(_, _, ok) => if ok then t.(credited := t.credited + 1) else t.(blamed := t.blamed + 1)
      case Handed(_) => t.(handed := t.handed + 1)
  }

  predicate HasSlot(s: Stage) { s in {Holding, Credited} || s.Judged? }

  predicate OwesMark(s: Stage) { (s.Judged? || s.Freed?) && s.kind.MarksHealth() }

  lemma {:induction false} ProtocolBalances(plan: RoutePlan, policy: AttemptPolicy, calls: seq<Call>)
    requires SeeAll(plan, policy, calls).ok
    ensures var (s, t) := (SeeAll(plan, policy, calls).stage, TallyOf(calls));
            && t.taken == t.back + t.handed + (if HasSlot(s) then 1 else 0)
            && t.marking == t.blamed + (if OwesMark(s) then 1 else 0)
            && t.handed == (if s == Streaming then 1 else 0)
            && t.credited == (if s in {Credited, Streaming} then 1 else 0)
  {
    if calls != [] { ProtocolBalances(plan, policy, calls[..|calls| - 1]); }
  }

  /** Every slot taken is given back once, but for the winner's, which its body holds; every failure of a marking
      class is reported once, and exactly the winner is credited. */
  lemma SlotsAndMarksBalance(plan: RoutePlan, policy: AttemptPolicy, world: World, log: Log)
    requires ValidWorld(world)
    ensures var v := ExecFrom(plan, policy, world, 0, Begin(log));
            var (t, one) := (TallyOf(v.calls), if v.won then 1 else 0);
            t.taken == t.back + one && t.handed == one && t.credited == one && t.blamed == t.marking
  {
    FailoverIsHonest(plan, policy, world, log);
    ProtocolBalances(plan, policy, ExecFrom(plan, policy, world, 0, Begin(log)).calls);
  }

  // ---------------------------------------------------------------- evidence

  /** A dial's own rows carry no health verdict, and no disposition but a retry. */
  ghost predicate DialRowFresh(r: Row) {
    r.phase != Skip && r.health == Unstated && r.retry in {Undecided, RetrySame}
  }

  /** log only grew, by fresh dial rows. */
  ghost predicate GrewByDials(before: Log, log: Log) {
    && |before.rows| <= |log.rows| && before.dropped <= log.dropped
    && (forall k :: 0 <= k < |before.rows| ==> log.rows[k] == before.rows[k])
    && forall k :: |before.rows| <= k < |log.rows| ==> DialRowFresh(log.rows[k])
  }

  lemma AppendGrows(before: Log, log: Log, o: Outcome, dial: nat, draws: nat, retried: bool)
    requires GrewByDials(before, log)
    ensures GrewByDials(before, AppendOn(log, DialRow(o, dial, draws, retried)))
  {
    assert DialRowFresh(DialRow(o, dial, draws, retried));
  }

  lemma {:induction false} RetriesGrow(before: Log, oracle: Oracle, first: nat, count: nat, log: Log)
    requires GrewByDials(before, log)
    ensures GrewByDials(before, RetryRows(oracle, first, count, log))
    decreases count
  {
    if count > 0 {
      AppendGrows(before, log, oracle(first), first + 1, first + 1, true);
      RetriesGrow(before, oracle, first + 1, count - 1,
                  AppendOn(log, DialRow(oracle(first), first + 1, first + 1, true)));
    }
  }

  lemma AttemptGrows(oracle: Oracle, log: Log)
    ensures GrewByDials(log, AttemptOn(oracle, log).log)
  {
    var last := Standing(oracle, 0);
    RetriesGrow(log, oracle, 0, last, log);
    AppendGrows(log, RetryRows(oracle, 0, last, log), oracle(last), last + 1, last, false);
  }

  /** A row marked fallback was followed by a later attempt, unless it is the one whose successor is still sought. */
  ghost predicate RowHonest(r: Row, attempts: nat, awaiting: bool) {
    && (r.phase == Skip ==> r.health == Unstated && r.retry == Undecided)
    && (r.retry == Fallback ==> r.attempt < attempts || (r.attempt == attempts && awaiting))
  }

  ghost predicate RowsHonest(log: Log, attempts: nat, terminalRow: int) {
    && (forall k :: 0 <= k < |log.rows| ==> RowHonest(log.rows[k], attempts, k == terminalRow))
    && (0 <= terminalRow ==> terminalRow < |log.rows| && log.rows[terminalRow].phase != Skip)
  }

  lemma SkipRowHonest(log: Log, attempts: nat, terminalRow: int, id: string)
    requires RowsHonest(log, attempts, terminalRow)
    ensures RowsHonest(AppendOn(log, SkipRow(id)), attempts, terminalRow)
  {
  }

  lemma IdentifiedRows(policy: AttemptPolicy, id: string, entry: Entry, x: Progress, log: Log)
    requires RowsHonest(x.log, x.attempts, x.terminalRow)
    requires log == IdentifiedLog(policy, id, entry, x)
    ensures |x.log.rows| <= |log.rows|
    ensures forall k :: 0 <= k < |log.rows| ==> RowHonest(log.rows[k], x.attempts + 1, false)
    ensures forall k :: |x.log.rows| <= k < |log.rows| ==>
              log.rows[k].attempt == x.attempts + 1 && log.rows[k].phase != Skip
  {
    var a := AttemptOn(entry.oracle, x.log).log;
    AttemptGrows(entry.oracle, x.log);
    forall k | 0 <= k < |log.rows| ensures RowHonest(log.rows[k], x.attempts + 1, false) {
      if k < |x.log.rows| {
        assert log.rows[k] == x.log.rows[k] && RowHonest(x.log.rows[k], x.attempts, k == x.terminalRow);
      } else {
        assert DialRowFresh(a.rows[k]);
      }
    }
  }

  lemma DecidedRowsHonest(log: Log, start: nat, attempts: nat, health: HealthDecision, retry: RetryDecision)
    requires forall k :: 0 <= k < |log.rows| ==> RowHonest(log.rows[k], attempts, false)
    requires forall k :: start <= k < |log.rows| ==> log.rows[k].attempt == attempts && log.rows[k].phase != Skip
    requires retry in {Stop, Fallback}
    ensures RowsHonest(Decided(log, start, health, retry), attempts,
                       if retry == Stop then -1 else DecidedRow(log, start))
  {
    var (d, n) := (Decided(log, start, health, retry), |log.rows| - 1);
    forall k | 0 <= k < |d.rows|
      ensures RowHonest(d.rows[k], attempts, retry == Fallback && k == DecidedRow(log, start))
    {
      assert RowHonest(log.rows[k], attempts, false);
      if start <= n { assert d.rows[k] == if k == n then Edited(log.rows[k], Decide(health, retry)) else log.rows[k]; }
    }
  }

  lemma CorrectedRowsHonest(log: Log, attempts: nat, terminalRow: int)
    requires RowsHonest(log, attempts, terminalRow)
    ensures RowsHonest(AnnotateAtOn(log, terminalRow, Correct(Stop)), attempts, -1)
  {
  }

  lemma ExhaustedRowsHonest(x: Progress)
    requires RowsHonest(x.log, x.attempts, x.terminalRow) && (x.lastError.None? ==> x.terminalRow == -1)
    ensures RowsHonest(Exhausted(x).log, x.attempts, -1)
  {
    CorrectedRowsHonest(x.log, x.attempts, x.terminalRow);
  }

  ghost predicate EvidenceSound(x: Progress) {
    RowsHonest(x.log, x.attempts, x.terminalRow) && (x.lastError.None? ==> x.terminalRow == -1)
  }

  lemma DialRowsHonest(policy: AttemptPolicy, id: string, eg: Egress, entry: Entry, i: nat, x: Progress)
    requires EvidenceSound(x)
    ensures match DialEntry(policy, id, eg, entry, i, x)
            case Go(y) => EvidenceSound(y)
            case Halt(v) => RowsHonest(v.log, v.attempts, -1)
  {
    var (log, n, start) := (IdentifiedLog(policy, id, entry, x), x.attempts + 1, |x.log.rows|);
    var health := HealthOf(AttemptOn(entry.oracle, x.log).kind);
    IdentifiedRows(policy, id, entry, x, log);
    DecidedRowsHonest(log, start, n, health, Stop);
    DecidedRowsHonest(log, start, n, health, Fallback);
  }

  lemma {:induction false} RunRowsHonest(plan: RoutePlan, policy: AttemptPolicy, world: World, i: nat, x: Progress)
    requires i <= |plan.attempts| && EvidenceSound(x)
    ensures var v := ExecFrom(plan, policy, world, i, x); RowsHonest(v.log, v.attempts, -1)
    decreases |plan.attempts| - i
  {
    if i == |plan.attempts| {
      ExhaustedRowsHonest(x);
    } else {
      var m := StepOn(plan, policy, world, i, x);
      if EgressAt(plan, i).None? || !world(i).built || !world(i).admitted {
        SkipRowHonest(x.log, x.attempts, x.terminalRow, plan.attempts[i]);
        ExhaustedRowsHonest(SkipEntry(plan.attempts[i], i, x));
      } else {
        DialRowsHonest(policy, plan.attempts[i], EgressAt(plan, i).value, world(i), i, x);
      }
      if m.Go? { RunRowsHonest(plan, policy, world, i + 1, m.x); }
    }
  }

  /** On return no stored row claims a fallback that no later attempt followed, even when rows were dropped at the cap,
      and no skip row carries a decision. */
  lemma EvidenceIsHonest(plan: RoutePlan, policy: AttemptPolicy, world: World)
    ensures var v := ExecFrom(plan, policy, world, 0, Begin(Log([], 0)));
            forall k :: 0 <= k < |v.log.rows| ==>
              && (v.log.rows[k].retry == Fallback ==> v.log.rows[k].attempt < v.attempts)
              && (v.log.rows[k].phase == Skip ==> v.log.rows[k].health == Unstated && v.log.rows[k].retry == Undecided)
  {
    var v := ExecFrom(plan, policy, world, 0, Begin(Log([], 0)));
    RunRowsHonest(plan, policy, world, 0, Begin(Log([], 0)));
    assert forall k :: 0 <= k < |v.log.rows| ==> RowHonest(v.log.rows[k], v.attempts, k == -1);
  }

  // ---------------------------------------------------------------- nothing unaccounted for

  /** Rows an execution hands to the recorder: one per skip, one per failed dial of every attempt. */
  function Due(world: World, calls: seq<Call>): nat {
    if calls == [] then 0
    else
      var c := calls[|calls| - 1];
      Due(world, calls[..|calls| - 1])
      + (if c.Skipped? then 1
         else if c.Dialled? then Standing(world(c.i).oracle, 0)
             + (if ErrorOf(StandingOutcome(world(c.i))).Some? then 1 else 0)
         else 0)
  }

  lemma DueNext(world: World, calls: seq<Call>, c: Call)
    ensures Due(world, calls + [c]) == Due(world, calls) + Due(world, [c])
  {
    assert (calls + [c])[..|calls|] == calls;
    assert [c][..0] == [];
  }

  lemma {:induction false} DueJoin(world: World, calls: seq<Call>, more: seq<Call>)
    ensures Due(world, calls + more) == Due(world, calls) + Due(world, more)
  {
    if more == [] {
      assert calls + more == calls;
    } else {
      var (front, c) := (more[..|more| - 1], more[|more| - 1]);
      assert calls + more == (calls + front) + [c];
      assert more == front + [c];
      DueNext(world, calls + front, c);
      DueNext(world, front, c);
      DueJoin(world, calls, front);
    }
  }

  lemma DueOfDial(world: World, i: nat, key: string, kind: Class, won: bool)
    ensures Due(world, DialCalls(i, key, kind, won)) == Due(world, [Dialled(i, kind)])
  {
    var tail := if won then [Observed(i, key, true), Handed(i)]
                else [Released(i)] + (if kind.MarksHealth() then [Observed(i, key, false)] else []);
    DueJoin(world, [Acquired(i), Dialled(i, kind)], tail);
    DueNext(world, [Acquired(i)], Dialled(i, kind));
    assert [Acquired(i)] + [Dialled(i, kind)] == [Acquired(i), Dialled(i, kind)];
    SilentCalls(world, tail);
    SilentCalls(world, [Acquired(i)]);
  }

  lemma {:induction false} SilentCalls(world: World, calls: seq<Call>)
    requires forall k :: 0 <= k < |calls| ==> !calls[k].Skipped? && !calls[k].Dialled?
    ensures Due(world, calls) == 0
  {
    if calls != [] { SilentCalls(world, calls[..|calls| - 1]); }
  }

  lemma DialAccounts(policy: AttemptPolicy, id: string, eg: Egress, world: World, i: nat, x: Progress)
    ensures var due := Appended(x.log) + Due(world, [Dialled(i, AttemptOn(world(i).oracle, x.log).kind)]);
            match DialEntry(policy, id, eg, world(i), i, x)
            case Go(y) => Appended(y.log) == due
            case Halt(v) => Appended(v.log) == due
  {
    var a := AttemptOn(world(i).oracle, x.log);
    FailedDialsAreRecorded(world(i).oracle, x.log);
    DueNext(world, [], Dialled(i, a.kind));
  }

  function Books(world: World, log: Log, calls: seq<Call>): int { Appended(log) - Due(world, calls) }

  lemma SkipBalances(world: World, id: string, i: nat, x: Progress)
    ensures var y := SkipEntry(id, i, x); Books(world, y.log, y.calls) == Books(world, x.log, x.calls)
    ensures var v := Exhausted(SkipEntry(id, i, x)); Books(world, v.log, v.calls) == Books(world, x.log, x.calls)
  {
    DueNext(world, x.calls, Skipped(i));
    assert [Skipped(i)][..0] == [];
  }

  lemma DialBalances(policy: AttemptPolicy, id: string, eg: Egress, world: World, i: nat, x: Progress)
    ensures match DialEntry(policy, id, eg, world(i), i, x)
            case Go(y) => Books(world, y.log, y.calls) == Books(world, x.log, x.calls)
            case Halt(v) => Books(world, v.log, v.calls) == Books(world, x.log, x.calls)
  {
    var a := AttemptOn(world(i).oracle, x.log);
    DialAccounts(policy, id, eg, world, i, x);
    DueOfDial(world, i, eg.HealthKey(), a.kind, a.error.None?);
    DueJoin(world, x.calls, DialCalls(i, eg.HealthKey(), a.kind, a.error.None?));
  }

  lemma {:induction false} RunBalances(plan: RoutePlan, policy: AttemptPolicy, world: World, i: nat, x: Progress)
    requires i <= |plan.attempts|
    ensures var v := ExecFrom(plan, policy, world, i, x); Books(world, v.log, v.calls) == Books(world, x.log, x.calls)
    decreases |plan.attempts| - i
  {
    if i < |plan.attempts| {
      var m := StepOn(plan, policy, world, i, x);
      if EgressAt(plan, i).None? || !world(i).built || !world(i).admitted {
        SkipBalances(world, plan.attempts[i], i, x);
      } else {
        DialBalances(policy, plan.attempts[i], EgressAt(plan, i).value, world, i, x);
      }
      if m.Go? { RunBalances(plan, policy, world, i + 1, m.x); }
    }
  }

  /** Stored plus dropped rows are one per skipped entry and one per failed dial, no more and no fewer. */
  lemma EveryFailureIsAccountedFor(plan: RoutePlan, policy: AttemptPolicy, world: World)
    ensures var v := ExecFrom(plan, policy, world, 0, Begin(Log([], 0)));
            |v.log.rows| + v.log.dropped == Due(world, v.calls)
  {
    RunBalances(plan, policy, world, 0, Begin(Log([], 0)));
  }
}
