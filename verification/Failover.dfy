/**
 The cross-egress executor of internal/upstream/fallback.go: it walks a plan,
 dials at most Budget egresses and returns the first live response or the last
 real verdict. What it asks of the limiter and the health registry is its call
 sequence; their answers, and all dial outcomes, come from the world.
 */
module Failover {
  import opened Basics
  import opened Config
  import opened Routing
  import opened Upstream

  datatype AttemptPolicy = AttemptPolicy(fallbackEnabled: bool, maxAttempts: int, maxConcurrency: map<string, int>)
  {
    function Budget(): int {
      if !fallbackEnabled || maxAttempts < 1 then 1 else maxAttempts
    }
  }

  /** What meets the executor at one plan entry: whether the transport can be built, whether the limiter admits it and
      at which occupancy, and how its dials come out. */
  datatype Entry = Entry(built: bool, admitted: bool, occupancy: nat, oracle: Oracle)

  type World = nat -> Entry

  /** Calls on the limiter, the client, the registry and the response body, by plan index. */
  datatype Call =
    | Skipped(i: nat)
    | Acquired(i: nat)
    | Dialled(i: nat, kind: Class)
    | Released(i: nat)
    | Observed(i: nat, key: string, ok: bool)
    | Handed(i: nat)

  /** terminalRow is the row the last fallback decision was stamped on, -1 for none. */
  datatype Progress = Progress(
    attempts: nat,
    lastId: string,
    lastKind: Class,
    lastError: Option<UpstreamError>,
    terminalRow: int,
    log: Log,
    calls: seq<Call>)

  datatype Verdict = Verdict(won: bool, egress: string, attempts: nat, kind: Class, error: Option<UpstreamError>,
                             log: Log, calls: seq<Call>)

  datatype Move = Go(x: Progress) | Halt(v: Verdict)

  const NONE_SERVED := UpstreamError(502, "none of the eligible egresses could serve the request")

  function Begin(log: Log): Progress { Progress(0, "", ConnectionError, None, -1, log, []) }

  function SkipRow(id: string): Row {
    Row(Skip, id, 0, 0, 0, Success, 0, false, 0, 0, Unstated, Undecided)
  }

  /** The plan ran out: the last real verdict, whose row now says that the request stopped there. */
  function Exhausted(x: Progress): Verdict {
    if x.lastError.Some? then
      Verdict(false, x.lastId, x.attempts, x.lastKind, x.lastError,
              AnnotateAtOn(x.log, x.terminalRow, Correct(Stop)), x.calls)
    else Verdict(false, x.lastId, x.attempts, x.lastKind, Some(NONE_SERVED), x.log, x.calls)
  }

  function SkipEntry(id: string, i: nat, x: Progress): Progress {
    x.(log := AppendOn(x.log, SkipRow(id)), calls := x.calls + [Skipped(i)])
  }

  /** annotateDecision: stamp the last row of the attempt that starts at start, if the cap kept any. */
  function Decided(log: Log, start: nat, health: HealthDecision, retry: RetryDecision): Log {
    if |log.rows| <= start then log else AnnotateOn(log, |log.rows| - 1, Decide(health, retry))
  }

  function DecidedRow(log: Log, start: nat): int { if |log.rows| <= start then -1 else |log.rows| - 1 }

  /** The log of one attempt once its rows carry the egress and the attempt number. */
  function IdentifiedLog(policy: AttemptPolicy, id: string, entry: Entry, x: Progress): Log {
    var capped := id in policy.maxConcurrency && policy.maxConcurrency[id] > 0;
    AnnotateOn(AttemptOn(entry.oracle, x.log).log, |x.log.rows|,
               Identify(id, x.attempts + 1, if capped then entry.occupancy else 0))
  }

  function HealthOf(kind: Class): HealthDecision { if kind.MarksHealth() then Marked else Neutral }

  /** The calls an entry that was admitted leads to. */
  function DialCalls(i: nat, key: string, kind: Class, won: bool): seq<Call> {
    [Acquired(i), Dialled(i, kind)]
    + (if won then [Observed(i, key, true), Handed(i)]
       else [Released(i)] + (if kind.MarksHealth() then [Observed(i, key, false)] else []))
  }

  function DialEntry(policy: AttemptPolicy, id: string, eg: Egress, entry: Entry, i: nat, x: Progress): Move {
    var a := AttemptOn(entry.oracle, x.log);
    var log := IdentifiedLog(policy, id, entry, x);
    var calls := x.calls + DialCalls(i, eg.HealthKey(), a.kind, a.error.None?);
    var n := x.attempts + 1;
    var start := |x.log.rows|;
    if a.error.None? then Halt(Verdict(true, id, n, a.kind, None, log, calls))
    else if !a.kind.FallbackAllowed() || n >= policy.Budget() then
      Halt(Verdict(false, id, n, a.kind, a.error, Decided(log, start, HealthOf(a.kind), Stop), calls))
    else Go(Progress(n, id, a.kind, a.error, DecidedRow(log, start),
                     Decided(log, start, HealthOf(a.kind), Fallback), calls))
  }

  function EgressAt(plan: RoutePlan, i: nat): Option<Egress> {
    if i < |plan.egresses| then plan.egresses[i] else None
  }

  function StepOn(plan: RoutePlan, policy: AttemptPolicy, world: World, i: nat, x: Progress): Move
    requires i < |plan.attempts|
  {
    var eg := EgressAt(plan, i);
    if eg.None? || !world(i).built || !world(i).admitted then
      var y := SkipEntry(plan.attempts[i], i, x);
      if policy.fallbackEnabled then Go(y) else Halt(Exhausted(y))
    else DialEntry(policy, plan.attempts[i], eg.value, world(i), i, x)
  }

  function ExecFrom(plan: RoutePlan, policy: AttemptPolicy, world: World, i: nat, x: Progress): Verdict
    requires i <= |plan.attempts|
    decreases |plan.attempts| - i
  {
    if i == |plan.attempts| then Exhausted(x)
    else
      match StepOn(plan, policy, world, i, x)
      case Go(y) => ExecFrom(plan, policy, world, i + 1, y)
      case Halt(v) => v
  }

  // ---------------------------------------------------------------- the loop

  method AnnotateDecision(rec: Recorder, start: nat, health: HealthDecision, retry: RetryDecision)
      returns (stamped: int)
    modifies rec
    ensures rec.Contents() == Decided(old(rec.Contents()), start, health, retry)
    ensures stamped == DecidedRow(old(rec.Contents()), start)
  {
    var n := rec.Len();
    if n - 1 < start {
      return -1;
    }
    rec.Annotate(n - 1, Decide(health, retry));
    stamped := n - 1;
  }

  /** One admitted dial and everything decided about it. */
  method DialOne(policy: AttemptPolicy, id: string, eg: Egress, entry: Entry, i: nat, rec: Recorder, ghost x: Progress,
                 attempts: nat, calls: seq<Call>)
      returns (kind: Class, error: Option<UpstreamError>, terminalRow: int, out: seq<Call>, stop: bool)
    requires x.attempts == attempts && x.log == rec.Contents() && x.calls == calls
    modifies rec
    ensures DialEntry(policy, id, eg, entry, i, x)
         == if stop then Halt(Verdict(error.None?, id, attempts + 1, kind, error, rec.Contents(), out))
            else Go(Progress(attempts + 1, id, kind, error, terminalRow, rec.Contents(), out))
  {
    var inFlight := 0;
    if id in policy.maxConcurrency && policy.maxConcurrency[id] > 0 {
      inFlight := entry.occupancy;
    }
    var start := rec.Len();
    var dials, slept;
    kind, error, dials, slept := DoClassifiedObserved(entry.oracle, rec);
    rec.Annotate(start, Identify(id, attempts + 1, inFlight));
    assert rec.Contents() == IdentifiedLog(policy, id, entry, x);
    var marked := !error.None? && kind.MarksHealth();
    out := ReportOutcome(calls, i, eg.HealthKey(), kind, error.None?);
    terminalRow := -1;
    if error.None? {
      stop := true;
    } else {
      stop := !kind.FallbackAllowed() || attempts + 1 >= policy.Budget();
      terminalRow := AnnotateDecision(rec, start, if marked then Marked else Neutral, if stop then Stop else Fallback);
    }
  }

  /** The calls around one dial: its slot goes back or, after the credit, to the body; a marking failure is reported. */
  method ReportOutcome(calls: seq<Call>, i: nat, key: string, kind: Class, won: bool) returns (out: seq<Call>)
    ensures out == calls + DialCalls(i, key, kind, won)
  {
    out := calls + [Acquired(i), Dialled(i, kind)];
    if won {
      out := out + [Observed(i, key, true), Handed(i)];
    } else {
      out := out + [Released(i)];
      if kind.MarksHealth() {
        out := out + [Observed(i, key, false)];
      }
    }
  }

  /** ExecuteObserved */
  method ExecuteObserved(plan: RoutePlan, policy: AttemptPolicy, world: World, rec: Recorder)
      returns (won: bool, egress: string, attempts: nat, kind: Class, error: Option<UpstreamError>, calls: seq<Call>)
    modifies rec
    ensures Verdict(won, egress, attempts, kind, error, rec.Contents(), calls)
         == ExecFrom(plan, policy, world, 0, Begin(old(rec.Contents())))
  {
    won, egress, attempts, kind, error, calls := false, "", 0, ConnectionError, None, [];
    var terminalRow := -1;
    var i := 0;
    while i < |plan.attempts|
      invariant i <= |plan.attempts| && !won
      invariant ExecFrom(plan, policy, world, i,
                         Progress(attempts, egress, kind, error, terminalRow, rec.Contents(), calls))
             == ExecFrom(plan, policy, world, 0, Begin(old(rec.Contents())))
    {
      ghost var x := Progress(attempts, egress, kind, error, terminalRow, rec.Contents(), calls);
      var id := plan.attempts[i];
      var eg := EgressAt(plan, i);
      if eg.None? || !world(i).built || !world(i).admitted {
        rec.Append(SkipRow(id));
        calls := calls + [Skipped(i)];
        if !policy.fallbackEnabled {
          assert ExecFrom(plan, policy, world, i, x) == Exhausted(SkipEntry(id, i, x));
          break;
        }
      } else {
        var stop;
        kind, error, terminalRow, calls, stop := DialOne(policy, id, eg.value, world(i), i, rec, x, attempts, calls);
        egress, attempts := id, attempts + 1;
        if stop {
          won := error.None?;
          return;
        }
      }
      i := i + 1;
    }
    if error.Some? {
      rec.AnnotateAt(terminalRow, Correct(Stop));
    } else {
      error := Some(NONE_SERVED);
    }
  }
}
