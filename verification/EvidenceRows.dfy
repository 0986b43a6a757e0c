/**
 The evidence an execution leaves, row by row: which dial or skip a stored row
 tells of, and which of them carry the executor's decisions. Rows beyond the
 recorder's cap are only counted.
 */
module EvidenceRows {
  import opened Basics
  import opened Config
  import opened Routing
  import opened Upstream
  import opened Attempts
  import opened Failover
  import opened Executions
  import FailoverRuns

  // ---------------------------------------------------------------- what the rows tell

  /** A row without the decisions that the executor stamps on it. */
  function Bare(r: Row): Row { r.(health := Unstated, retry := if r.retried then RetrySame else Undecided) }

  function BareRows(rows: seq<Row>): (out: seq<Row>)
    ensures |out| == |rows|
  {
    seq(|rows|, k requires 0 <= k < |rows| => Bare(rows[k]))
  }

  function Bares(log: Log): Log { Log(BareRows(log.rows), log.dropped) }

  /** Rows once they carry the egress, the number of the attempt and the occupancy it found. */
  function Named(rows: seq<Row>, id: string, attempt: nat, inFlight: nat): (out: seq<Row>)
    ensures |out| == |rows|
  {
    seq(|rows|, k requires 0 <= k < |rows| => rows[k].(egress := id, attempt := attempt, inFlight := inFlight))
  }

  /** The occupancy is noted for capped egresses only. */
  function Noted(policy: AttemptPolicy, id: string, world: World, i: nat): nat {
    if id in policy.maxConcurrency && policy.maxConcurrency[id] > 0 then world(i).occupancy else 0
  }

  /** The rows of entry i: one that says it was skipped, or one for each of its failed dials. */
  function EntryRows(plan: RoutePlan, policy: AttemptPolicy, world: World, i: nat): seq<Row>
    requires i < |plan.attempts|
  {
    var id := plan.attempts[i];
    if !Dialable(plan, world, i) then [Row(Skip, id, 0, 0, 0, Success, 0, false, 0, 0, Unstated, Undecided)]
    else Named(AttemptRows(world(i).oracle), id, |DialsAmong(plan, world, i)| + 1, Noted(policy, id, world, i))
  }

  function RowsAmong(plan: RoutePlan, policy: AttemptPolicy, world: World, n: nat): seq<Row>
    requires n <= |plan.attempts|
  {
    if n == 0 then [] else RowsAmong(plan, policy, world, n - 1) + EntryRows(plan, policy, world, n - 1)
  }

  lemma KeptJoin(log: Log, a: seq<Row>, b: seq<Row>)
    ensures Kept(Kept(log, a), b) == Kept(log, a + b)
  {
    var room := if |log.rows| < 16 then 16 - |log.rows| else 0;
    if |a| <= room {
      assert (log.rows + a) + b == log.rows + (a + b);
      if |a| + |b| > room {
        assert (a + b)[..room] == a + b[..room - |a|];
        assert (log.rows + a) + b[..room - |a|] == log.rows + (a + b)[..room];
      }
    } else {
      assert (a + b)[..room] == a[..room];
      assert b[..0] == [] && (log.rows + a[..room]) + [] == log.rows + a[..room];
    }
  }

  lemma BareJoin(a: seq<Row>, b: seq<Row>)
    ensures BareRows(a + b) == BareRows(a) + BareRows(b)
  {
  }

  lemma {:induction false} FreshRowsAreBare(oracle: Oracle, m: nat, n: nat)
    ensures BareRows(RowsOf(oracle, m, n)) == RowsOf(oracle, m, n)
    ensures |RowsOf(oracle, m, n)| == m
    ensures forall k: nat :: k < m ==> RowsOf(oracle, m, n)[k] == RowOf(oracle(k), k, n)
  {
    if m > 0 {
      FreshRowsAreBare(oracle, m - 1, n);
      OneMoreBare(RowsOf(oracle, m - 1, n), RowOf(oracle(m - 1), m - 1, n));
    }
  }

  lemma OneMoreBare(rows: seq<Row>, r: Row)
    requires BareRows(rows) == rows && Bare(r) == r
    ensures BareRows(rows + [r]) == rows + [r]
  {
    BareJoin(rows, [r]);
    assert BareRows([r]) == [r];
  }

  /** Naming the rows of an attempt in the log names just those that the log kept. */
  lemma NamedInTheLog(log: Log, rows: seq<Row>, id: string, attempt: nat, inFlight: nat)
    ensures AnnotateOn(Kept(log, rows), |log.rows|, Identify(id, attempt, inFlight))
         == Kept(log, Named(rows, id, attempt, inFlight))
  {
    var (k, l) := (AnnotateOn(Kept(log, rows), |log.rows|, Identify(id, attempt, inFlight)),
                   Kept(log, Named(rows, id, attempt, inFlight)));
    assert |k.rows| == |l.rows|;
    assert k.rows == l.rows;
  }

  lemma BaresKept(log: Log, rows: seq<Row>)
    requires BareRows(rows) == rows
    ensures Bares(Kept(log, rows)) == Kept(Bares(log), rows)
  {
    var room := if |log.rows| < 16 then 16 - |log.rows| else 0;
    if |rows| <= room {
      BareJoin(log.rows, rows);
    } else {
      assert BareRows(rows[..room]) == BareRows(rows)[..room];
      BareJoin(log.rows, rows[..room]);
    }
  }

  /** The log of one attempt, when its rows have their names. */
  lemma IdentifiedIsKept(plan: RoutePlan, policy: AttemptPolicy, world: World, i: nat, x: Progress)
    requires i < |plan.attempts| && Dialable(plan, world, i) && x.attempts == |DialsAmong(plan, world, i)|
    ensures IdentifiedLog(policy, plan.attempts[i], world(i), x) == Kept(x.log, EntryRows(plan, policy, world, i))
  {
    var id := plan.attempts[i];
    AttemptExactly(world(i).oracle, x.log);
    NamedInTheLog(x.log, AttemptRows(world(i).oracle), id, x.attempts + 1, Noted(policy, id, world, i));
  }

  lemma EntryRowsAreBare(plan: RoutePlan, policy: AttemptPolicy, world: World, i: nat)
    requires i < |plan.attempts|
    ensures BareRows(EntryRows(plan, policy, world, i)) == EntryRows(plan, policy, world, i)
  {
    if Dialable(plan, world, i) {
      var (o, n) := (world(i).oracle, LastDial(world(i).oracle, 0));
      FreshRowsAreBare(o, if ErrorTold(o(n)).Some? then n + 1 else n, n);
      NamedStaysBare(AttemptRows(o), plan.attempts[i], |DialsAmong(plan, world, i)| + 1,
                     Noted(policy, plan.attempts[i], world, i));
    }
  }

  lemma NamedStaysBare(rows: seq<Row>, id: string, attempt: nat, inFlight: nat)
    requires BareRows(rows) == rows
    ensures BareRows(Named(rows, id, attempt, inFlight)) == Named(rows, id, attempt, inFlight)
  {
    var named := Named(rows, id, attempt, inFlight);
    forall k | 0 <= k < |rows| ensures Bare(named[k]) == named[k] { assert BareRows(rows)[k] == rows[k]; }
  }

  lemma DecidedIsBare(log: Log, start: nat, health: HealthDecision, retry: RetryDecision)
    ensures Bares(Decided(log, start, health, retry)) == Bares(log)
  {
    assert BareRows(Decided(log, start, health, retry).rows) == BareRows(log.rows);
  }

  lemma CorrectedIsBare(log: Log, i: int)
    ensures Bares(AnnotateAtOn(log, i, Correct(Stop))) == Bares(log)
  {
    assert BareRows(AnnotateAtOn(log, i, Correct(Stop)).rows) == BareRows(log.rows);
  }

  ghost predicate Tells(plan: RoutePlan, policy: AttemptPolicy, world: World, start: Log, n: nat, log: Log)
    requires n <= |plan.attempts|
  {
    Bares(log) == Kept(Bares(start), RowsAmong(plan, policy, world, n))
  }

  lemma EntryTells(plan: RoutePlan, policy: AttemptPolicy, world: World, start: Log, i: nat, log: Log, after: Log)
    requires i < |plan.attempts| && Tells(plan, policy, world, start, i, log)
    requires Bares(after) == Bares(Kept(log, EntryRows(plan, policy, world, i)))
    ensures Tells(plan, policy, world, start, i + 1, after)
  {
    EntryRowsAreBare(plan, policy, world, i);
    BaresKept(log, EntryRows(plan, policy, world, i));
    KeptJoin(Bares(start), RowsAmong(plan, policy, world, i), EntryRows(plan, policy, world, i));
  }

  lemma SkipTells(plan: RoutePlan, policy: AttemptPolicy, world: World, start: Log, i: nat, x: Progress)
    requires i < |plan.attempts| && Tells(plan, policy, world, start, i, x.log) && !Dialable(plan, world, i)
    ensures Tells(plan, policy, world, start, i + 1, SkipEntry(plan.attempts[i], i, x).log)
    ensures Tells(plan, policy, world, start, i + 1, Exhausted(SkipEntry(plan.attempts[i], i, x)).log)
  {
    var y := SkipEntry(plan.attempts[i], i, x);
    KeptNext(x.log, [], SkipRow(plan.attempts[i]));
    assert [] + [SkipRow(plan.attempts[i])] == [SkipRow(plan.attempts[i])] && x.log.rows + [] == x.log.rows;
    EntryTells(plan, policy, world, start, i, x.log, y.log);
    CorrectedIsBare(y.log, y.terminalRow);
  }

  lemma DialTells(plan: RoutePlan, policy: AttemptPolicy, world: World, start: Log, i: nat, x: Progress)
    requires i < |plan.attempts| && Tells(plan, policy, world, start, i, x.log) && Dialable(plan, world, i)
    requires x.attempts == |DialsAmong(plan, world, i)|
    ensures match DialEntry(policy, plan.attempts[i], plan.egresses[i].value, world(i), i, x)
            case Go(y) => Tells(plan, policy, world, start, i + 1, y.log)
            case Halt(v) => Tells(plan, policy, world, start, i + 1, v.log)
  {
    var (log, from) := (IdentifiedLog(policy, plan.attempts[i], world(i), x), |x.log.rows|);
    var health := HealthOf(AttemptOn(world(i).oracle, x.log).kind);
    IdentifiedIsKept(plan, policy, world, i, x);
    DecidedIsBare(log, from, health, Stop);
    DecidedIsBare(log, from, health, Fallback);
    EntryTells(plan, policy, world, start, i, x.log, log);
  }

  /** The log after one step tells of one entry more. */
  ghost predicate StepTells(plan: RoutePlan, policy: AttemptPolicy, world: World, start: Log, i: nat, m: Move)
    requires i < |plan.attempts|
  {
    Tells(plan, policy, world, start, i + 1, match m case Go(y) => y.log case Halt(v) => v.log)
  }

  lemma StepDoesTell(plan: RoutePlan, policy: AttemptPolicy, world: World, start: Log, i: nat, x: Progress)
    requires i < |plan.attempts| && Tells(plan, policy, world, start, i, x.log)
    requires x.attempts == |DialsAmong(plan, world, i)|
    ensures StepTells(plan, policy, world, start, i, StepOn(plan, policy, world, i, x))
  {
    if Dialable(plan, world, i) {
      DialTells(plan, policy, world, start, i, x);
    } else {
      SkipTells(plan, policy, world, start, i, x);
    }
  }

  lemma TakeTellingStep(plan: RoutePlan, policy: AttemptPolicy, world: World, start: Log, i: nat, x: Progress,
                        v: Verdict) returns (m: Move)
    requires FailoverRuns.ValidWorld(world) && i < |plan.attempts| && v == ExecFrom(plan, policy, world, i, x)
    requires Stands(plan, world, i, x) && GoesOn(plan, policy, world, i)
    requires Tells(plan, policy, world, start, i, x.log)
    ensures Leads(plan, policy, world, i, m, v) && StepTells(plan, policy, world, start, i, m)
  {
    m := StepOn(plan, policy, world, i, x);
    StepLeads(plan, policy, world, i, x, m, v);
    StepDoesTell(plan, policy, world, start, i, x);
  }

  lemma {:induction false} WalkTells(plan: RoutePlan, policy: AttemptPolicy, world: World, start: Log, i: nat,
                                     x: Progress, n: nat, v: Verdict)
    requires FailoverRuns.ValidWorld(world) && i <= |plan.attempts| && v == ExecFrom(plan, policy, world, i, x)
    requires Stands(plan, world, i, x) && GoesOn(plan, policy, world, i) && n == Touched(plan, policy, world, i)
    requires Tells(plan, policy, world, start, i, x.log)
    ensures Tells(plan, policy, world, start, n, v.log)
    decreases |plan.attempts| - i
  {
    if i == |plan.attempts| {
      CorrectedIsBare(x.log, x.terminalRow);
    } else {
      var m := TakeTellingStep(plan, policy, world, start, i, x, v);
      if m.Go? { WalkTells(plan, policy, world, start, i + 1, m.x, n, v); }
    }
  }

  /** But for the decisions stamped on them, the rows of an execution are those of the entries it touched, in plan order
      and dial order, as far as the first sixteen of the request go; the rest is counted. */
  lemma RowsTellTheWalk(plan: RoutePlan, policy: AttemptPolicy, world: World, start: Log)
    requires FailoverRuns.ValidWorld(world)
    ensures Bares(ExecFrom(plan, policy, world, 0, Begin(start)).log)
         == Kept(Bares(start), RowsAmong(plan, policy, world, Touched(plan, policy, world, 0)))
  {
    assert RowsAmong(plan, policy, world, 0) == [] && BareRows(start.rows) + [] == BareRows(start.rows);
    WalkTells(plan, policy, world, start, 0, Begin(start), Touched(plan, policy, world, 0),
              ExecFrom(plan, policy, world, 0, Begin(start)));
  }

  // ---------------------------------------------------------------- what was decided

  /** Row k is the last stored row of its attempt. */
  predicate LastOfAttempt(rows: seq<Row>, k: nat)
    requires k < |rows|
  {
    forall m :: k < m < |rows| ==> rows[m].attempt != rows[k].attempt
  }

  /** Row k carries the decisions it must: none on a skip; on the last stored row of a failed attempt whether it counts
      against the egress and what was done next, final being that for the last attempt; on any other row of an attempt
      that its dial was tried again. ds are the entries dialled. */
  ghost predicate Ruled(world: World, ds: seq<nat>, rows: seq<Row>, k: nat, final: RetryDecision)
    requires k < |rows|
  {
    var r := rows[k];
    if r.phase == Skip then r.attempt == 0 && r.health == Unstated && r.retry == Undecided
    else
      && 1 <= r.attempt <= |ds|
      && var o := ResultOf(world, ds[r.attempt - 1]);
         if !Serves(o) && LastOfAttempt(rows, k) then
           && r.health == (if Blames(o) then Marked else Neutral)
           && r.retry == (if r.attempt < |ds| then Fallback else final)
         else r.health == Unstated && r.retry == RetrySame
  }

  ghost predicate AllRuled(world: World, ds: seq<nat>, rows: seq<Row>, final: RetryDecision) {
    forall k :: 0 <= k < |rows| ==> Ruled(world, ds, rows, k, final)
  }

  /** In progress: the decision of the last attempt reads fallback, and terminalRow is where it stands. */
  ghost predicate Pending(world: World, ds: seq<nat>, x: Progress) {
    && AllRuled(world, ds, x.log.rows, Fallback)
    && (x.terminalRow >= 0 ==>
          x.terminalRow < |x.log.rows| && ds != [] && x.log.rows[x.terminalRow].attempt == |ds|
          && x.log.rows[x.terminalRow].phase != Skip && LastOfAttempt(x.log.rows, x.terminalRow)
          && !Serves(ResultOf(world, ds[|ds| - 1])))
    && (x.terminalRow < 0 ==>
          forall k :: 0 <= k < |x.log.rows| ==> x.log.rows[k].phase != Skip ==> x.log.rows[k].attempt < |ds|)
  }

  /** A skip row moves no one else's place. */
  lemma SkipKeepsRules(world: World, ds: seq<nat>, rows: seq<Row>, id: string, final: RetryDecision)
    requires AllRuled(world, ds, rows, final)
    ensures AllRuled(world, ds, rows + [SkipRow(id)], final)
    ensures forall k :: 0 <= k < |rows| && rows[k].attempt > 0 ==>
              (LastOfAttempt(rows + [SkipRow(id)], k) <==> LastOfAttempt(rows, k))
  {
    var more := rows + [SkipRow(id)];
    forall k | 0 <= k < |rows| && rows[k].attempt > 0 ensures LastOfAttempt(more, k) <==> LastOfAttempt(rows, k) {
      assert forall m :: 0 <= m < |rows| ==> more[m] == rows[m];
    }
    forall k | 0 <= k < |more| ensures Ruled(world, ds, more, k, final) {
      if k < |rows| { assert Ruled(world, ds, rows, k, final); }
    }
  }

  /** Rows of a new attempt, not decided on yet: all but the last were tried again, and that one, too, if it served. */
  ghost predicate Undone(rows: seq<Row>, attempt: nat, served: bool) {
    forall k :: 0 <= k < |rows| ==>
      && rows[k].phase != Skip && rows[k].attempt == attempt && rows[k].health == Unstated
      && (k < |rows| - 1 || served ==> rows[k].retry == RetrySame)
  }

  /** Rows after the executor stamped the last one. */
  function Stamped(rows: seq<Row>, health: HealthDecision, retry: RetryDecision): seq<Row> {
    if rows == [] then rows
    else rows[|rows| - 1 := rows[|rows| - 1].(health := health, retry := retry)]
  }

  lemma NewRowsRuled(world: World, ds: seq<nat>, i: nat, rows: seq<Row>, bare: seq<Row>, new_: seq<Row>,
                     final: RetryDecision)
    requires AllRuled(world, ds, rows, Fallback) && Undone(bare, |ds| + 1, Serves(ResultOf(world, i)))
    requires new_ == if Serves(ResultOf(world, i)) then bare
                     else Stamped(bare, if Blames(ResultOf(world, i)) then Marked else Neutral, final)
    ensures AllRuled(world, ds + [i], rows + new_, final)
  {
    var (all, more) := (rows + new_, ds + [i]);
    forall k | 0 <= k < |all| ensures Ruled(world, more, all, k, final) {
      if k < |rows| {
        OldRowRuled(world, ds, i, rows, new_, k, final);
      } else {
        assert all[k] == new_[k - |rows|] && more[|ds|] == i;
        LastIsLast(rows, new_, k - |rows|, |ds| + 1);
      }
    }
  }

  lemma LastIsLast(rows: seq<Row>, new_: seq<Row>, j: nat, attempt: nat)
    requires j < |new_| && forall k :: 0 <= k < |new_| ==> new_[k].attempt == attempt
    ensures LastOfAttempt(rows + new_, |rows| + j) <==> j == |new_| - 1
  {
    var all := rows + new_;
    if j < |new_| - 1 { assert all[|all| - 1].attempt == all[|rows| + j].attempt; }
  }

  lemma OldRowRuled(world: World, ds: seq<nat>, i: nat, rows: seq<Row>, new_: seq<Row>, k: nat, final: RetryDecision)
    requires k < |rows| && Ruled(world, ds, rows, k, Fallback)
    requires forall j :: 0 <= j < |new_| ==> new_[j].attempt == |ds| + 1
    ensures Ruled(world, ds + [i], rows + new_, k, final)
  {
    var all := rows + new_;
    assert forall m :: 0 <= m < |rows| ==> all[m] == rows[m];
    assert forall m :: |rows| <= m < |all| ==> all[m] == new_[m - |rows|];
    if rows[k].attempt <= |ds| && rows[k].phase != Skip {
      assert LastOfAttempt(all, k) <==> LastOfAttempt(rows, k);
      assert (ds + [i])[rows[k].attempt - 1] == ds[rows[k].attempt - 1];
    }
  }

  // ---------------------------------------------------------------- every decision is there

  /** The rows of entry i that the log had room for. */
  function Fitting(log: Log, rows: seq<Row>): seq<Row> {
    var room := if |log.rows| < 16 then 16 - |log.rows| else 0;
    if |rows| <= room then rows else rows[..room]
  }

  lemma KeptFits(log: Log, rows: seq<Row>)
    ensures Kept(log, rows).rows == log.rows + Fitting(log, rows)
  {
  }

  /** Rows of an attempt before they carry its number. */
  ghost predicate Unnamed(rows: seq<Row>, served: bool) {
    forall k :: 0 <= k < |rows| ==>
      && rows[k].phase != Skip && rows[k].health == Unstated
      && (k < |rows| - 1 || served ==> rows[k].retry == RetrySame)
  }

  lemma AttemptRowsUndone(oracle: Oracle)
    ensures Unnamed(AttemptRows(oracle), Serves(oracle(LastDial(oracle, 0))))
  {
    var n := LastDial(oracle, 0);
    FreshRowsAreBare(oracle, if ErrorTold(oracle(n)).Some? then n + 1 else n, n);
  }

  lemma NamedUndone(rows: seq<Row>, id: string, attempt: nat, inFlight: nat, served: bool)
    requires Unnamed(rows, served)
    ensures Undone(Named(rows, id, attempt, inFlight), attempt, served)
  {
    var named := Named(rows, id, attempt, inFlight);
    assert forall k :: 0 <= k < |named| ==>
             && named[k].attempt == attempt && named[k].phase == rows[k].phase
             && named[k].health == rows[k].health && named[k].retry == rows[k].retry;
  }

  lemma FittingUndone(log: Log, rows: seq<Row>, attempt: nat, served: bool)
    requires Undone(rows, attempt, served)
    ensures Undone(Fitting(log, rows), attempt, served)
  {
  }

  lemma EntryRowsUndone(plan: RoutePlan, policy: AttemptPolicy, world: World, i: nat, log: Log)
    requires i < |plan.attempts| && Dialable(plan, world, i)
    ensures Undone(Fitting(log, EntryRows(plan, policy, world, i)), |DialsAmong(plan, world, i)| + 1,
                   Serves(ResultOf(world, i)))
  {
    var (served, n) := (Serves(ResultOf(world, i)), |DialsAmong(plan, world, i)| + 1);
    AttemptRowsUndone(world(i).oracle);
    NamedUndone(AttemptRows(world(i).oracle), plan.attempts[i], n, Noted(policy, plan.attempts[i], world, i), served);
    FittingUndone(log, EntryRows(plan, policy, world, i), n, served);
  }

  lemma DecidedStamps(log: Log, rows: seq<Row>, bare: seq<Row>, health: HealthDecision, retry: RetryDecision)
    requires log.rows == rows + bare
    ensures Decided(log, |rows|, health, retry).rows == rows + Stamped(bare, health, retry)
    ensures DecidedRow(log, |rows|) == if bare == [] then -1 else |log.rows| - 1
  {
    assert Decided(log, |rows|, health, retry).rows == rows + Stamped(bare, health, retry);
  }

  lemma StampedPends(world: World, ds: seq<nat>, i: nat, rows: seq<Row>, bare: seq<Row>, x: Progress, y: Progress)
    requires Pending(world, ds, x) && x.log.rows == rows && !Serves(ResultOf(world, i))
    requires Undone(bare, |ds| + 1, false)
    requires y.log.rows == rows + Stamped(bare, if Blames(ResultOf(world, i)) then Marked else Neutral, Fallback)
    requires y.terminalRow == if bare == [] then -1 else |y.log.rows| - 1
    ensures Pending(world, ds + [i], y)
  {
    var new_ := Stamped(bare, if Blames(ResultOf(world, i)) then Marked else Neutral, Fallback);
    NewRowsRuled(world, ds, i, rows, bare, new_, Fallback);
    assert (ds + [i])[|ds|] == i;
    forall k | 0 <= k < |rows| ensures rows[k].phase != Skip ==> rows[k].attempt <= |ds| {
      assert Ruled(world, ds, rows, k, Fallback);
    }
  }

  lemma DialDecides(plan: RoutePlan, policy: AttemptPolicy, world: World, i: nat, x: Progress)
    requires i < |plan.attempts| && Dialable(plan, world, i) && ResultOf(world, i).Valid()
    requires x.attempts == |DialsAmong(plan, world, i)| && Pending(world, DialsAmong(plan, world, i), x)
    ensures var ds := DialsAmong(plan, world, i + 1);
            match DialEntry(policy, plan.attempts[i], plan.egresses[i].value, world(i), i, x)
            case Go(y) => Pending(world, ds, y)
            case Halt(v) => AllRuled(world, ds, v.log.rows, Stop)
  {
    var (ds, o) := (DialsAmong(plan, world, i), ResultOf(world, i));
    var (log, bare) := (IdentifiedLog(policy, plan.attempts[i], world(i), x),
                        Fitting(x.log, EntryRows(plan, policy, world, i)));
    var health := if Blames(o) then Marked else Neutral;
    AttemptExactly(world(i).oracle, x.log);
    ClassesMean(o);
    IdentifiedIsKept(plan, policy, world, i, x);
    KeptFits(x.log, EntryRows(plan, policy, world, i));
    EntryRowsUndone(plan, policy, world, i, x.log);
    DecidedStamps(log, x.log.rows, bare, health, Stop);
    DecidedStamps(log, x.log.rows, bare, health, Fallback);
    NewRowsRuled(world, ds, i, x.log.rows, bare, if Serves(o) then bare else Stamped(bare, health, Stop), Stop);
    if !Serves(o) {
      StampsPend(world, ds, i, x, bare, Decided(log, |x.log.rows|, health, Fallback), DecidedRow(log, |x.log.rows|));
    }
    assert DialsAmong(plan, world, i + 1) == ds + [i];
  }

  lemma StampsPend(world: World, ds: seq<nat>, i: nat, x: Progress, bare: seq<Row>, log: Log, row: int)
    requires Pending(world, ds, x) && !Serves(ResultOf(world, i)) && Undone(bare, |ds| + 1, false)
    requires log.rows == x.log.rows + Stamped(bare, if Blames(ResultOf(world, i)) then Marked else Neutral, Fallback)
    requires row == if bare == [] then -1 else |log.rows| - 1
    ensures forall y: Progress :: y.log == log && y.terminalRow == row ==> Pending(world, ds + [i], y)
  {
    forall y: Progress | y.log == log && y.terminalRow == row ensures Pending(world, ds + [i], y) {
      StampedPends(world, ds, i, x.log.rows, bare, x, y);
    }
  }

  lemma SkipDecides(world: World, ds: seq<nat>, id: string, i: nat, x: Progress)
    requires Pending(world, ds, x)
    ensures Pending(world, ds, SkipEntry(id, i, x))
  {
    SkipKeepsRules(world, ds, x.log.rows, id, Fallback);
  }

  /** When the plan runs out, the last attempt's decision is corrected. */
  lemma ExhaustedDecides(world: World, ds: seq<nat>, x: Progress)
    requires Pending(world, ds, x) && (x.lastError.Some? <==> ds != [])
    ensures AllRuled(world, ds, Exhausted(x).log.rows, Stop)
  {
    var (rows, after) := (x.log.rows, Exhausted(x).log.rows);
    forall k | 0 <= k < |after| ensures Ruled(world, ds, after, k, Stop) {
      assert Ruled(world, ds, rows, k, Fallback);
      assert forall m :: 0 <= m < |rows| ==> after[m].attempt == rows[m].attempt;
      assert LastOfAttempt(after, k) <==> LastOfAttempt(rows, k);
      if rows[k].phase != Skip && rows[k].attempt == |ds| && LastOfAttempt(rows, k) && x.terminalRow >= 0 {
        OneLast(rows, k, x.terminalRow);
      }
    }
  }

  lemma OneLast(rows: seq<Row>, k: nat, m: nat)
    requires k < |rows| && m < |rows| && rows[k].attempt == rows[m].attempt
    requires LastOfAttempt(rows, k) && LastOfAttempt(rows, m)
    ensures k == m
  {
  }

  /** One step keeps the decisions pending, or settles them. */
  ghost predicate Decides(plan: RoutePlan, world: World, i: nat, m: Move) {
    match m
    case Go(y) => Pending(world, DialsAmong(plan, world, i + 1), y)
    case Halt(v) => AllRuled(world, DialsAmong(plan, world, i + 1), v.log.rows, Stop)
  }

  lemma StepDecides(plan: RoutePlan, policy: AttemptPolicy, world: World, i: nat, x: Progress)
    requires FailoverRuns.ValidWorld(world) && i < |plan.attempts|
    requires Stands(plan, world, i, x) && Pending(world, DialsAmong(plan, world, i), x)
    ensures Decides(plan, world, i, StepOn(plan, policy, world, i, x))
  {
    if Dialable(plan, world, i) {
      assert ResultOf(world, i).Valid();
      DialDecides(plan, policy, world, i, x);
    } else {
      var (ds, y) := (DialsAmong(plan, world, i), SkipEntry(plan.attempts[i], i, x));
      assert DialsAmong(plan, world, i + 1) == ds;
      SkipDecides(world, ds, plan.attempts[i], i, x);
      ExhaustedDecides(world, ds, y);
    }
  }

  lemma TakeDecidingStep(plan: RoutePlan, policy: AttemptPolicy, world: World, i: nat, x: Progress, v: Verdict)
      returns (m: Move)
    requires FailoverRuns.ValidWorld(world) && i < |plan.attempts| && v == ExecFrom(plan, policy, world, i, x)
    requires Stands(plan, world, i, x) && GoesOn(plan, policy, world, i)
    requires Pending(world, DialsAmong(plan, world, i), x)
    ensures Leads(plan, policy, world, i, m, v) && Decides(plan, world, i, m)
  {
    m := StepOn(plan, policy, world, i, x);
    StepLeads(plan, policy, world, i, x, m, v);
    StepDecides(plan, policy, world, i, x);
  }

  lemma {:induction false} WalkDecides(plan: RoutePlan, policy: AttemptPolicy, world: World, i: nat, x: Progress,
                                       n: nat, v: Verdict)
    requires FailoverRuns.ValidWorld(world) && i <= |plan.attempts| && v == ExecFrom(plan, policy, world, i, x)
    requires Stands(plan, world, i, x) && GoesOn(plan, policy, world, i) && n == Touched(plan, policy, world, i)
    requires Pending(world, DialsAmong(plan, world, i), x)
    ensures AllRuled(world, DialsAmong(plan, world, n), v.log.rows, Stop)
    decreases |plan.attempts| - i
  {
    if i == |plan.attempts| {
      ExhaustedDecides(world, DialsAmong(plan, world, i), x);
    } else {
      var m := TakeDecidingStep(plan, policy, world, i, x, v);
      if m.Go? { WalkDecides(plan, policy, world, i + 1, m.x, n, v); }
    }
  }

  /** Every decision is on the row it belongs to and on no other: the last stored row of each failed attempt says
      whether its egress was blamed, and fallback exactly when another attempt followed. */
  lemma DecisionsAreRuled(plan: RoutePlan, policy: AttemptPolicy, world: World)
    requires FailoverRuns.ValidWorld(world)
    ensures var v := ExecFrom(plan, policy, world, 0, Begin(Log([], 0)));
            var ds := DialsAmong(plan, world, Touched(plan, policy, world, 0));
            v.attempts == |ds| && AllRuled(world, ds, v.log.rows, Stop)
  {
    ExecutionExactly(plan, policy, world, Log([], 0));
    WalkDecides(plan, policy, world, 0, Begin(Log([], 0)), Touched(plan, policy, world, 0),
                ExecFrom(plan, policy, world, 0, Begin(Log([], 0))));
  }
}
