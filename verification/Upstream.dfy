/**
 One egress attempt of internal/upstream: the failure taxonomy, the retry
 matrix with its shared draw counter, and the capped evidence recorder the
 dials report to. Dial outcomes come from an oracle, indexed by the dial.
 */
module Upstream {
  import opened Basics

  // ---------------------------------------------------------------- taxonomy

  datatype Class =
    | Success
    | ConnectionError
    | ProxyAuthError
    | Timeout
    | Upstream429
    | Upstream5xx
    | ClientError
    | ResponseStarted
    | ContextCanceled
  {
    predicate MarksHealth() { this in {ConnectionError, ProxyAuthError, Timeout, Upstream5xx} }

    predicate FallbackAllowed() { this in {ConnectionError, ProxyAuthError, Timeout, Upstream429, Upstream5xx} }
  }

  function ClassifyStatus(status: int): Class {
    if status == 429 then Upstream429 else if status >= 500 then Upstream5xx else ClientError
  }

  /** Falling back without blaming the egress is the rate limit's privilege. */
  lemma OnlyRateLimitsFallBackUnmarked(c: Class)
    ensures c.FallbackAllowed() && !c.MarksHealth() <==> c == Upstream429
    ensures c.MarksHealth() ==> c.FallbackAllowed()
  {
  }

  // ---------------------------------------------------------------- evidence

  datatype Phase = Skip | Transport | Response

  datatype RetryDecision = Undecided | RetrySame | Fallback | Stop

  datatype HealthDecision = Unstated | Marked | Neutral

  datatype Row = Row(
    phase: Phase,
    egress: string,
    attempt: nat,
    dial: nat,
    status: int,
    kind: Class,
    draws: nat,
    retried: bool,
    delay: nat,
    inFlight: nat,
    health: HealthDecision,
    retry: RetryDecision)

  /** What the executor writes onto stored rows. */
  datatype Edit =
    | Identify(egress: string, attempt: nat, inFlight: nat)
    | Decide(health: HealthDecision, retry: RetryDecision)
    | Correct(retry: RetryDecision)

  function Edited(row: Row, e: Edit): Row {
    match e
    case Identify(egress, attempt, inFlight) => row.(egress := egress, attempt := attempt, inFlight := inFlight)
    case Decide(health, retry) => row.(health := health, retry := retry)
    case Correct(retry) => row.(retry := retry)
  }

  const MAX_ROWS := 16

  datatype Log = Log(rows: seq<Row>, dropped: nat)

  function AppendOn(log: Log, row: Row): Log {
    if |log.rows| >= MAX_ROWS then log.(dropped := log.dropped + 1) else log.(rows := log.rows + [row])
  }

  function AnnotateOn(log: Log, from: nat, e: Edit): Log {
    log.(rows := seq(|log.rows|,
                     k requires 0 <= k < |log.rows| => if k >= from then Edited(log.rows[k], e) else log.rows[k]))
  }

  function AnnotateAtOn(log: Log, i: int, e: Edit): Log {
    if 0 <= i < |log.rows| then log.(rows := log.rows[i := Edited(log.rows[i], e)]) else log
  }

  /** Everything that was ever appended. */
  function Appended(log: Log): nat { |log.rows| + log.dropped }

  class Recorder {
    var rows: seq<Row>
    var dropped: nat

    ghost function Contents(): Log
      reads this
    {
      Log(rows, dropped)
    }

    constructor ()
      ensures Contents() == Log([], 0)
    {
      rows, dropped := [], 0;
    }

    method Append(row: Row)
      modifies this
      ensures Contents() == AppendOn(old(Contents()), row)
    {
      if |rows| >= MAX_ROWS {
        dropped := dropped + 1;
        return;
      }
      rows := rows + [row];
    }

    method Len() returns (n: nat)
      ensures n == |Contents().rows|
    {
      n := |rows|;
    }

    method Annotate(from: int, e: Edit)
      modifies this
      ensures Contents() == AnnotateOn(old(Contents()), if from < 0 then 0 else from, e)
    {
      var start: nat := if from < 0 then 0 else from;
      if start > |rows| {
        assert Contents().rows == AnnotateOn(Contents(), start, e).rows;
        return;
      }
      ghost var before := rows;
      for i := start to |rows|
        invariant |rows| == |before| && dropped == old(dropped)
        invariant forall k :: 0 <= k < |rows| ==> rows[k] == if start <= k < i then Edited(before[k], e) else before[k]
      {
        rows := rows[i := Edited(rows[i], e)];
      }
      assert Contents().rows == AnnotateOn(old(Contents()), start, e).rows;
    }

    method AnnotateAt(i: int, e: Edit)
      modifies this
      ensures Contents() == AnnotateAtOn(old(Contents()), i, e)
    {
      if i < 0 || i >= |rows| {
        return;
      }
      rows := rows[i := Edited(rows[i], e)];
    }
  }

  // ---------------------------------------------------------------- the retry matrix

  datatype Rule = Rule(attempts: nat, delay: nat)

  /** RetryRules, delays in seconds. */
  function RuleFor(status: int): Option<Rule> {
    if status == 429 then Some(Rule(0, 0))
    else if status == 502 then Some(Rule(3, 3))
    else if status == 503 then Some(Rule(3, 2))
    else if status == 504 then Some(Rule(2, 3))
    else None
  }

  /** The classes classifyNetErrFor can answer. */
  predicate NetClass(c: Class) { c in {ConnectionError, ProxyAuthError, Timeout, ContextCanceled} }

  /** What one dial came to; gone says that the request's context had ended when a retry was considered. */
  datatype Outcome =
    | NetFailed(kind: Class, text: string, gone: bool)
    | Answered(status: int, message: string, gone: bool)
  {
    ghost predicate Valid() { NetFailed? ==> NetClass(kind) && (kind.ContextCanceled? ==> gone) }

    function Verdict(): Class {
      match this
      case NetFailed(c, _, _) => c
      case Answered(status, _, _) => if status >= 400 then ClassifyStatus(status) else Success
    }

    /** The rule this outcome fires; a refused proxy login fires none. */
    function Fires(): Option<Rule> {
      match this
      case NetFailed(c, _, _) => if c.ProxyAuthError? then None else RuleFor(502)
      case Answered(status, _, _) => RuleFor(status)
    }

    /** tryRetry: one shared counter, judged against the cap of the rule that fired. */
    predicate Again(used: nat) {
      !gone && Fires().Some? && used < Fires().value.attempts
    }

    function Delay(): nat { if Fires().Some? then Fires().value.delay else 0 }
  }

  datatype UpstreamError = UpstreamError(status: int, message: string)

  function ErrorOf(o: Outcome): Option<UpstreamError> {
    match o
    case NetFailed(_, text, _) => Some(UpstreamError(502, text))
    case Answered(status, message, _) => if status >= 400 then Some(UpstreamError(status, message)) else None
  }

  /** The class a row names: for a retried answer it is computed from the status even below 400. */
  function DialRow(o: Outcome, dial: nat, draws: nat, retried: bool): Row {
    Row(if o.NetFailed? then Transport else Response, "", 0, dial,
        if o.Answered? then o.status else 0, if o.Answered? then ClassifyStatus(o.status) else o.kind, draws, retried,
        if retried then o.Delay() else 0, 0, Unstated, if retried then RetrySame else Undecided)
  }

  datatype Attempt = Attempt(kind: Class, error: Option<UpstreamError>, dials: nat, slept: nat, log: Log)

  type Oracle = nat -> Outcome

  lemma AgainBounds(o: Outcome, used: nat)
    requires o.Again(used)
    ensures used < 3 && o.Delay() <= 3
  {
  }

  /** The first dial, from number used on, whose outcome is not retried: the draws made equal the dials retried. */
  function Standing(oracle: Oracle, used: nat): (last: nat)
    requires used <= 3
    ensures used <= last <= 3
    decreases 3 - used
  {
    if oracle(used).Again(used) then
      AgainBounds(oracle(used), used);
      Standing(oracle, used + 1)
    else used
  }

  /** The sleeps after count dials from number first on. */
  function Sleeps(oracle: Oracle, first: nat, count: nat): nat
    decreases count
  {
    if count == 0 then 0 else oracle(first).Delay() + Sleeps(oracle, first + 1, count - 1)
  }

  /** The rows of count retried dials from number first on. */
  function RetryRows(oracle: Oracle, first: nat, count: nat, log: Log): Log
    decreases count
  {
    if count == 0 then log
    else RetryRows(oracle, first + 1, count - 1, AppendOn(log, DialRow(oracle(first), first + 1, first + 1, true)))
  }

  function Settle(o: Outcome, used: nat, log: Log): Log {
    if ErrorOf(o).Some? then AppendOn(log, DialRow(o, used + 1, used, false)) else log
  }

  function AttemptOn(oracle: Oracle, log: Log): Attempt {
    var last := Standing(oracle, 0);
    Attempt(oracle(last).Verdict(), ErrorOf(oracle(last)), last + 1, Sleeps(oracle, 0, last),
            Settle(oracle(last), last, RetryRows(oracle, 0, last, log)))
  }

  /** DoClassifiedObserved: dial until the verdict stands, recording every failed dial. */
  method DoClassifiedObserved(oracle: Oracle, rec: Recorder)
      returns (kind: Class, error: Option<UpstreamError>, dials: nat, slept: nat)
    modifies rec
    ensures Attempt(kind, error, dials, slept, rec.Contents()) == AttemptOn(oracle, old(rec.Contents()))
  {
    var used := 0;
    dials, slept := 0, 0;
    ghost var last := Standing(oracle, 0);
    while true
      invariant dials == used <= last == Standing(oracle, used)
      invariant slept + Sleeps(oracle, used, last - used) == Sleeps(oracle, 0, last)
      invariant RetryRows(oracle, used, last - used, rec.Contents()) == RetryRows(oracle, 0, last, old(rec.Contents()))
      decreases 3 - used
    {
      var o := oracle(dials);
      dials := dials + 1;
      var retry, delay := TryRetry(o, used);
      if retry {
        used := used + 1;
        slept := slept + delay;
        rec.Append(DialRow(o, dials, used, true));
        continue;
      }
      kind, error := o.Verdict(), ErrorOf(o);
      if error.Some? {
        rec.Append(DialRow(o, dials, used, false));
      }
      return;
    }
  }

  /** Which rule an outcome fires, and whether a draw is left under that rule's cap: a proxy that refused the
      login is final, any other transport failure counts as a 502, an answer fires its own status. */
  method TryRetry(o: Outcome, used: nat) returns (retry: bool, delay: nat)
    ensures retry == o.Again(used) && delay == o.Delay()
  {
    retry, delay := false, 0;
    var rule := None;
    if o.NetFailed? {
      if o.kind != ProxyAuthError {
        rule := RuleFor(502);
      }
    } else {
      rule := RuleFor(o.status);
    }
    if rule.Some? {
      delay := rule.value.delay;
      retry := !o.gone && rule.value.attempts > 0 && used < rule.value.attempts;
    }
  }

  // ---------------------------------------------------------------- what an attempt comes to

  /** The verdict is that of the first dial whose outcome is not retried. */
  lemma {:induction false} StandsFirst(oracle: Oracle, used: nat)
    requires used <= 3
    ensures var last := Standing(oracle, used);
            !oracle(last).Again(last) && forall d: nat :: used <= d < last ==> oracle(d).Again(d)
    decreases 3 - used
  {
    if oracle(used).Again(used) {
      AgainBounds(oracle(used), used);
      StandsFirst(oracle, used + 1);
    }
  }

  lemma {:induction false} SleepsBounded(oracle: Oracle, first: nat, count: nat)
    requires forall d: nat :: first <= d < first + count ==> oracle(d).Again(d)
    ensures Sleeps(oracle, first, count) <= 3 * count
    decreases count
  {
    if count > 0 {
      AgainBounds(oracle(first), first);
      SleepsBounded(oracle, first + 1, count - 1);
    }
  }

  lemma {:induction false} RetriesRecorded(oracle: Oracle, first: nat, count: nat, log: Log)
    ensures Appended(RetryRows(oracle, first, count, log)) == Appended(log) + count
    decreases count
  {
    if count > 0 {
      RetriesRecorded(oracle, first + 1, count - 1, AppendOn(log, DialRow(oracle(first), first + 1, first + 1, true)));
    }
  }

  /** Every failed dial is recorded or counted as dropped; the serving dial leaves no row. */
  lemma FailedDialsAreRecorded(oracle: Oracle, log: Log)
    ensures var a := AttemptOn(oracle, log);
            Appended(a.log) == Appended(log) + a.dials - (if a.error.None? then 1 else 0)
  {
    RetriesRecorded(oracle, 0, Standing(oracle, 0), log);
  }

  /** At most four dials and nine seconds of sleep, whatever the upstream answers. */
  lemma AttemptBounds(oracle: Oracle, log: Log)
    ensures var a := AttemptOn(oracle, log); 1 <= a.dials <= 4 && a.slept <= 9
  {
    StandsFirst(oracle, 0);
    SleepsBounded(oracle, 0, Standing(oracle, 0));
  }

  /** Both bounds are reached by an upstream that keeps answering 502. */
  lemma BoundsAreReached(oracle: Oracle, log: Log)
    requires forall d: nat :: d < 4 ==> oracle(d) == Answered(502, "", false)
    ensures var a := AttemptOn(oracle, log); a.dials == 4 && a.slept == 9 && a.kind == Upstream5xx
  {
    StandsFirst(oracle, 0);
    var n := Standing(oracle, 0);
    assert !oracle(n).Again(n);
    assert n == 3;
    assert Sleeps(oracle, 3, 0) == 0 && Sleeps(oracle, 2, 1) == 3 && Sleeps(oracle, 1, 2) == 6
        && Sleeps(oracle, 0, 3) == 9;
  }

  /** All statuses draw on one counter: whatever the dials before an answer met, it is dialled past exactly when it
      is a 502 or 503 among the first three dials or a 504 among the first two. A 504 on the third dial stands, though
      no 504 may have come before, and though a 502 there would not. */
  lemma DrawsAreShared(oracle: Oracle, d: nat)
    requires d <= Standing(oracle, 0) && oracle(d).Answered? && !oracle(d).gone
    ensures d < Standing(oracle, 0) <==> (oracle(d).status in {502, 503} && d < 3) || (oracle(d).status == 504 && d < 2)
  {
    StandsFirst(oracle, 0);
    assert oracle(d).Again(d) <==> d < Standing(oracle, 0);
  }

  /** An attempt ends in success exactly when it returns no error, and that is when its last dial was answered
      below 400; a cancelled request is never dialled again. */
  lemma VerdictIsHonest(oracle: Oracle, log: Log)
    requires forall d: nat :: oracle(d).Valid()
    ensures var (a, o) := (AttemptOn(oracle, log), oracle(Standing(oracle, 0)));
            && (a.kind == Success <==> a.error.None?)
            && (a.error.None? <==> o.Answered? && o.status < 400)
            && a.kind != ResponseStarted
  {
    assert oracle(Standing(oracle, 0)).Valid();
  }

  /** A refused proxy login and a cancelled request end the attempt at that very dial. */
  lemma TerminalOutcomes(oracle: Oracle, d: nat)
    requires d <= Standing(oracle, 0) && oracle(d).Valid()
    requires oracle(d).NetFailed? && oracle(d).kind in {ProxyAuthError, ContextCanceled}
    ensures d == Standing(oracle, 0)
  {
    StandsFirst(oracle, 0);
    assert !oracle(d).Again(d);
  }
}
