/**
 One egress attempt read off its dials alone: which of them are followed by
 another, how long it sleeps, what it comes to and which rows it leaves, each
 said with the statuses written out and without the retry matrix.
 */
module Attempts {
  import opened Basics
  import opened Upstream

  /** Outcome o of dial d, counting from 0, is followed by another dial. */
  predicate Redialled(o: Outcome, d: nat) {
    && !o.gone
    && match o
       case NetFailed(kind, _, _) => kind != ProxyAuthError && d < 3
       case Answered(status, _, _) => (status in {502, 503} && d < 3) || (status == 504 && d < 2)
  }

  /** The first dial, from number d on, that is not. */
  function LastDial(oracle: Oracle, d: nat): (n: nat)
    requires d <= 3
    ensures d <= n <= 3
    decreases 3 - d
  {
    if d < 3 && Redialled(oracle(d), d) then LastDial(oracle, d + 1) else d
  }

  /** The sleep before a further dial, in seconds. */
  function Pause(o: Outcome): nat { if o.Answered? && o.status == 503 then 2 else 3 }

  function Pauses(oracle: Oracle, n: nat): nat { if n == 0 then 0 else Pauses(oracle, n - 1) + Pause(oracle(n - 1)) }

  function StatusClass(status: int): Class {
    if status == 429 then Upstream429 else if status >= 500 then Upstream5xx else ClientError
  }

  /** What a last dial comes to. */
  function ClassOf(o: Outcome): Class {
    match o
    case NetFailed(kind, _, _) => kind
    case Answered(status, _, _) => if status < 400 then Success else StatusClass(status)
  }

  /** What the client is told of it, if it did not serve. */
  function ErrorTold(o: Outcome): Option<UpstreamError> {
    match o
    case NetFailed(_, text, _) => Some(UpstreamError(502, text))
    case Answered(status, message, _) => if status < 400 then None else Some(UpstreamError(status, message))
  }

  /** The row of dial d when n is the last. */
  function RowOf(o: Outcome, d: nat, n: nat): Row {
    var again := d < n;
    Row(if o.NetFailed? then Transport else Response, "", 0, d + 1, if o.NetFailed? then 0 else o.status,
        if o.NetFailed? then o.kind else StatusClass(o.status), if again then d + 1 else d, again,
        if again then Pause(o) else 0, 0, Unstated, if again then RetrySame else Undecided)
  }

  /** The rows of the first m dials when n is the last. */
  function RowsOf(oracle: Oracle, m: nat, n: nat): seq<Row> {
    if m == 0 then [] else RowsOf(oracle, m - 1, n) + [RowOf(oracle(m - 1), m - 1, n)]
  }

  /** The rows of an attempt: one per dial, but none for the dial that served. */
  function AttemptRows(oracle: Oracle): seq<Row> {
    var n := LastDial(oracle, 0);
    RowsOf(oracle, if ErrorTold(oracle(n)).Some? then n + 1 else n, n)
  }

  /** A log keeps the first sixteen rows of all it is given, and counts the others. */
  function Kept(log: Log, rows: seq<Row>): Log {
    var room := if |log.rows| < 16 then 16 - |log.rows| else 0;
    if |rows| <= room then Log(log.rows + rows, log.dropped)
    else Log(log.rows + rows[..room], log.dropped + |rows| - room)
  }

  // ---------------------------------------------------------------- the recorder

  lemma KeptNext(log: Log, rows: seq<Row>, r: Row)
    ensures Kept(log, rows + [r]) == AppendOn(Kept(log, rows), r)
  {
    var room := if |log.rows| < 16 then 16 - |log.rows| else 0;
    if |rows| < room {
      assert log.rows + (rows + [r]) == log.rows + rows + [r];
    } else {
      assert (rows + [r])[..room] == rows[..room];
      if |rows| == room { assert rows[..room] == rows; }
    }
  }

  /** Whatever is appended one by one, the first sixteen rows of all stay, in order, and the rest is counted. */
  lemma {:induction false} AppendsAreKept(log: Log, rows: seq<Row>)
    ensures Kept(log, rows) == Appends(log, rows)
  {
    if rows == [] {
      assert log.rows + [] == log.rows;
    } else {
      var (front, r) := (rows[..|rows| - 1], rows[|rows| - 1]);
      AppendsAreKept(log, front);
      KeptNext(log, front, r);
      assert rows == front + [r];
    }
  }

  function Appends(log: Log, rows: seq<Row>): Log {
    if rows == [] then log else AppendOn(Appends(log, rows[..|rows| - 1]), rows[|rows| - 1])
  }

  // ---------------------------------------------------------------- the attempt

  lemma RetriesExactly(o: Outcome, d: nat)
    ensures o.Again(d) <==> Redialled(o, d)
    ensures Redialled(o, d) ==> o.Delay() == Pause(o)
  {
  }

  lemma {:induction false} StandsAtLastDial(oracle: Oracle, d: nat)
    requires d <= 3
    ensures Standing(oracle, d) == LastDial(oracle, d)
    ensures forall e: nat :: d <= e < LastDial(oracle, d) ==> Redialled(oracle(e), e)
    decreases 3 - d
  {
    RetriesExactly(oracle(d), d);
    if Redialled(oracle(d), d) { StandsAtLastDial(oracle, d + 1); }
  }

  lemma {:induction false} SleepsAre(oracle: Oracle, first: nat, count: nat)
    requires forall e: nat :: first <= e < first + count ==> Redialled(oracle(e), e)
    ensures Sleeps(oracle, first, count) == Pauses(oracle, first + count) - Pauses(oracle, first)
    decreases count
  {
    if count > 0 {
      RetriesExactly(oracle(first), first);
      SleepsAre(oracle, first + 1, count - 1);
    }
  }

  lemma RetriedRowIs(oracle: Oracle, d: nat, n: nat)
    requires d < n && Redialled(oracle(d), d)
    ensures DialRow(oracle(d), d + 1, d + 1, true) == RowOf(oracle(d), d, n)
  {
    RetriesExactly(oracle(d), d);
  }

  lemma {:induction false} RetryRowsAre(oracle: Oracle, first: nat, count: nat, n: nat, log: Log)
    requires n == first + count && forall e: nat :: first <= e < n ==> Redialled(oracle(e), e)
    ensures RetryRows(oracle, first, count, Kept(log, RowsOf(oracle, first, n))) == Kept(log, RowsOf(oracle, n, n))
    decreases count
  {
    if count > 0 {
      RetriedRowIs(oracle, first, n);
      KeptNext(log, RowsOf(oracle, first, n), RowOf(oracle(first), first, n));
      RetryRowsAre(oracle, first + 1, count - 1, n, log);
    }
  }

  /** One attempt, in full: the class and the error of its last dial, one dial more than were followed by another, the
      sleeps between them, and its rows in the log as far as they fit. */
  lemma AttemptExactly(oracle: Oracle, log: Log)
    ensures var (a, n) := (AttemptOn(oracle, log), LastDial(oracle, 0));
            && a.kind == ClassOf(oracle(n)) && a.error == ErrorTold(oracle(n))
            && a.dials == n + 1 && a.slept == Pauses(oracle, n) && a.log == Kept(log, AttemptRows(oracle))
  {
    var n := LastDial(oracle, 0);
    StandsAtLastDial(oracle, 0);
    SleepsAre(oracle, 0, n);
    assert RowsOf(oracle, 0, n) == [] && log.rows + [] == log.rows;
    RetryRowsAre(oracle, 0, n, n, log);
    if ErrorTold(oracle(n)).Some? {
      KeptNext(log, RowsOf(oracle, n, n), RowOf(oracle(n), n, n));
      assert DialRow(oracle(n), n + 1, n, false) == RowOf(oracle(n), n, n);
    }
  }
}
