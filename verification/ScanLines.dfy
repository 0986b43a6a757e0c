/**
 ScanLines of internal/upstream/client.go: a reader goroutine cuts what it reads
 into lines and a consumer hands them on, over a bounded channel, in any
 interleaving. Runs in which no stall, cancel or callback error occurs.
 */
module ScanLines {
  import opened Basics

  type Error = string

  datatype End = Eof | Broken(error: Error)

  /** One body.Read: the bytes it returned, and how the body ended if it did. */
  datatype Read = Read(data: string, end: Option<End>)

  const NEWLINE: char := '\n'
  const CAPACITY := 64

  // ---------------------------------------------------------------- lines of a text

  /** Index of the first newline, |s| when there is none. */
  function NewlineAt(s: string): (n: nat)
    ensures n <= |s|
  {
    if s == "" || s[0] == NEWLINE then 0 else 1 + NewlineAt(s[1..])
  }

  predicate HasLine(s: string) { NewlineAt(s) < |s| }

  /** NewlineAt is the least index of a newline. */
  lemma {:induction false} NewlineAtIsFirst(s: string)
    ensures HasLine(s) ==> s[NewlineAt(s)] == NEWLINE
    ensures forall k :: 0 <= k < NewlineAt(s) ==> s[k] != NEWLINE
  {
    if s != "" && s[0] != NEWLINE { NewlineAtIsFirst(s[1..]); }
  }

  lemma HasLineMeans(s: string)
    ensures HasLine(s) <==> NEWLINE in s
    ensures !HasLine(s[..NewlineAt(s)])
  {
    NewlineAtIsFirst(s);
    var x := s[..NewlineAt(s)];
    NewlineAtIsFirst(x);
    assert forall k :: 0 <= k < |x| ==> x[k] == s[k];
  }

  /** The newline-terminated segments of s, without their newlines. */
  function Segments(s: string): seq<string>
    decreases |s|
  {
    var n := NewlineAt(s);
    if n == |s| then [] else [s[..n]] + Segments(s[n + 1..])
  }

  /** What follows the last newline. */
  function Residual(s: string): string
    decreases |s|
  {
    var n := NewlineAt(s);
    if n == |s| then s else Residual(s[n + 1..])
  }

  function Joined(lines: seq<string>): string {
    if lines == [] then "" else lines[0] + [NEWLINE] + Joined(lines[1..])
  }

  ghost predicate Unbroken(lines: seq<string>) {
    forall k :: 0 <= k < |lines| ==> !HasLine(lines[k])
  }

  lemma FirstNewline(x: string, r: string)
    requires !HasLine(x)
    ensures NewlineAt(x + [NEWLINE] + r) == |x|
  {
    var s := x + [NEWLINE] + r;
    NewlineAtIsFirst(x);
    NewlineAtIsFirst(s);
    assert s[|x|] == NEWLINE;
    assert forall k :: 0 <= k < |x| ==> s[k] == x[k];
  }

  lemma JoinedCons(x: string, lines: seq<string>, rest: string)
    ensures Joined([x] + lines) + rest == x + [NEWLINE] + (Joined(lines) + rest)
  {
    assert ([x] + lines)[1..] == lines;
  }

  lemma SplitAtNewline(s: string)
    requires HasLine(s)
    ensures var n := NewlineAt(s); s == s[..n] + [NEWLINE] + s[n + 1..]
  {
    NewlineAtIsFirst(s);
  }

  lemma {:induction false} CuttingReassembles(s: string)
    ensures Joined(Segments(s)) + Residual(s) == s
    decreases |s|
  {
    if !HasLine(s) {
      assert "" + s == s;
    } else {
      var (x, rest) := (s[..NewlineAt(s)], s[NewlineAt(s) + 1..]);
      CuttingReassembles(rest);
      SplitAtNewline(s);
      JoinedCons(x, Segments(rest), Residual(rest));
    }
  }

  lemma {:induction false} CuttingIsUnbroken(s: string)
    ensures Unbroken(Segments(s)) && !HasLine(Residual(s))
    decreases |s|
  {
    var n := NewlineAt(s);
    if n < |s| {
      CuttingIsUnbroken(s[n + 1..]);
      HasLineMeans(s);
    }
  }

  lemma {:induction false} JoinedCuts(lines: seq<string>, rest: string)
    requires Unbroken(lines) && !HasLine(rest)
    ensures Segments(Joined(lines) + rest) == lines && Residual(Joined(lines) + rest) == rest
    decreases |lines|
  {
    if lines == [] {
      assert Joined(lines) + rest == rest;
    } else {
      var tail := Joined(lines[1..]) + rest;
      JoinedCons(lines[0], lines[1..], rest);
      assert lines == [lines[0]] + lines[1..];
      FirstNewline(lines[0], tail);
      CutAt(lines[0], tail);
      assert forall k :: 0 <= k < |lines| - 1 ==> lines[1..][k] == lines[k + 1];
      JoinedCuts(lines[1..], rest);
    }
  }

  /** Segments and Residual are the only way to write s as newline-free lines, each ended by a newline, and a
      newline-free rest. */
  lemma CuttingIsUnique(s: string, lines: seq<string>, rest: string)
    ensures s == Joined(lines) + rest && Unbroken(lines) && !HasLine(rest)
       <==> lines == Segments(s) && rest == Residual(s)
  {
    CuttingReassembles(s);
    CuttingIsUnbroken(s);
    if s == Joined(lines) + rest && Unbroken(lines) && !HasLine(rest) { JoinedCuts(lines, rest); }
  }

  /** strings.TrimRight(line, "\n") */
  function TrimNewlines(s: string): string {
    if s != "" && s[|s| - 1] == NEWLINE then TrimNewlines(s[..|s| - 1]) else s
  }

  lemma TrimLine(x: string)
    requires !HasLine(x)
    ensures TrimNewlines(x + [NEWLINE]) == x
  {
    assert (x + [NEWLINE])[..|x|] == x;
    NewlineAtIsFirst(x);
  }

  // ---------------------------------------------------------------- the two goroutines

  datatype Reader = Reading | Cutting | Ending | ClosingTails | ClosingLines | Exited

  datatype Consumer = Looping | Draining | Checking | Returned(error: Option<Error>)

  datatype Sys = Sys(
    input: seq<Read>,
    pending: string,
    end: Option<End>,
    reader: Reader,
    lines: seq<string>,
    linesClosed: bool,
    tails: Option<string>,
    readErr: Option<Error>,
    consumer: Consumer,
    delivered: seq<string>,
    tail: Option<string>)

  datatype Turn = ReaderTurn | ConsumerTurn

  /** A send on a full channel and a receive from an open empty one block. */
  predicate Ready(s: Sys, turn: Turn) {
    match turn
    case ReaderTurn =>
      && !s.reader.Exited?
      && (s.reader.Reading? ==> s.input != [])
      && (s.reader.Cutting? && HasLine(s.pending) ==> |s.lines| < CAPACITY)
    case ConsumerTurn =>
      && !s.consumer.Returned?
      && (s.consumer.Looping? ==> s.lines != [] || s.linesClosed)
  }

  function ReaderStep(s: Sys): Sys
    requires Ready(s, ReaderTurn)
  {
    match s.reader
    case Reading =>
      s.(input := s.input[1..], pending := s.pending + s.input[0].data, end := s.input[0].end, reader := Cutting)
    case Cutting =>
      var n := NewlineAt(s.pending);
      if n < |s.pending| then s.(lines := s.lines + [s.pending[..n + 1]], pending := s.pending[n + 1..])
      else if s.end.None? then s.(reader := Reading)
      else s.(reader := Ending)
    case Ending =>
      if s.end == Some(Eof) then
        s.(tails := if |s.pending| > 0 then Some(s.pending) else None, reader := ClosingTails)
      else s.(readErr := if s.end.Some? && s.end.value.Broken? then Some(s.end.value.error) else None,
              reader := ClosingTails)
    case ClosingTails => s.(reader := ClosingLines)
    case ClosingLines => s.(reader := Exited, linesClosed := true)
  }

  function ConsumerStep(s: Sys): Sys
    requires Ready(s, ConsumerTurn)
  {
    match s.consumer
    case Looping =>
      if s.lines != [] then s.(lines := s.lines[1..], delivered := s.delivered + [TrimNewlines(s.lines[0])])
      else s.(consumer := Draining)
    case Draining => s.(tail := s.tails, tails := None, consumer := Checking)
    case Checking => s.(consumer := Returned(s.readErr), readErr := None)
  }

  function Step(s: Sys, turn: Turn): Sys
    requires Ready(s, turn)
  {
    match turn case ReaderTurn => ReaderStep(s) case ConsumerTurn => ConsumerStep(s)
  }

  function Start(input: seq<Read>): Sys {
    Sys(input, "", None, Reading, [], false, None, None, Looping, [], None)
  }

  predicate Runs(s: Sys, run: seq<Turn>)
    decreases |run|
  {
    run == [] || (Ready(s, run[0]) && Runs(Step(s, run[0]), run[1..]))
  }

  function Final(s: Sys, run: seq<Turn>): Sys
    requires Runs(s, run)
    decreases |run|
  {
    if run == [] then s else Final(Step(s, run[0]), run[1..])
  }

  /** A body: reads that do not end it, then one that does. */
  predicate Body(input: seq<Read>) {
    input != [] && (if |input| == 1 then input[0].end.Some? else input[0].end.None? && Body(input[1..]))
  }

  function Bytes(input: seq<Read>): string {
    if input == [] then "" else input[0].data + Bytes(input[1..])
  }

  function EndOf(input: seq<Read>): End
    requires Body(input)
  {
    if |input| == 1 then input[0].end.value else EndOf(input[1..])
  }

  // ---------------------------------------------------------------- invariant

  function Trimmed(lines: seq<string>): seq<string> {
    if lines == [] then [] else [TrimNewlines(lines[0])] + Trimmed(lines[1..])
  }

  function Promised(end: End, bytes: string): Option<string> {
    if end.Eof? && Residual(bytes) != "" then Some(Residual(bytes)) else None
  }

  function ErrorOf(end: End): Option<Error> { if end.Broken? then Some(end.error) else None }

  /** What is still to come is exactly what the reader has not yet sent. */
  ghost predicate ReaderInv(s: Sys, bytes: string, end: End) {
    match s.reader
    case Reading => s.end.None? && Body(s.input) && EndOf(s.input) == end
    case Cutting => if s.end.None? then Body(s.input) && EndOf(s.input) == end else s.input == [] && s.end == Some(end)
    case Ending => s.input == [] && s.end == Some(end) && !HasLine(s.pending)
    case _ => s.input == [] && !HasLine(s.pending)
  }

  ghost predicate TailInv(s: Sys, bytes: string, end: End) {
    if s.reader in {Reading, Cutting, Ending} then s.tails.None? && s.readErr.None? && s.tail.None?
    else if s.consumer in {Looping, Draining} then
      s.tails == Promised(end, bytes) && s.tail.None? && s.readErr == ErrorOf(end)
    else s.tail == Promised(end, bytes) && (s.consumer.Checking? ==> s.readErr == ErrorOf(end))
         && (s.consumer.Returned? ==> s.consumer.error == ErrorOf(end))
  }

  ghost predicate Inv(s: Sys, bytes: string, end: End) {
    && ReaderInv(s, bytes, end) && TailInv(s, bytes, end)
    && |s.lines| <= CAPACITY
    && s.delivered + Trimmed(s.lines) + Segments(s.pending + Bytes(s.input)) == Segments(bytes)
    && Residual(s.pending + Bytes(s.input)) == Residual(bytes)
    && (s.linesClosed <==> s.reader.Exited?)
    && (!s.consumer.Looping? ==> s.lines == [] && s.linesClosed)
  }

  lemma NothingCut(bytes: string)
    ensures [] + Trimmed([]) + Segments("" + bytes) == Segments(bytes) && "" + bytes == bytes
  {
    assert "" + bytes == bytes;
    assert Trimmed([]) == [];
    assert [] + Trimmed([]) + Segments("" + bytes) == Segments("" + bytes);
  }

  lemma StartInv(input: seq<Read>)
    requires Body(input)
    ensures Inv(Start(input), Bytes(input), EndOf(input))
  {
    NothingCut(Bytes(input));
  }

  lemma CutNext(pending: string, rest: string)
    requires NewlineAt(pending) < |pending|
    ensures var n := NewlineAt(pending);
            && Segments(pending + rest) == [pending[..n]] + Segments(pending[n + 1..] + rest)
            && Residual(pending + rest) == Residual(pending[n + 1..] + rest)
            && TrimNewlines(pending[..n + 1]) == pending[..n]
  {
    var n := NewlineAt(pending);
    var (x, y) := (pending[..n], pending[n + 1..]);
    SplitAtNewline(pending);
    HasLineMeans(pending);
    JoinAround(x, y, rest);
    FirstNewline(x, y + rest);
    CutAt(x, y + rest);
    TrimLine(x);
    assert pending[..n + 1] == x + [NEWLINE];
  }

  lemma JoinAround(x: string, y: string, rest: string)
    ensures x + [NEWLINE] + y + rest == x + [NEWLINE] + (y + rest)
  {
  }

  lemma CutAt(x: string, r: string)
    requires NewlineAt(x + [NEWLINE] + r) == |x|
    ensures Segments(x + [NEWLINE] + r) == [x] + Segments(r) && Residual(x + [NEWLINE] + r) == Residual(r)
  {
    var s := x + [NEWLINE] + r;
    assert s[..|x|] == x && s[|x| + 1..] == r;
  }

  lemma {:induction false} TrimmedAppend(lines: seq<string>, line: string)
    ensures Trimmed(lines + [line]) == Trimmed(lines) + [TrimNewlines(line)]
  {
    if lines == [] {
      assert lines + [line] == [line] && [line][1..] == [];
    } else {
      assert (lines + [line])[1..] == lines[1..] + [line];
      TrimmedAppend(lines[1..], line);
    }
  }

  lemma WholeResidual(s: string)
    requires !HasLine(s)
    ensures Residual(s) == s && Segments(s) == []
  {
  }

  lemma ReadingKeeps(s: Sys, bytes: string, end: End)
    requires Inv(s, bytes, end) && s.reader.Reading? && Ready(s, ReaderTurn)
    ensures Inv(ReaderStep(s), bytes, end)
  {
    var t := ReaderStep(s);
    assert t.pending + Bytes(t.input) == s.pending + Bytes(s.input);
  }

  /** A line moves from the reader's buffer to the channel: the lines of the whole stay what they were. */
  lemma SendMovesALine(delivered: seq<string>, lines: seq<string>, pending: string, rest: string)
    requires NewlineAt(pending) < |pending|
    ensures var n := NewlineAt(pending);
            delivered + Trimmed(lines + [pending[..n + 1]]) + Segments(pending[n + 1..] + rest)
            == delivered + Trimmed(lines) + Segments(pending + rest)
  {
    var n := NewlineAt(pending);
    CutNext(pending, rest);
    TrimmedAppend(lines, pending[..n + 1]);
    Regroup(delivered, Trimmed(lines), [pending[..n]], Segments(pending[n + 1..] + rest));
  }

  lemma Regroup(a: seq<string>, b: seq<string>, c: seq<string>, d: seq<string>)
    ensures a + (b + c) + d == a + b + (c + d)
  {
  }

  lemma CuttingKeeps(s: Sys, bytes: string, end: End)
    requires Inv(s, bytes, end) && s.reader.Cutting? && Ready(s, ReaderTurn)
    ensures Inv(ReaderStep(s), bytes, end)
  {
    if NewlineAt(s.pending) < |s.pending| {
      CutNext(s.pending, Bytes(s.input));
      SendMovesALine(s.delivered, s.lines, s.pending, Bytes(s.input));
    }
  }

  lemma EndingKeeps(s: Sys, bytes: string, end: End)
    requires Inv(s, bytes, end) && s.reader.Ending?
    ensures Inv(ReaderStep(s), bytes, end)
  {
    assert s.pending + Bytes(s.input) == s.pending;
    WholeResidual(s.pending);
  }

  lemma ClosingKeeps(s: Sys, bytes: string, end: End)
    requires Inv(s, bytes, end) && s.reader in {ClosingTails, ClosingLines}
    ensures Inv(ReaderStep(s), bytes, end)
  {
  }

  lemma ConsumerKeeps(s: Sys, bytes: string, end: End)
    requires Inv(s, bytes, end) && Ready(s, ConsumerTurn)
    ensures Inv(ConsumerStep(s), bytes, end)
  {
    if s.consumer.Looping? && s.lines != [] {
      var t := ConsumerStep(s);
      assert t.delivered + Trimmed(t.lines) == s.delivered + Trimmed(s.lines);
    }
  }

  lemma StepKeeps(s: Sys, turn: Turn, bytes: string, end: End)
    requires Inv(s, bytes, end) && Ready(s, turn)
    ensures Inv(Step(s, turn), bytes, end)
  {
    if turn.ConsumerTurn? {
      ConsumerKeeps(s, bytes, end);
    } else {
      match s.reader
      case Reading => ReadingKeeps(s, bytes, end);
      case Cutting => CuttingKeeps(s, bytes, end);
      case Ending => EndingKeeps(s, bytes, end);
      case _ => ClosingKeeps(s, bytes, end);
    }
  }

  lemma {:induction false} RunKeeps(s: Sys, run: seq<Turn>, bytes: string, end: End)
    requires Inv(s, bytes, end) && Runs(s, run)
    ensures Inv(Final(s, run), bytes, end)
    decreases |run|
  {
    if run != [] {
      StepKeeps(s, run[0], bytes, end);
      RunKeeps(Step(s, run[0]), run[1..], bytes, end);
    }
  }

  // ---------------------------------------------------------------- results

  /** Whatever the chunking and the interleaving: at every moment the lines handed on are an initial piece of the
      body's lines; when ScanLines returns they are all of them, followed on a clean end by a non-empty residual and
      on a broken end by nothing but the error. */
  lemma DeliversTheLines(input: seq<Read>, run: seq<Turn>)
    requires Body(input) && Runs(Start(input), run)
    ensures var s := Final(Start(input), run);
            && s.delivered <= Segments(Bytes(input))
            && (s.consumer.Returned? ==>
                  && s.delivered == Segments(Bytes(input))
                  && s.tail == Promised(EndOf(input), Bytes(input))
                  && s.consumer.error == ErrorOf(EndOf(input)))
  {
    StartInv(input);
    RunKeeps(Start(input), run, Bytes(input), EndOf(input));
    ReturnedHasAll(Final(Start(input), run), Bytes(input), EndOf(input));
  }

  lemma ReturnedHasAll(s: Sys, bytes: string, end: End)
    requires Inv(s, bytes, end)
    ensures s.delivered <= Segments(bytes)
    ensures s.consumer.Returned? ==> s.delivered == Segments(bytes)
  {
    var whole := s.delivered + Trimmed(s.lines) + Segments(s.pending + Bytes(s.input));
    assert whole[..|s.delivered|] == s.delivered;
    if s.consumer.Returned? {
      assert s.pending + Bytes(s.input) == s.pending;
      WholeResidual(s.pending);
      assert whole == s.delivered;
    }
  }

  /** Two runs over differently chunked reads of the same body hand on the same lines, tail and error. */
  lemma ChunkingDoesNotMatter(input: seq<Read>, run: seq<Turn>, others: seq<Read>, otherRun: seq<Turn>)
    requires Body(input) && Body(others) && Bytes(input) == Bytes(others) && EndOf(input) == EndOf(others)
    requires Runs(Start(input), run) && Runs(Start(others), otherRun)
    requires Final(Start(input), run).consumer.Returned? && Final(Start(others), otherRun).consumer.Returned?
    ensures var (s, t) := (Final(Start(input), run), Final(Start(others), otherRun));
            s.delivered == t.delivered && s.tail == t.tail && s.consumer == t.consumer
  {
    DeliversTheLines(input, run);
    DeliversTheLines(others, otherRun);
  }

  // ---------------------------------------------------------------- progress

  function Newlines(s: string): nat {
    if s == "" then 0 else Newlines(s[..|s| - 1]) + (if s[|s| - 1] == NEWLINE then 1 else 0)
  }

  lemma {:induction false} NewlinesJoin(a: string, b: string)
    ensures Newlines(a + b) == Newlines(a) + Newlines(b)
  {
    if b == "" {
      assert a + b == a;
    } else {
      assert (a + b)[..|a + b| - 1] == a + b[..|b| - 1];
      NewlinesJoin(a, b[..|b| - 1]);
    }
  }

  function ReaderRank(r: Reader): nat {
    match r
    case Reading => 4
    case Cutting => 5
    case Ending => 3
    case ClosingTails => 2
    case ClosingLines => 1
    case Exited => 0
  }

  function ConsumerRank(c: Consumer): nat {
    match c case Looping => 3 case Draining => 2 case Checking => 1 case Returned(_) => 0
  }

  /** Turns still possible, at most. */
  function Left(s: Sys): nat {
    2 * (Newlines(s.pending) + Newlines(Bytes(s.input))) + |s.lines| + 2 * |s.input| + ReaderRank(s.reader)
        + ConsumerRank(s.consumer)
  }

  lemma ReadRunsDown(s: Sys)
    requires Ready(s, ReaderTurn) && s.reader.Reading?
    ensures Left(ReaderStep(s)) < Left(s)
  {
    NewlinesJoin(s.pending, s.input[0].data);
    NewlinesJoin(s.input[0].data, Bytes(s.input[1..]));
  }

  lemma NewlineSpent(pending: string)
    requires HasLine(pending)
    ensures Newlines(pending[NewlineAt(pending) + 1..]) < Newlines(pending)
  {
    var (x, y) := (pending[..NewlineAt(pending)], pending[NewlineAt(pending) + 1..]);
    SplitAtNewline(pending);
    NewlinesJoin(x + [NEWLINE], y);
    NewlinesJoin(x, [NEWLINE]);
    assert [NEWLINE][..0] == "";
  }

  lemma SendRunsDown(s: Sys)
    requires Ready(s, ReaderTurn) && s.reader.Cutting? && HasLine(s.pending)
    ensures Left(ReaderStep(s)) < Left(s)
  {
    NewlineSpent(s.pending);
  }

  lemma TurnsRunDown(s: Sys, turn: Turn)
    requires Ready(s, turn)
    ensures Left(Step(s, turn)) < Left(s)
  {
    if turn.ReaderTurn? && s.reader.Reading? {
      ReadRunsDown(s);
    } else if turn.ReaderTurn? && s.reader.Cutting? && HasLine(s.pending) {
      SendRunsDown(s);
    }
  }

  /** Never both goroutines wait: until ScanLines returns somebody can move, and only finitely often. */
  lemma NeverStuck(s: Sys, bytes: string, end: End)
    requires Inv(s, bytes, end) && !s.consumer.Returned?
    ensures Ready(s, ReaderTurn) || Ready(s, ConsumerTurn)
  {
  }

  lemma {:induction false} RunsAreShort(s: Sys, run: seq<Turn>)
    requires Runs(s, run)
    ensures |run| + Left(Final(s, run)) <= Left(s)
    decreases |run|
  {
    if run != [] {
      TurnsRunDown(s, run[0]);
      RunsAreShort(Step(s, run[0]), run[1..]);
    }
  }

  /** Every schedule that keeps giving turns to whoever can move lets ScanLines return. */
  lemma EveryScheduleReturns(input: seq<Read>, run: seq<Turn>)
    requires Body(input) && Runs(Start(input), run)
    ensures |run| <= Left(Start(input))
    ensures var s := Final(Start(input), run);
            !Ready(s, ReaderTurn) && !Ready(s, ConsumerTurn) ==> s.consumer.Returned?
  {
    RunsAreShort(Start(input), run);
    StartInv(input);
    RunKeeps(Start(input), run, Bytes(input), EndOf(input));
    var s := Final(Start(input), run);
    if !s.consumer.Returned? { NeverStuck(s, Bytes(input), EndOf(input)); }
  }
}
