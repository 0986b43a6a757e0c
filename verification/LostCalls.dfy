/**
 When the streaming translator tells its client everything about tool calls that
 it was sent, and how it can fail to: fragments inside a thinking span, after
 the close of their slot, or of a slot without id never reach a report.
 */
module LostCalls {
  import opened Basics
  import opened JsValues
  import opened ChatToResp
  import opened StepEffects
  import opened Agreement
  import opened CallArguments

  /** A slot with an id or with arguments is a call the client should hear of. */
  predicate Owed(fs: seq<ToolCall>, i: int) { LastId(fs, i) != "" || JoinedArgs(fs, i) != "" }

  /** Every call sent is reported once, with the last id, last name and joined arguments of all its fragments. */
  ghost predicate NothingLost(env: Env, log: seq<Event>, all: seq<ToolCall>) {
    forall i: int :: DoneOf(log, i) == if Owed(all, i) then [StreamView(env, all, i)] else []
  }

  /** The fragments in all but not in fs change neither the id, nor the name, nor what is made of the arguments. */
  predicate Unchanged(env: Env, fs: seq<ToolCall>, all: seq<ToolCall>, i: int) {
    && LastId(fs, i) == LastId(all, i)
    && LastName(fs, i) == LastName(all, i)
    && var (args, full) := (Braced(JoinedArgs(fs, i)), Braced(JoinedArgs(all, i)));
       if IsCustom(env, LastName(all, i)) then StreamInput(env, args) == StreamInput(env, full) else args == full
  }

  /** Read off the chunks alone: every slot owed a report has an id in time for one, and the fragments that come too
      late for it, or inside a thinking span, change nothing of it. */
  ghost predicate Heard(env: Env, chunks: seq<Chunk>) {
    forall i: int :: Owed(Fragments(chunks), i) ==>
      Reported(chunks, i).Some? && Unchanged(env, Reported(chunks, i).value, Fragments(chunks), i)
  }

  // ---------------------------------------------------------------- joining fragments

  lemma {:induction false} LastIdJoin(a: seq<ToolCall>, b: seq<ToolCall>, i: int)
    ensures LastId(a + b, i) == if LastId(b, i) != "" then LastId(b, i) else LastId(a, i)
    decreases |b|
  {
    if b == [] {
      assert a + b == a;
    } else {
      assert (a + b)[..|a + b| - 1] == a + b[..|b| - 1];
      LastIdJoin(a, b[..|b| - 1], i);
    }
  }

  lemma {:induction false} LastNameJoin(a: seq<ToolCall>, b: seq<ToolCall>, i: int)
    ensures LastName(a + b, i) == if LastName(b, i) != "" then LastName(b, i) else LastName(a, i)
    decreases |b|
  {
    if b == [] {
      assert a + b == a;
    } else {
      assert (a + b)[..|a + b| - 1] == a + b[..|b| - 1];
      LastNameJoin(a, b[..|b| - 1], i);
    }
  }

  lemma {:induction false} JoinedArgsJoin(a: seq<ToolCall>, b: seq<ToolCall>, i: int)
    ensures JoinedArgs(a + b, i) == JoinedArgs(a, i) + JoinedArgs(b, i)
    decreases |b|
  {
    if b == [] {
      assert a + b == a;
      assert JoinedArgs(a, i) + "" == JoinedArgs(a, i);
    } else {
      var f := b[|b| - 1];
      assert (a + b)[..|a + b| - 1] == a + b[..|b| - 1];
      JoinedArgsJoin(a, b[..|b| - 1], i);
      Assoc(JoinedArgs(a, i), JoinedArgs(b[..|b| - 1], i),
            if CallSlot(f) == i && f.args.Truthy() then f.args.JsString() else "");
    }
  }

  lemma {:induction false} FragmentsSnoc(chunks: seq<Chunk>, c: Chunk)
    ensures Fragments(chunks + [c]) == Fragments(chunks) + ChunkFragments(c)
    decreases |chunks|
  {
    if chunks == [] {
      assert [c][1..] == [] && chunks + [c] == [c];
      assert ChunkFragments(c) + [] == ChunkFragments(c);
    } else {
      assert (chunks + [c])[1..] == chunks[1..] + [c];
      FragmentsSnoc(chunks[1..], c);
      Assoc(ChunkFragments(chunks[0]), Fragments(chunks[1..]), ChunkFragments(c));
    }
  }

  lemma FragmentsLast(chunks: seq<Chunk>)
    requires chunks != []
    ensures Fragments(chunks) == Fragments(chunks[..|chunks| - 1]) + ChunkFragments(chunks[|chunks| - 1])
  {
    var (front, last) := (chunks[..|chunks| - 1], chunks[|chunks| - 1]);
    LastApart(chunks);
    FragmentsSnoc(front, last);
  }

  lemma LastApart<T>(s: seq<T>)
    requires s != []
    ensures s[..|s| - 1] + [s[|s| - 1]] == s
  {
  }

  // ---------------------------------------------------------------- exactly when nothing is lost

  lemma {:induction false} TakenIdWasSent(chunks: seq<Chunk>, i: int)
    ensures LastId(Taken(chunks), i) != "" ==> LastId(Fragments(chunks), i) != ""
  {
    if chunks != [] {
      var (front, last) := (chunks[..|chunks| - 1], chunks[|chunks| - 1]);
      TakenIdWasSent(front, i);
      FragmentsLast(chunks);
      LastIdJoin(Taken(front), TakenFrom(Thinking(front), last), i);
      LastIdJoin(Fragments(front), ChunkFragments(last), i);
    }
  }

  lemma ReportedIsOwed(chunks: seq<Chunk>, i: int)
    requires Reported(chunks, i).Some?
    ensures Owed(Fragments(chunks), i)
  {
    if Closed(chunks, i).Some? { ClosedHasId(chunks, i); }
    TakenIdWasSent(chunks, i);
  }

  lemma UnchangedExactly(env: Env, fs: seq<ToolCall>, all: seq<ToolCall>, i: int)
    ensures Unchanged(env, fs, all, i) <==> StreamView(env, fs, i) == StreamView(env, all, i)
  {
  }

  /** The stream tells its client every call it was sent, whole, exactly when every slot owed a report gets its id in
      time and the fragments that miss the report change nothing of it. */
  lemma NothingLostExactlyWhenHeard(env: Env, responseId: string, chunks: seq<Chunk>)
    ensures NothingLost(env, Stream(env, responseId, chunks).log, Fragments(chunks)) <==> Heard(env, chunks)
  {
    var (log, all) := (Stream(env, responseId, chunks).log, Fragments(chunks));
    forall i: int
      ensures DoneOf(log, i) == (if Owed(all, i) then [StreamView(env, all, i)] else [])
         <==> (Owed(all, i) ==> Reported(chunks, i).Some? && Unchanged(env, Reported(chunks, i).value, all, i))
    {
      ReportedExactly(env, responseId, chunks, i);
      if Reported(chunks, i).Some? {
        ReportedIsOwed(chunks, i);
        UnchangedExactly(env, Reported(chunks, i).value, all, i);
      }
    }
  }

  // ---------------------------------------------------------------- what gets lost

  /** The fragments that miss the report of slot i: those that end inside a thinking span, and those after its close. */
  function Missed(chunks: seq<Chunk>, i: int): seq<ToolCall> {
    if chunks == [] then []
    else
      var (front, last) := (chunks[..|chunks| - 1], chunks[|chunks| - 1]);
      Missed(front, i)
      + (if Closed(front, i).Some? || EndsThinking(Thinking(front), ChunkText(last)) then ChunkFragments(last) else [])
  }

  /** The fragments that reach it. */
  function Reaching(chunks: seq<Chunk>, i: int): seq<ToolCall> {
    if Closed(chunks, i).Some? then Closed(chunks, i).value else Taken(chunks)
  }

  lemma ReportedIsReaching(chunks: seq<Chunk>, i: int)
    requires Reported(chunks, i).Some?
    ensures Reported(chunks, i).value == Reaching(chunks, i)
  {
  }

  lemma ReachingLast(chunks: seq<Chunk>, i: int)
    requires chunks != []
    ensures var (front, last) := (chunks[..|chunks| - 1], chunks[|chunks| - 1]);
            Reaching(chunks, i)
            == Reaching(front, i) + (if Closed(front, i).Some? then [] else TakenFrom(Thinking(front), last))
  {
    var front := chunks[..|chunks| - 1];
    assert Reaching(front, i) + [] == Reaching(front, i);
  }

  /** The argument text sent is what reaches the report plus what misses it. */
  lemma {:induction false} ArgumentsAddUp(chunks: seq<Chunk>, i: int)
    ensures |JoinedArgs(Fragments(chunks), i)|
         == |JoinedArgs(Reaching(chunks, i), i)| + |JoinedArgs(Missed(chunks, i), i)|
    ensures JoinedArgs(Missed(chunks, i), i) == "" ==>
              JoinedArgs(Reaching(chunks, i), i) == JoinedArgs(Fragments(chunks), i)
  {
    if chunks != [] {
      var (front, last) := (chunks[..|chunks| - 1], chunks[|chunks| - 1]);
      ArgumentsAddUp(front, i);
      FragmentsLast(chunks);
      ReachingLast(chunks, i);
      ArgumentsOfLast(chunks, i, ChunkFragments(last));
    }
  }

  lemma ArgumentsOfLast(chunks: seq<Chunk>, i: int, more: seq<ToolCall>)
    requires chunks != [] && more == ChunkFragments(chunks[|chunks| - 1])
    ensures var (front, last) := (chunks[..|chunks| - 1], chunks[|chunks| - 1]);
            var missed := Closed(front, i).Some? || EndsThinking(Thinking(front), ChunkText(last));
            && JoinedArgs(Fragments(front) + more, i) == JoinedArgs(Fragments(front), i) + JoinedArgs(more, i)
            && JoinedArgs(Reaching(front, i) + (if missed then [] else more), i)
               == JoinedArgs(Reaching(front, i), i) + (if missed then "" else JoinedArgs(more, i))
            && JoinedArgs(Missed(front, i) + (if missed then more else []), i)
               == JoinedArgs(Missed(front, i), i) + (if missed then JoinedArgs(more, i) else "")
  {
    var front := chunks[..|chunks| - 1];
    JoinedArgsJoin(Fragments(front), more, i);
    JoinedArgsJoin(Reaching(front, i), more, i);
    JoinedArgsJoin(Missed(front, i), more, i);
    JoinedArgsJoin(Reaching(front, i), [], i);
    JoinedArgsJoin(Missed(front, i), [], i);
  }

  /** A reported call's arguments are all that was sent exactly when no fragment that missed the report had any. */
  lemma ArgumentsWholeExactly(chunks: seq<Chunk>, i: int)
    requires Reported(chunks, i).Some?
    ensures JoinedArgs(Reported(chunks, i).value, i) == JoinedArgs(Fragments(chunks), i)
       <==> JoinedArgs(Missed(chunks, i), i) == ""
  {
    ReportedIsReaching(chunks, i);
    ArgumentsAddUp(chunks, i);
  }

  lemma {:induction false} IdsKept(chunks: seq<Chunk>, i: int)
    requires LastId(Missed(chunks, i), i) == "" && LastName(Missed(chunks, i), i) == ""
    ensures LastId(Reaching(chunks, i), i) == LastId(Fragments(chunks), i)
    ensures LastName(Reaching(chunks, i), i) == LastName(Fragments(chunks), i)
  {
    if chunks != [] {
      var (front, last) := (chunks[..|chunks| - 1], chunks[|chunks| - 1]);
      var more := ChunkFragments(last);
      var missed := Closed(front, i).Some? || EndsThinking(Thinking(front), ChunkText(last));
      LastIdJoin(Missed(front, i), if missed then more else [], i);
      LastNameJoin(Missed(front, i), if missed then more else [], i);
      IdsKept(front, i);
      FragmentsLast(chunks);
      ReachingLast(chunks, i);
      LastIdJoin(Fragments(front), more, i);
      LastNameJoin(Fragments(front), more, i);
      LastIdJoin(Reaching(front, i), if missed then [] else more, i);
      LastNameJoin(Reaching(front, i), if missed then [] else more, i);
    }
  }

  /** An ordinary stream, in which every call owed a report gets one and no fragment with an id, a name or arguments
      misses the report of its slot, loses nothing. */
  lemma OrdinaryStreamsLoseNothing(env: Env, responseId: string, chunks: seq<Chunk>)
    requires forall i: int :: Owed(Fragments(chunks), i) ==>
               && Reported(chunks, i).Some? && LastId(Missed(chunks, i), i) == ""
               && LastName(Missed(chunks, i), i) == "" && JoinedArgs(Missed(chunks, i), i) == ""
    ensures NothingLost(env, Stream(env, responseId, chunks).log, Fragments(chunks))
  {
    forall i: int | Owed(Fragments(chunks), i)
      ensures Reported(chunks, i).Some? && Unchanged(env, Reported(chunks, i).value, Fragments(chunks), i)
    {
      IdsKept(chunks, i);
      ReportedIsReaching(chunks, i);
      ArgumentsWholeExactly(chunks, i);
    }
    NothingLostExactlyWhenHeard(env, responseId, chunks);
  }

  // ---------------------------------------------------------------- witnesses

  /** Without a report of any slot the stream names no call. */
  lemma {:induction false} NoReportsNoCalls(log: seq<Event>)
    requires forall i: int :: DoneOf(log, i) == []
    requires forall p :: 0 <= p < |log| ==>
               log[p].body.ItemDone? && log[p].body.item.CallItem? ==> log[p].body.outIndex.Num?
    ensures CallsIn(Dones(log)) == []
  {
    if log != [] {
      var (front, b) := (log[..|log| - 1], log[|log| - 1].body);
      forall i: int ensures DoneOf(front, i) == [] && DoneBy(b, i) == [] { assert DoneOf(log, i) == []; }
      NoReportsNoCalls(front);
      ReportShows(b);
      CallsInJoin(Dones(front), DonePart(b));
      NotACall(b);
    }
  }

  lemma ReportShows(b: Body)
    ensures b.ItemDone? && b.item.CallItem? && b.outIndex.Num? ==> exists i: int :: DoneBy(b, i) != []
  {
    if b.ItemDone? && b.item.CallItem? && b.outIndex.Num? { assert DoneBy(b, b.outIndex.n) != []; }
  }

  lemma NotACall(b: Body)
    ensures !(b.ItemDone? && b.item.CallItem?) ==> CallsIn(DonePart(b)) == []
  {
    match b
    case ItemDone(_, MessageItem(_, Some(t))) => assert [DoneText(t)][1..] == [];
    case ItemDone(_, ReasoningItem(_, Some(t))) => assert [DoneReason(t)][1..] == [];
    case _ =>
  }

  lemma {:induction false} CallsInJoin(a: seq<Done>, b: seq<Done>)
    ensures CallsIn(a + b) == CallsIn(a) + CallsIn(b)
  {
    if a == [] {
      assert a + b == b;
    } else {
      assert (a + b)[1..] == a[1..] + b;
      CallsInJoin(a[1..], b);
    }
  }

  lemma UnreportedStreamNamesNoCall(env: Env, responseId: string, chunks: seq<Chunk>)
    requires forall i: int :: Reported(chunks, i).None?
    ensures CallsIn(Streamed(env, responseId, chunks)) == []
  {
    var log := Stream(env, responseId, chunks).log;
    forall i: int ensures DoneOf(log, i) == [] { ReportedExactly(env, responseId, chunks, i); }
    forall p | 0 <= p < |log| && log[p].body.ItemDone? && log[p].body.item.CallItem? ensures log[p].body.outIndex.Num? {
      DoneCallsAreJoined(env, responseId, chunks, p);
    }
    NoReportsNoCalls(log);
  }

  function CallChunk(content: string, tc: ToolCall, finish: Raw): Chunk {
    Chunk(Null, Some(Choice(Num(0), Delta(Null, Null, None, Str(content), Some([Some(tc)])), finish)), Null)
  }

  lemma CallChunkReads(content: string, tc: ToolCall, finish: Raw)
    ensures var c := CallChunk(content, tc, finish);
            ChunkFragments(c) == [tc] && ChunkText(c) == content && Fragments([c]) == [tc]
            && [c][..0] == [] && Taken([c]) == TakenFrom(false, c)
  {
    var c := CallChunk(content, tc, finish);
    var es: seq<Option<ToolCall>> := [Some(tc)];
    assert es[1..] == [];
    assert FragmentsOf(es) == [tc] + FragmentsOf([]) == [tc];
    FragmentsSnoc([], c);
    assert [] + [c] == [c] && [] + [tc] == [tc];
    assert [] + TakenFrom(false, c) == TakenFrom(false, c);
  }

  /** One chunk that gives no slot an id leaves nothing to report. */
  lemma UnidentifiedChunk(c: Chunk, i: int)
    requires LastId(Taken([c]), i) == ""
    ensures Reported([c], i).None?
  {
    assert [] + [c] == [c];
    ClosedSnoc([], c, i);
  }

  lemma ThinkingTextEndsThinking()
    ensures EndsThinking(false, OPEN_TAG + "x")
  {
    var content := OPEN_TAG + "x";
    assert StartsWith(content, OPEN_TAG);
    assert Untagged(content) == "x";
    assert "x"[1..] == "" && Find("", CLOSE_TAG).None?;
    assert Find("x", CLOSE_TAG).None?;
  }

  /** Lost inside a thinking span: a chunk brings a call beside text of an unfinished span; the stream names no call. */
  lemma CallsInsideThinkingAreLost(env: Env, responseId: string, tc: ToolCall, finish: Raw)
    ensures var chunk := CallChunk(OPEN_TAG + "x", tc, finish);
            Fragments([chunk]) == [tc] && CallsIn(Streamed(env, responseId, [chunk])) == []
  {
    var chunk := CallChunk(OPEN_TAG + "x", tc, finish);
    CallChunkReads(OPEN_TAG + "x", tc, finish);
    ThinkingTextEndsThinking();
    assert Taken([chunk]) == [];
    forall i: int ensures Reported([chunk], i).None? { UnidentifiedChunk(chunk, i); }
    UnreportedStreamNamesNoCall(env, responseId, [chunk]);
  }

  lemma NoIdAnywhere(tc: ToolCall, i: int)
    requires tc.id.AsStr() == ""
    ensures LastId([tc], i) == "" && LastId([], i) == ""
  {
    assert [tc][..0] == [];
  }

  /** Lost without an id: the stream names no call, whatever its name and arguments. */
  lemma CallsWithoutIdAreLost(env: Env, responseId: string, tc: ToolCall, finish: Raw)
    requires tc.id.AsStr() == ""
    ensures var chunk := CallChunk("", tc, finish);
            Fragments([chunk]) == [tc] && CallsIn(Streamed(env, responseId, [chunk])) == []
  {
    var chunk := CallChunk("", tc, finish);
    CallChunkReads("", tc, finish);
    forall i: int ensures Reported([chunk], i).None? {
      NoIdAnywhere(tc, i);
      UnidentifiedChunk(chunk, i);
    }
    UnreportedStreamNamesNoCall(env, responseId, [chunk]);
  }

  const RUN := ToolCall(Num(0), Str("call_1"), Str("run"), Null)
  const LATE := ToolCall(Num(0), Null, Null, Str("[1]"))

  lemma LateReads()
    ensures LastId([RUN], 0) == "call_1" && LastName([RUN], 0) == "run" && JoinedArgs([RUN], 0) == ""
    ensures JoinedArgs([RUN, LATE], 0) == "[1]"
  {
    assert [RUN][..0] == [] && [RUN, LATE][..1] == [RUN];
    assert "" + "[1]" == "[1]" && JoinedArgs([RUN], 0) == "" + "";
  }

  lemma LateReported(a: Chunk, b: Chunk)
    requires a == CallChunk("", RUN, Str("tool_calls"))
    ensures Reported([a, b], 0) == Some([RUN])
  {
    CallChunkReads("", RUN, Str("tool_calls"));
    LateReads();
    assert [a, b][..1] == [a];
    assert Finishes(false, a) && Taken([a]) == [RUN];
    assert Closed([a], 0) == Some([RUN]);
  }

  /** Lost after the close: arguments that follow the finish stay out of the report, which reads "{}". */
  lemma LateArgumentsAreLost(env: Env, responseId: string)
    requires env.customNames == {}
    ensures var chunks := [CallChunk("", RUN, Str("tool_calls")), CallChunk("", LATE, Null)];
            && Fragments(chunks) == [RUN, LATE] && JoinedArgs([RUN, LATE], 0) == "[1]"
            && DoneOf(Stream(env, responseId, chunks).log, 0) == [CallView("call_1", false, "run", "{}")]
  {
    var (a, b) := (CallChunk("", RUN, Str("tool_calls")), CallChunk("", LATE, Null));
    CallChunkReads("", RUN, Str("tool_calls"));
    CallChunkReads("", LATE, Null);
    FragmentsSnoc([a], b);
    assert [a] + [b] == [a, b] && [RUN] + [LATE] == [RUN, LATE];
    LateReads();
    LateReported(a, b);
    ReportedExactly(env, responseId, [a, b], 0);
  }
}
