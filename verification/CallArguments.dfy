/**
 What the streaming translator reports of tool calls, for any chunks at all:
 which slots it reports, when, and from which of the fragments it was sent.
 */
module CallArguments {
  import opened Basics
  import opened JsValues
  import opened ChatToResp
  import opened StepEffects
  import opened Agreement

  // ---------------------------------------------------------------- reading the input

  /** Whether the stream is inside a thinking span after these chunks. */
  function Thinking(chunks: seq<Chunk>): bool {
    if chunks == [] then false else ThinkingAfter(Thinking(chunks[..|chunks| - 1]), ChunkText(chunks[|chunks| - 1]))
  }

  /** The fragments of a chunk that the translator looks at: Convert returns before its tool calls when the chunk ends
      inside a thinking span. */
  function TakenFrom(inThinking: bool, c: Chunk): seq<ToolCall> {
    if EndsThinking(inThinking, ChunkText(c)) then [] else ChunkFragments(c)
  }

  function Taken(chunks: seq<Chunk>): seq<ToolCall> {
    if chunks == [] then []
    else
      var (front, last) := (chunks[..|chunks| - 1], chunks[|chunks| - 1]);
      Taken(front) + TakenFrom(Thinking(front), last)
  }

  /** The chunk finishes the response; a finish that ends inside a thinking span goes unseen, too. */
  predicate Finishes(inThinking: bool, c: Chunk) {
    c.choice.Some? && c.choice.value.finish.Truthy() && !EndsThinking(inThinking, ChunkText(c))
  }

  predicate AnyFinish(chunks: seq<Chunk>) {
    chunks != []
    && (AnyFinish(chunks[..|chunks| - 1]) || Finishes(Thinking(chunks[..|chunks| - 1]), chunks[|chunks| - 1]))
  }

  /** The fragments taken in when slot i is closed: at the first finish that finds an id for it. */
  function Closed(chunks: seq<Chunk>, i: int): Option<seq<ToolCall>> {
    if chunks == [] then None
    else
      var (front, last) := (chunks[..|chunks| - 1], chunks[|chunks| - 1]);
      if Closed(front, i).Some? then Closed(front, i)
      else if Finishes(Thinking(front), last) && LastId(Taken(chunks), i) != "" then Some(Taken(chunks))
      else None
  }

  /** Likewise for the flushed stream: the flush closes what is left, unless a finish completed the response before. */
  function Reported(chunks: seq<Chunk>, i: int): Option<seq<ToolCall>> {
    if Closed(chunks, i).Some? then Closed(chunks, i)
    else if !AnyFinish(chunks) && LastId(Taken(chunks), i) != "" then Some(Taken(chunks))
    else None
  }

  // ---------------------------------------------------------------- reading the log

  /** The reports of slot i in a log. */
  function DoneOf(log: seq<Event>, i: int): seq<CallView> {
    if log == [] then [] else DoneOf(log[..|log| - 1], i) + DoneBy(log[|log| - 1].body, i)
  }

  function DoneBy(b: Body, i: int): seq<CallView> {
    match b
    case ItemDone(raw, CallItem(_, custom, callId, name, payload)) =>
      if raw == Num(i) then [CallView(callId, custom, name, payload)] else []
    case _ => []
  }

  function Prefix(custom: bool): string { if custom then "ctc_" else "fc_" }

  /** A closing event of slot i carries the id, the name and the arguments that the fragments fs give slot i. */
  predicate SaysCall(env: Env, fs: seq<ToolCall>, b: Body) {
    match b
    case ItemDone(raw, CallItem(id, custom, callId, name, payload)) =>
      && raw.Num? && callId != "" && id == Prefix(custom) + callId
      && CallView(callId, custom, name, payload) == StreamView(env, fs, raw.n)
    case ArgsDone(id, raw, args) =>
      raw.Num? && var v := StreamView(env, fs, raw.n); !v.custom && id == "fc_" + v.callId && args == v.args
    case CustomInputDelta(id, raw, input) =>
      raw.Num? && var v := StreamView(env, fs, raw.n); v.custom && id == "ctc_" + v.callId && input == v.args
    case CustomInputDone(id, raw, input) =>
      raw.Num? && var v := StreamView(env, fs, raw.n); v.custom && id == "ctc_" + v.callId && input == v.args
    case _ => true
  }

  /** And when the response completes, exactly the slots with an id have been reported. */
  ghost predicate EventSays(env: Env, fs: seq<ToolCall>, before: seq<Event>, b: Body) {
    SaysCall(env, fs, b) && (b.Completed? ==> forall i: int :: DoneOf(before, i) != [] <==> LastId(fs, i) != "")
  }

  // ---------------------------------------------------------------- steps that report nothing

  /** Neither closes a call nor completes the response. */
  const QUIET := {Framing, Opening, ReasonPiece, ReasonEnd, TextPiece, TextEnd, CallPiece}

  ghost predicate Quiet(o: Out, r: Out) {
    Grew(o.log, r.log, QUIET) && r.st.calls.done == o.st.calls.done && r.st.completed == o.st.completed
  }

  /** Quiet, and the call tables stay. */
  ghost predicate Still(o: Out, r: Out) { Quiet(o, r) && r.st.calls == o.st.calls }

  lemma QuietTwice(o: Out, q: Out, r: Out)
    requires Quiet(o, q) && Quiet(q, r)
    ensures Quiet(o, r)
  {
    GrewTwice(o.log, q.log, r.log, QUIET);
  }

  lemma StillTwice(o: Out, q: Out, r: Out)
    requires Still(o, q) && Still(q, r)
    ensures Still(o, r)
  {
    QuietTwice(o, q, r);
  }

  lemma StillWithin(o: Out, r: Out, kinds: set<Kind>)
    requires Grew(o.log, r.log, kinds) && kinds <= QUIET
    requires r.st.calls == o.st.calls && r.st.completed == o.st.completed
    ensures Still(o, r)
  {
    GrewMore(o.log, r.log, kinds, QUIET);
  }

  lemma CallsPartQuiet(env: Env, o: Out, idx: int, calls: Option<seq<Option<ToolCall>>>, fs: seq<ToolCall>)
    requires CallsTrack(o.st.calls, fs)
    ensures var r := ConvertCalls(env, o, idx, calls);
            && CallsTrack(r.st.calls, fs + (if calls.Some? then FragmentsOf(calls.value) else []))
            && Quiet(o, r) && r.st.inThinking == o.st.inThinking
  {
    if calls.None? || calls.value == [] {
      assert fs + [] == fs;
    } else {
      var o1 := CloseMessage(o, idx);
      var r := EmitToolCalls(env, o1, calls.value);
      CloseMessageDoes(o, idx);
      StillWithin(o, o1, {TextEnd});
      CallElementsTrack(env, o1, calls.value, fs);
      EmitToolCallsDoes(env, o1, calls.value);
      GrewMore(o1.log, r.log, FRAGMENT_KINDS, QUIET);
      QuietTwice(o, o1, r);
    }
  }

  lemma {:induction false} QuietDones(a: seq<Event>, b: seq<Event>, i: int)
    requires Grew(a, b, QUIET)
    ensures DoneOf(b, i) == DoneOf(a, i)
    decreases |b|
  {
    if |b| > |a| {
      QuietDones(a, b[..|b| - 1], i);
      assert KindOf(b[|b| - 1].body) in QUIET;
    } else {
      assert a == b;
    }
  }

  // ---------------------------------------------------------------- steps that report

  /** The log grew by events that say what the fragments fs give. */
  ghost predicate Adds(env: Env, fs: seq<ToolCall>, a: seq<Event>, b: seq<Event>) {
    a <= b && forall p :: |a| <= p < |b| ==> EventSays(env, fs, b[..p], b[p].body)
  }

  lemma AddsTwice(env: Env, fs: seq<ToolCall>, a: seq<Event>, b: seq<Event>, c: seq<Event>)
    requires Adds(env, fs, a, b) && Adds(env, fs, b, c)
    ensures Adds(env, fs, a, c)
  {
    forall p | |a| <= p < |c| ensures EventSays(env, fs, c[..p], c[p].body) {
      if p < |b| { assert c[..p] == b[..p] && c[p] == b[p]; }
    }
  }

  lemma QuietAdds(env: Env, fs: seq<ToolCall>, a: seq<Event>, b: seq<Event>)
    requires Grew(a, b, QUIET)
    ensures Adds(env, fs, a, b)
  {
    forall p | |a| <= p < |b| ensures EventSays(env, fs, b[..p], b[p].body) {
      assert KindOf(b[p].body) in QUIET;
    }
  }

  lemma EmitAdds(env: Env, fs: seq<ToolCall>, o: Out, b: Body)
    requires EventSays(env, fs, o.log, b)
    ensures Adds(env, fs, o.log, Emit(o, b).log)
  {
    assert Emit(o, b).log[..|o.log|] == o.log;
  }

  lemma EmitDone(o: Out, b: Body, i: int)
    ensures DoneOf(Emit(o, b).log, i) == DoneOf(o.log, i) + DoneBy(b, i)
  {
    assert Emit(o, b).log[..|o.log|] == o.log;
  }

  /** What closing slot idx adds: its one report, and no other slot's. */
  ghost predicate Reports(env: Env, fs: seq<ToolCall>, a: seq<Event>, b: seq<Event>, idx: int) {
    && Adds(env, fs, a, b)
    && forall i: int :: DoneOf(b, i) == DoneOf(a, i) + (if i == idx then [StreamView(env, fs, i)] else [])
  }

  lemma EmitSilently(env: Env, fs: seq<ToolCall>, o: Out, b: Body)
    requires SaysCall(env, fs, b) && !b.Completed? && !b.ItemDone?
    ensures Adds(env, fs, o.log, Emit(o, b).log)
    ensures forall i: int :: DoneOf(Emit(o, b).log, i) == DoneOf(o.log, i)
  {
    EmitAdds(env, fs, o, b);
    forall i: int ensures DoneOf(Emit(o, b).log, i) == DoneOf(o.log, i) { EmitDone(o, b, i); }
  }

  lemma EmitReport(env: Env, fs: seq<ToolCall>, o: Out, idx: int, item: Item)
    requires item.CallItem? && SaysCall(env, fs, ItemDone(Num(idx), item))
    ensures Reports(env, fs, o.log, Emit(o, ItemDone(Num(idx), item)).log, idx)
  {
    var b := ItemDone(Num(idx), item);
    EmitAdds(env, fs, o, b);
    forall i: int
      ensures DoneOf(Emit(o, b).log, i) == DoneOf(o.log, i) + (if i == idx then [StreamView(env, fs, i)] else [])
    {
      EmitDone(o, b, i);
    }
  }

  lemma ReportsAfter(env: Env, fs: seq<ToolCall>, a: seq<Event>, b: seq<Event>, c: seq<Event>, idx: int)
    requires Adds(env, fs, a, b) && (forall i: int :: DoneOf(b, i) == DoneOf(a, i)) && Reports(env, fs, b, c, idx)
    ensures Reports(env, fs, a, c, idx)
  {
    AddsTwice(env, fs, a, b, c);
  }

  lemma CloseCustomReports(env: Env, fs: seq<ToolCall>, o: Out, idx: int)
    requires LastId(fs, idx) != "" && StreamView(env, fs, idx).custom
    ensures var v := StreamView(env, fs, idx);
            Reports(env, fs, o.log, CloseCustom(o, idx, v.callId, v.name, v.args).log, idx)
  {
    var v := StreamView(env, fs, idx);
    var b1 := CustomInputDelta("ctc_" + v.callId, Num(idx), v.args);
    var b2 := CustomInputDone("ctc_" + v.callId, Num(idx), v.args);
    var item := CallItem("ctc_" + v.callId, true, v.callId, v.name, v.args);
    var (o1, o2) := (Emit(o, b1), Emit(Emit(o, b1), b2));
    EmitSilently(env, fs, o, b1);
    EmitSilently(env, fs, o1, b2);
    AddsTwice(env, fs, o.log, o1.log, o2.log);
    EmitReport(env, fs, o2, idx, item);
    ReportsAfter(env, fs, o.log, o2.log, Emit(o2, ItemDone(Num(idx), item)).log, idx);
  }

  lemma CloseFunctionReports(env: Env, fs: seq<ToolCall>, o: Out, idx: int)
    requires LastId(fs, idx) != "" && !StreamView(env, fs, idx).custom
    ensures var v := StreamView(env, fs, idx);
            Reports(env, fs, o.log, CloseFunction(o, idx, v.callId, v.name, v.args).log, idx)
  {
    var v := StreamView(env, fs, idx);
    var b := ArgsDone("fc_" + v.callId, Num(idx), v.args);
    var item := CallItem("fc_" + v.callId, false, v.callId, v.name, v.args);
    EmitSilently(env, fs, o, b);
    EmitReport(env, fs, Emit(o, b), idx, item);
    ReportsAfter(env, fs, o.log, Emit(o, b).log, Emit(Emit(o, b), ItemDone(Num(idx), item)).log, idx);
  }

  lemma CloseToolCallIsReport(env: Env, o: Out, fs: seq<ToolCall>, idx: int)
    requires CallsTrack(o.st.calls, fs) && LastId(fs, idx) != "" && idx !in o.st.calls.done
    ensures var v := StreamView(env, fs, idx);
            CloseToolCall(env, o, idx).log
            == (if v.custom then CloseCustom(o, idx, v.callId, v.name, v.args)
                else CloseFunction(o, idx, v.callId, v.name, v.args)).log
  {
    var c := o.st.calls;
    assert GetS(c.ids, idx) == LastId(fs, idx);
    assert GetS(c.names, idx) == LastName(fs, idx) && GetS(c.args, idx) == JoinedArgs(fs, idx);
  }

  lemma CloseToolCallKeeps(env: Env, o: Out, idx: int)
    ensures var r := CloseToolCall(env, o, idx);
            && r.st.calls == o.st.calls.(done := r.st.calls.done)
            && r.st.calls.done == (if GetS(o.st.calls.ids, idx) != "" then o.st.calls.done + {idx} else o.st.calls.done)
            && r.st.inThinking == o.st.inThinking && r.st.completed == o.st.completed
  {
    if idx in o.st.calls.done { assert o.st.calls.done + {idx} == o.st.calls.done; }
  }

  /** Due now: the slot has an id and was not closed before. */
  predicate Due(o: Out, fs: seq<ToolCall>, i: int) { LastId(fs, i) != "" && i !in o.st.calls.done }

  lemma CloseDueReports(env: Env, o: Out, fs: seq<ToolCall>, idx: int)
    requires CallsTrack(o.st.calls, fs) && Due(o, fs, idx)
    ensures Reports(env, fs, o.log, CloseToolCall(env, o, idx).log, idx)
  {
    CloseToolCallIsReport(env, o, fs, idx);
    if StreamView(env, fs, idx).custom {
      CloseCustomReports(env, fs, o, idx);
    } else {
      CloseFunctionReports(env, fs, o, idx);
    }
  }

  lemma CloseToolCallReports(env: Env, o: Out, fs: seq<ToolCall>, idx: int)
    requires CallsTrack(o.st.calls, fs)
    ensures Adds(env, fs, o.log, CloseToolCall(env, o, idx).log)
    ensures forall i: int :: DoneOf(CloseToolCall(env, o, idx).log, i)
                          == DoneOf(o.log, i) + (if i == idx && Due(o, fs, i) then [StreamView(env, fs, i)] else [])
  {
    assert GetS(o.st.calls.ids, idx) == LastId(fs, idx);
    if Due(o, fs, idx) { CloseDueReports(env, o, fs, idx); } else { assert CloseToolCall(env, o, idx).log == o.log; }
  }

  lemma CloseToolCallTracks(env: Env, o: Out, fs: seq<ToolCall>, idx: int)
    requires CallsTrack(o.st.calls, fs)
    ensures var r := CloseToolCall(env, o, idx).st;
            CallsTrack(r.calls, fs)
            && forall i: int :: i in r.calls.done <==> i in o.st.calls.done || (i == idx && LastId(fs, i) != "")
  {
    CloseToolCallKeeps(env, o, idx);
    assert GetS(o.st.calls.ids, idx) == LastId(fs, idx);
  }

  lemma {:induction false} CloseToolCallsAdd(env: Env, o: Out, fs: seq<ToolCall>, idxs: seq<int>)
    requires CallsTrack(o.st.calls, fs)
    ensures var r := CloseToolCalls(env, o, idxs);
            && Adds(env, fs, o.log, r.log) && CallsTrack(r.st.calls, fs)
            && r.st.inThinking == o.st.inThinking && r.st.completed == o.st.completed
    decreases |idxs|
  {
    if idxs != [] {
      var o1 := CloseToolCall(env, o, idxs[0]);
      CloseToolCallReports(env, o, fs, idxs[0]);
      CloseToolCallKeeps(env, o, idxs[0]);
      CloseToolCallTracks(env, o, fs, idxs[0]);
      CloseToolCallsAdd(env, o1, fs, idxs[1..]);
      AddsTwice(env, fs, o.log, o1.log, CloseToolCalls(env, o, idxs).log);
    }
  }

  /** The report slot i gets when it is among those being closed. */
  function Report(env: Env, o: Out, fs: seq<ToolCall>, i: int, listed: bool): seq<CallView> {
    if listed && Due(o, fs, i) then [StreamView(env, fs, i)] else []
  }

  lemma CloseToolCallReport(env: Env, o: Out, fs: seq<ToolCall>, idx: int, i: int)
    requires CallsTrack(o.st.calls, fs)
    ensures var r := CloseToolCall(env, o, idx);
            && DoneOf(r.log, i) == DoneOf(o.log, i) + Report(env, o, fs, i, i == idx)
            && (i in r.st.calls.done <==> i in o.st.calls.done || (i == idx && LastId(fs, i) != ""))
  {
    CloseToolCallReports(env, o, fs, idx);
    CloseToolCallTracks(env, o, fs, idx);
  }

  /** A slot closed first has nothing left to report, one closed later has it still. */
  lemma ReportsJoin(env: Env, o: Out, q: Out, fs: seq<ToolCall>, i: int, first: bool, later: bool)
    requires i in q.st.calls.done <==> i in o.st.calls.done || (first && LastId(fs, i) != "")
    ensures Report(env, o, fs, i, first) + Report(env, q, fs, i, later) == Report(env, o, fs, i, first || later)
  {
  }

  /** One slot's report while a list of slots is closed. */
  lemma {:induction false} CloseToolCallsReport(env: Env, o: Out, fs: seq<ToolCall>, idxs: seq<int>, i: int)
    requires CallsTrack(o.st.calls, fs)
    ensures var r := CloseToolCalls(env, o, idxs);
            && DoneOf(r.log, i) == DoneOf(o.log, i) + Report(env, o, fs, i, i in idxs)
            && (i in r.st.calls.done <==> i in o.st.calls.done || (i in idxs && LastId(fs, i) != ""))
    decreases |idxs|
  {
    if idxs == [] {
      assert DoneOf(o.log, i) + [] == DoneOf(o.log, i);
    } else {
      var o1 := CloseToolCall(env, o, idxs[0]);
      CloseToolCallReport(env, o, fs, idxs[0], i);
      CloseToolCallTracks(env, o, fs, idxs[0]);
      CloseToolCallsReport(env, o1, fs, idxs[1..], i);
      InCons(idxs, i);
      ReportsJoin(env, o, o1, fs, i, i == idxs[0], i in idxs[1..]);
      Assoc(DoneOf(o.log, i), Report(env, o, fs, i, i == idxs[0]), Report(env, o1, fs, i, i in idxs[1..]));
    }
  }

  lemma InCons(idxs: seq<int>, i: int)
    requires idxs != []
    ensures i in idxs <==> i == idxs[0] || i in idxs[1..]
  {
  }

  // ---------------------------------------------------------------- a finish

  lemma ClosedStill(o: Out)
    ensures var r := CloseReasoning(CloseMessages(o, SortedKeys(o.st.msgs.added)));
            Still(o, r) && r.st.inThinking == o.st.inThinking
  {
    var o1 := CloseMessages(o, SortedKeys(o.st.msgs.added));
    CloseMessagesDoes(o, SortedKeys(o.st.msgs.added));
    CloseReasoningDoes(o1);
    StillWithin(o, o1, {TextEnd});
    StillWithin(o1, CloseReasoning(o1), {ReasonEnd});
    StillTwice(o, o1, CloseReasoning(o1));
  }

  lemma CloseAllAdds(env: Env, o: Out, fs: seq<ToolCall>)
    requires CallsTrack(o.st.calls, fs)
    ensures var r := CloseAll(env, o);
            && Adds(env, fs, o.log, r.log) && CallsTrack(r.st.calls, fs)
            && r.st.inThinking == o.st.inThinking && r.st.completed == o.st.completed
  {
    var o1 := CloseMessages(o, SortedKeys(o.st.msgs.added));
    var o2 := CloseReasoning(o1);
    ClosedStill(o);
    QuietAdds(env, fs, o.log, o2.log);
    CloseToolCallsAdd(env, o2, fs, SortedKeys(o2.st.calls.ids.Keys));
    AddsTwice(env, fs, o.log, o2.log, CloseAll(env, o).log);
  }

  /** Closing everything reports exactly the slots that are due. */
  lemma CloseAllReports(env: Env, o: Out, fs: seq<ToolCall>, i: int)
    requires CallsTrack(o.st.calls, fs)
    ensures var r := CloseAll(env, o);
            && DoneOf(r.log, i) == DoneOf(o.log, i) + (if Due(o, fs, i) then [StreamView(env, fs, i)] else [])
            && (i in r.st.calls.done <==> i in o.st.calls.done || LastId(fs, i) != "")
  {
    var o1 := CloseMessages(o, SortedKeys(o.st.msgs.added));
    var o2 := CloseReasoning(o1);
    ClosedStill(o);
    QuietDones(o.log, o2.log, i);
    CloseToolCallsReport(env, o2, fs, SortedKeys(o2.st.calls.ids.Keys), i);
    IdentifiedIsListed(o2.st.calls, fs, i);
  }

  lemma IdentifiedIsListed(c: Calls, fs: seq<ToolCall>, i: int)
    requires CallsTrack(c, fs)
    ensures LastId(fs, i) != "" ==> i in SortedKeys(c.ids.Keys)
  {
    assert GetS(c.ids, i) == LastId(fs, i);
  }

  /** The reports so far: one of each slot closed, none of any other. */
  ghost predicate Booked(env: Env, o: Out, chunks: seq<Chunk>) {
    forall i: int ::
      && (i in o.st.calls.done <==> Closed(chunks, i).Some?)
      && DoneOf(o.log, i) == (match Closed(chunks, i) case None => [] case Some(fs) => [StreamView(env, fs, i)])
  }

  /** Where the stream stands after some chunks. */
  ghost predicate Following(env: Env, o: Out, chunks: seq<Chunk>) {
    && o.st.inThinking == Thinking(chunks) && CallsTrack(o.st.calls, Taken(chunks))
    && Booked(env, o, chunks) && (o.st.completed <==> AnyFinish(chunks))
  }

  lemma {:induction false} LastIdStays(fs: seq<ToolCall>, more: seq<ToolCall>, i: int)
    requires LastId(fs, i) != ""
    ensures LastId(fs + more, i) != ""
    decreases |more|
  {
    if more == [] {
      assert fs + more == fs;
    } else {
      var n := |more| - 1;
      assert (fs + more)[..|fs + more| - 1] == fs + more[..n];
      LastIdStays(fs, more[..n], i);
    }
  }

  /** A closed slot had an id, and so still has one. */
  lemma {:induction false} ClosedHasId(chunks: seq<Chunk>, i: int)
    requires Closed(chunks, i).Some?
    ensures LastId(Closed(chunks, i).value, i) != "" && LastId(Taken(chunks), i) != ""
  {
    var (front, last) := (chunks[..|chunks| - 1], chunks[|chunks| - 1]);
    if Closed(front, i).Some? {
      ClosedHasId(front, i);
      LastIdStays(Taken(front), TakenFrom(Thinking(front), last), i);
    }
  }

  /** The completion's own promise: at that point the reported slots are those with an id. */
  lemma CompletionSays(env: Env, o: Out, fs: seq<ToolCall>)
    requires CallsTrack(o.st.calls, fs) && !o.st.completed
    requires forall i: int :: DoneOf(o.log, i) != [] <==> i in o.st.calls.done
    requires forall i: int :: i in o.st.calls.done ==> LastId(fs, i) != ""
    ensures Adds(env, fs, o.log, Finish(env, o).log)
    ensures Finish(env, o).st.completed
  {
    var o1 := CloseAll(env, o);
    CloseAllAdds(env, o, fs);
    forall i: int ensures DoneOf(o1.log, i) != [] <==> LastId(fs, i) != "" { CloseAllReports(env, o, fs, i); }
    EmitAdds(env, fs, o1.(st := o1.st.(completed := true)), Completed(o1.st.responseId));
    AddsTwice(env, fs, o.log, o1.log, Finish(env, o).log);
  }

  lemma FinishAdds(env: Env, o: Out, fs: seq<ToolCall>)
    requires CallsTrack(o.st.calls, fs)
    requires forall i: int :: DoneOf(o.log, i) != [] <==> i in o.st.calls.done
    requires forall i: int :: i in o.st.calls.done ==> LastId(fs, i) != ""
    ensures Adds(env, fs, o.log, Finish(env, o).log)
    ensures Finish(env, o).st.completed && Finish(env, o).st.inThinking == o.st.inThinking
    ensures CallsTrack(Finish(env, o).st.calls, fs)
  {
    CloseAllAdds(env, o, fs);
    if !o.st.completed { CompletionSays(env, o, fs); }
  }

  lemma FinishReports(env: Env, o: Out, fs: seq<ToolCall>, i: int)
    requires CallsTrack(o.st.calls, fs)
    ensures var r := Finish(env, o);
            && DoneOf(r.log, i) == DoneOf(o.log, i) + (if Due(o, fs, i) then [StreamView(env, fs, i)] else [])
            && (i in r.st.calls.done <==> i in o.st.calls.done || LastId(fs, i) != "")
  {
    CloseAllReports(env, o, fs, i);
    var o1 := CloseAll(env, o);
    EmitDone(o1.(st := o1.st.(completed := true)), Completed(o1.st.responseId), i);
  }

  // ---------------------------------------------------------------- a chunk

  function BeforeCalls(env: Env, o: Out, id: Raw, c: Choice): (Out, bool) {
    var raw := ChoiceIndexRaw(c);
    ConvertContent(ConvertReasoning(Start(env, o, id), raw, ReasoningText(c.delta)), raw, c.delta.content.AsStr())
  }

  lemma BeforeCallsStill(env: Env, o: Out, id: Raw, c: Choice)
    ensures var ((r, early), content) := (BeforeCalls(env, o, id, c), c.delta.content.AsStr());
            && Still(o, r) && (early <==> EndsThinking(o.st.inThinking, content))
            && r.st.inThinking == ThinkingAfter(o.st.inThinking, content)
  {
    var (raw, text, content) := (ChoiceIndexRaw(c), ReasoningText(c.delta), c.delta.content.AsStr());
    var o1 := Start(env, o, id);
    var o2 := ConvertReasoning(o1, raw, text);
    var o3 := ConvertContent(o2, raw, content).0;
    StartDoes(env, o, id);
    ConvertReasoningDoes(o1, raw, text);
    ContentDoes(o2, raw, content);
    StillWithin(o, o1, {Framing});
    StillWithin(o1, o2, {Opening, ReasonPiece});
    StillWithin(o2, o3, CONTENT_KINDS);
    StillTwice(o, o1, o2);
    StillTwice(o, o2, o3);
  }

  lemma TakenSnoc(chunks: seq<Chunk>, c: Chunk)
    ensures Taken(chunks + [c]) == Taken(chunks) + TakenFrom(Thinking(chunks), c)
    ensures Thinking(chunks + [c]) == ThinkingAfter(Thinking(chunks), ChunkText(c))
    ensures AnyFinish(chunks + [c]) <==> AnyFinish(chunks) || Finishes(Thinking(chunks), c)
  {
    assert (chunks + [c])[..|chunks|] == chunks;
  }

  lemma ClosedSnoc(chunks: seq<Chunk>, c: Chunk, i: int)
    ensures Closed(chunks + [c], i)
         == if Closed(chunks, i).Some? then Closed(chunks, i)
            else if Finishes(Thinking(chunks), c) && LastId(Taken(chunks + [c]), i) != "" then Some(Taken(chunks + [c]))
            else None
  {
    assert (chunks + [c])[..|chunks|] == chunks;
  }

  /** Quiet steps keep the books of an unfinished chunk. */
  lemma QuietBooks(env: Env, o: Out, r: Out, chunks: seq<Chunk>, c: Chunk)
    requires Booked(env, o, chunks) && Quiet(o, r) && !Finishes(Thinking(chunks), c)
    ensures Booked(env, r, chunks + [c])
  {
    forall i: int
      ensures i in r.st.calls.done <==> Closed(chunks + [c], i).Some?
      ensures DoneOf(r.log, i)
           == match Closed(chunks + [c], i) case None => [] case Some(fs) => [StreamView(env, fs, i)]
    {
      QuietDones(o.log, r.log, i);
      ClosedSnoc(chunks, c, i);
      assert i in o.st.calls.done <==> Closed(chunks, i).Some?;
    }
  }

  /** A finish books every slot that has an id by then. */
  lemma FinishBooks(env: Env, o: Out, q: Out, chunks: seq<Chunk>, c: Chunk)
    requires Booked(env, o, chunks) && Quiet(o, q) && Finishes(Thinking(chunks), c)
    requires CallsTrack(q.st.calls, Taken(chunks + [c]))
    ensures Booked(env, Finish(env, q), chunks + [c])
    ensures Adds(env, Taken(chunks + [c]), q.log, Finish(env, q).log)
  {
    var (fs, r, more) := (Taken(chunks + [c]), Finish(env, q), chunks + [c]);
    forall i: int
      ensures i in r.st.calls.done <==> Closed(more, i).Some?
      ensures DoneOf(r.log, i) == match Closed(more, i) case None => [] case Some(gs) => [StreamView(env, gs, i)]
      ensures DoneOf(q.log, i) != [] <==> i in q.st.calls.done
      ensures i in q.st.calls.done ==> LastId(fs, i) != ""
    {
      BookAt(env, o, q, chunks, c, i);
    }
    FinishAdds(env, q, fs);
  }

  lemma BookAt(env: Env, o: Out, q: Out, chunks: seq<Chunk>, c: Chunk, i: int)
    requires Booked(env, o, chunks) && Quiet(o, q) && Finishes(Thinking(chunks), c)
    requires CallsTrack(q.st.calls, Taken(chunks + [c]))
    ensures var (fs, r, more) := (Taken(chunks + [c]), Finish(env, q), chunks + [c]);
            && (i in r.st.calls.done <==> Closed(more, i).Some?)
            && DoneOf(r.log, i) == (match Closed(more, i) case None => [] case Some(gs) => [StreamView(env, gs, i)])
            && (DoneOf(q.log, i) != [] <==> i in q.st.calls.done)
            && (i in q.st.calls.done ==> LastId(fs, i) != "")
  {
    QuietDones(o.log, q.log, i);
    ClosedSnoc(chunks, c, i);
    assert i in o.st.calls.done <==> Closed(chunks, i).Some?;
    FinishReports(env, q, Taken(chunks + [c]), i);
    if Closed(chunks + [c], i).Some? { ClosedHasId(chunks + [c], i); }
  }

  /** One chunk: the books are kept, and every event it emits says what the fragments taken in by then give. */
  ghost predicate Advances(env: Env, o: Out, r: Out, more: seq<Chunk>) {
    Following(env, r, more) && Adds(env, Taken(more), o.log, r.log)
  }

  lemma UnfinishedAdvances(env: Env, o: Out, r: Out, chunks: seq<Chunk>, c: Chunk)
    requires Following(env, o, chunks) && Quiet(o, r) && !Finishes(Thinking(chunks), c)
    requires CallsTrack(r.st.calls, Taken(chunks + [c]))
    requires r.st.inThinking == ThinkingAfter(Thinking(chunks), ChunkText(c))
    ensures Advances(env, o, r, chunks + [c])
  {
    TakenSnoc(chunks, c);
    QuietBooks(env, o, r, chunks, c);
    QuietAdds(env, Taken(chunks + [c]), o.log, r.log);
  }

  lemma FinishedAdvances(env: Env, o: Out, q: Out, chunks: seq<Chunk>, c: Chunk)
    requires Following(env, o, chunks) && Quiet(o, q) && Finishes(Thinking(chunks), c)
    requires CallsTrack(q.st.calls, Taken(chunks + [c]))
    requires q.st.inThinking == ThinkingAfter(Thinking(chunks), ChunkText(c))
    ensures Advances(env, o, Finish(env, q), chunks + [c])
  {
    var fs := Taken(chunks + [c]);
    TakenSnoc(chunks, c);
    FinishBooks(env, o, q, chunks, c);
    CloseAllAdds(env, q, fs);
    QuietAdds(env, fs, o.log, q.log);
    AddsTwice(env, fs, o.log, q.log, Finish(env, q).log);
  }

  lemma ChoiceAdvances(env: Env, o: Out, chunks: seq<Chunk>, c: Chunk)
    requires Following(env, o, chunks) && c.choice.Some?
    ensures Advances(env, o, ConvertChoice(env, o, c.id, c.choice.value), chunks + [c])
  {
    var ch := c.choice.value;
    var idx := JsIndex(ChoiceIndexRaw(ch));
    TakenSnoc(chunks, c);
    BeforeCallsStill(env, o, c.id, ch);
    var (o2, early) := BeforeCalls(env, o, c.id, ch);
    if early {
      assert Taken(chunks) + [] == Taken(chunks);
      UnfinishedAdvances(env, o, o2, chunks, c);
    } else {
      var o3 := ConvertCalls(env, o2, idx, ch.delta.toolCalls);
      CallsPartQuiet(env, o2, idx, ch.delta.toolCalls, Taken(chunks));
      QuietTwice(o, o2, o3);
      if ch.finish.Truthy() {
        FinishedAdvances(env, o, o3, chunks, c);
      } else {
        UnfinishedAdvances(env, o, o3, chunks, c);
      }
    }
  }

  lemma ChunkAdvances(env: Env, o: Out, chunks: seq<Chunk>, c: Chunk)
    requires Following(env, o, chunks)
    ensures Advances(env, o, ConvertOn(env, o, Some(c)), chunks + [c])
  {
    if c.choice.Some? {
      ChoiceAdvances(env, o, chunks, c);
    } else {
      TakenSnoc(chunks, c);
      EmptySplit(Thinking(chunks));
      assert Taken(chunks) + [] == Taken(chunks);
      UnfinishedAdvances(env, o, o, chunks, c);
    }
  }

  // ---------------------------------------------------------------- the stream

  function Begin(responseId: string): Out { Out(Fresh(responseId), 0, []) }

  /** The stream after its first k chunks, or flushed when k is past the last. */
  function Upto(env: Env, responseId: string, chunks: seq<Chunk>, k: nat): Out {
    if k <= |chunks| then Run(env, Begin(responseId), chunks[..k]) else Stream(env, responseId, chunks)
  }

  lemma {:induction false} RunSnoc(env: Env, o: Out, chunks: seq<Chunk>, c: Chunk)
    ensures Run(env, o, chunks + [c]) == ConvertOn(env, Run(env, o, chunks), Some(c))
    decreases |chunks|
  {
    if chunks == [] {
      assert chunks + [c] == [c] && [c][1..] == [];
    } else {
      assert (chunks + [c])[1..] == chunks[1..] + [c];
      RunSnoc(env, ConvertOn(env, o, Some(chunks[0])), chunks[1..], c);
    }
  }

  lemma UptoNext(env: Env, responseId: string, chunks: seq<Chunk>, k: nat)
    requires 0 < k <= |chunks|
    ensures chunks[..k] == chunks[..k - 1] + [chunks[k - 1]]
    ensures Upto(env, responseId, chunks, k)
         == ConvertOn(env, Upto(env, responseId, chunks, k - 1), Some(chunks[k - 1]))
  {
    assert chunks[..k] == chunks[..k - 1] + [chunks[k - 1]];
    RunSnoc(env, Begin(responseId), chunks[..k - 1], chunks[k - 1]);
  }

  lemma BeginFollows(env: Env, responseId: string)
    ensures Following(env, Begin(responseId), [])
  {
  }

  lemma {:induction false} RunFollows(env: Env, responseId: string, chunks: seq<Chunk>, k: nat)
    requires k <= |chunks|
    ensures Following(env, Upto(env, responseId, chunks, k), chunks[..k])
    ensures k > 0 ==> Adds(env, Taken(chunks[..k]), Upto(env, responseId, chunks, k - 1).log,
                           Upto(env, responseId, chunks, k).log)
    decreases k
  {
    if k == 0 {
      assert chunks[..0] == [];
      BeginFollows(env, responseId);
    } else {
      RunFollows(env, responseId, chunks, k - 1);
      UptoNext(env, responseId, chunks, k);
      ChunkAdvances(env, Upto(env, responseId, chunks, k - 1), chunks[..k - 1], chunks[k - 1]);
    }
  }

  /** What the flush adds, and what is reported in the end. */
  lemma FlushAdvances(env: Env, o: Out, chunks: seq<Chunk>)
    requires Following(env, o, chunks)
    ensures Adds(env, Taken(chunks), o.log, Flush(env, o).log)
    ensures forall i: int :: DoneOf(Flush(env, o).log, i)
              == match Reported(chunks, i) case None => [] case Some(fs) => [StreamView(env, fs, i)]
  {
    var fs := Taken(chunks);
    if !o.st.completed {
      forall i: int
        ensures DoneOf(Finish(env, o).log, i)
            == match Reported(chunks, i) case None => [] case Some(gs) => [StreamView(env, gs, i)]
        ensures DoneOf(o.log, i) != [] <==> i in o.st.calls.done
        ensures i in o.st.calls.done ==> LastId(fs, i) != ""
      {
        assert i in o.st.calls.done <==> Closed(chunks, i).Some?;
        FinishReports(env, o, fs, i);
        if Closed(chunks, i).Some? { ClosedHasId(chunks, i); }
      }
      FinishAdds(env, o, fs);
    }
  }

  /** Exactly which calls a flushed stream reports, for any chunks: each slot that had an id at some finish, or at the
      flush of an unfinished stream, is reported once, with the last id, the last name and the joined arguments of the
      fragments taken in by then; no other slot is ever reported. */
  lemma ReportedExactly(env: Env, responseId: string, chunks: seq<Chunk>, i: int)
    ensures DoneOf(Stream(env, responseId, chunks).log, i)
         == match Reported(chunks, i) case None => [] case Some(fs) => [StreamView(env, fs, i)]
  {
    assert chunks[..|chunks|] == chunks;
    RunFollows(env, responseId, chunks, |chunks|);
    FlushAdvances(env, Upto(env, responseId, chunks, |chunks|), chunks);
  }

  lemma StepAdds(env: Env, responseId: string, chunks: seq<Chunk>, k: nat)
    requires k <= |chunks|
    ensures Adds(env, Taken(chunks[..if k < |chunks| then k + 1 else k]),
                 Upto(env, responseId, chunks, k).log, Upto(env, responseId, chunks, k + 1).log)
  {
    if k < |chunks| {
      RunFollows(env, responseId, chunks, k + 1);
    } else {
      assert chunks[..k] == chunks;
      RunFollows(env, responseId, chunks, k);
      FlushAdvances(env, Upto(env, responseId, chunks, k), chunks);
    }
  }

  lemma {:induction false} UptoGrows(env: Env, responseId: string, chunks: seq<Chunk>, k: nat)
    requires k <= |chunks| + 1
    ensures Upto(env, responseId, chunks, k).log <= Stream(env, responseId, chunks).log
    decreases |chunks| + 1 - k
  {
    if k <= |chunks| {
      StepAdds(env, responseId, chunks, k);
      UptoGrows(env, responseId, chunks, k + 1);
    }
  }

  /** How many events the first k steps emit. */
  function EmittedBy(env: Env, responseId: string, chunks: seq<Chunk>, k: nat): nat {
    |Upto(env, responseId, chunks, k).log|
  }

  /** How many chunks were converted, from the k-th on, before event p of the stream was emitted. */
  function Converted(env: Env, responseId: string, chunks: seq<Chunk>, p: nat, k: nat): (n: nat)
    requires k <= |chunks|
    ensures k <= n <= |chunks|
    decreases |chunks| - k
  {
    if k == |chunks| || p < EmittedBy(env, responseId, chunks, k + 1) then k
    else Converted(env, responseId, chunks, p, k + 1)
  }

  lemma {:induction false} ConvertedMeans(env: Env, responseId: string, chunks: seq<Chunk>, p: nat, k: nat)
    requires k <= |chunks|
    requires EmittedBy(env, responseId, chunks, k) <= p < EmittedBy(env, responseId, chunks, |chunks| + 1)
    ensures var n := Converted(env, responseId, chunks, p, k);
            EmittedBy(env, responseId, chunks, n) <= p < EmittedBy(env, responseId, chunks, n + 1)
    decreases |chunks| - k
  {
    if k < |chunks| && p >= EmittedBy(env, responseId, chunks, k + 1) {
      ConvertedMeans(env, responseId, chunks, p, k + 1);
    }
  }

  /** For any chunks and any event of the flushed stream, emitted after n whole chunks: if it closes a tool call of
      slot i, by its item, its arguments or its custom input, it carries the last id, last name and joined arguments
      of slot i among the fragments taken in up to and including chunk n ("{}" for none, unwrapped if the tool is
      custom); and if it completes the response, the slots reported before it are exactly those with an id by then. */
  lemma DoneCallsAreJoined(env: Env, responseId: string, chunks: seq<Chunk>, p: nat)
    requires p < |Stream(env, responseId, chunks).log|
    ensures var (log, n) := (Stream(env, responseId, chunks).log, Converted(env, responseId, chunks, p, 0));
            EventSays(env, Taken(chunks[..if n < |chunks| then n + 1 else n]), log[..p], log[p].body)
  {
    var (log, n) := (Stream(env, responseId, chunks).log, Converted(env, responseId, chunks, p, 0));
    assert chunks[..0] == [];
    assert Upto(env, responseId, chunks, 0).log == [];
    ConvertedMeans(env, responseId, chunks, p, 0);
    StepAdds(env, responseId, chunks, n);
    UptoGrows(env, responseId, chunks, n + 1);
    var after := Upto(env, responseId, chunks, n + 1).log;
    assert log[..p] == after[..p] && log[p] == after[p];
  }
}
