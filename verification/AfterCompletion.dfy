/**
 What may still follow the completion of a stream. The translator does not look
 at its completed flag when chunks go on arriving after a finish, so events can
 follow the completion; here is exactly when, read off the chunks alone.
 */
module AfterCompletion {
  import opened Basics
  import opened JsValues
  import opened ChatToResp
  import opened StepEffects
  import opened Agreement
  import opened CallArguments
  import opened LostTexts
  import CallDeltas
  import EventLifecycle

  // ---------------------------------------------------------------- reading the input

  /** A chunk's reasoning or content sends something, or opens the reasoning item. */
  predicate Speaks(inThinking: bool, begun: bool, c: Chunk) {
    c.choice.Some?
    && (|| ReasonPart(inThinking, c) != "" || TextPart(inThinking, c) != ""
        || (Tagged(ChunkText(c)) && !begun))
  }

  /** A finish in chunk c finds an id for some slot that has not been closed. */
  ghost predicate ClosesMore(front: seq<Chunk>, c: Chunk) {
    Finishes(Thinking(front), c) && exists i: int :: LastId(Taken(front + [c]), i) != "" && Closed(front, i).None?
  }

  /** Chunk c, which comes after the finish in front, makes the translator emit something: text or reasoning, a call
      announced only now, arguments of an announced plain call, or the close of a call that got its id too late. */
  ghost predicate EmitsLate(env: Env, front: seq<Chunk>, c: Chunk) {
    || Speaks(Thinking(front), OpenedBy(front), c)
    || CallDeltas.AnySpeaks(env, Taken(front), TakenFrom(Thinking(front), c))
    || ClosesMore(front, c)
  }

  /** No chunk after the first seen finish emits anything. */
  ghost predicate QuietAfterFinish(env: Env, chunks: seq<Chunk>) {
    chunks == []
    || (var (front, last) := (chunks[..|chunks| - 1], chunks[|chunks| - 1]);
        QuietAfterFinish(env, front) && (AnyFinish(front) ==> !EmitsLate(env, front, last)))
  }

  // ---------------------------------------------------------------- when everything is closed

  /** Every message and the reasoning item, if there are any, are done. */
  ghost predicate Rest(s: St) {
    (forall i: int :: i in s.msgs.added ==> i in s.msgs.done) && (Opened(s) ==> s.reason.done)
  }

  /** Any kind of event but the completion. */
  const LATE := {Framing, Opening, ReasonPiece, ReasonEnd, TextPiece, TextEnd, CallPiece, CallEnd}

  /** A step of the completed translator: it emits something exactly if loud, and else leaves everything closed. */
  ghost predicate Steps(o: Out, r: Out, loud: bool) {
    && Grew(o.log, r.log, LATE) && r.st.completed && r.st.started
    && (r.log != o.log <==> loud) && (!loud ==> Rest(r.st))
  }

  lemma SpeechSteps(o: Out, mid: Out, r: Out, c: Chunk)
    requires c.choice.Some? && Rest(o.st) && o.st.completed && o.st.started
    requires Begun(o, mid, ReasoningText(c.choice.value.delta)) && ContentDone(mid, r, IndexOf(c), ChunkText(c))
    ensures Steps(o, r, Speaks(o.st.inThinking, Opened(o.st), c)) && r.st.calls == o.st.calls
  {
    GrewMore(o.log, mid.log, BEFORE_KINDS, LATE);
    GrewMore(mid.log, r.log, CONTENT_KINDS, LATE);
    GrewTwice(o.log, mid.log, r.log, LATE);
  }

  lemma SpokenSteps(env: Env, o: Out, c: Chunk, spoken: (Out, bool))
    requires c.choice.Some? && Rest(o.st) && o.st.completed && o.st.started && spoken == Spoken(env, o, c)
    ensures Steps(o, spoken.0, Speaks(o.st.inThinking, Opened(o.st), c)) && spoken.0.st.calls == o.st.calls
    ensures spoken.1 <==> EndsThinking(o.st.inThinking, ChunkText(c))
  {
    var mid := SpokenDoes(env, o, c);
    SpeechSteps(o, mid, spoken.0, c);
  }

  lemma CalledSteps(env: Env, o: Out, c: Chunk, fs: seq<ToolCall>)
    requires c.choice.Some? && Rest(o.st) && o.st.completed && o.st.started
    requires CallDeltas.Following(env, o, fs)
    ensures Steps(o, Called(env, o, c), CallDeltas.AnySpeaks(env, fs, ChunkFragments(c)))
    ensures CallDeltas.Following(env, Called(env, o, c), fs + ChunkFragments(c))
    ensures Called(env, o, c).st.calls.done == o.st.calls.done
  {
    if BringsCalls(c) {
      var (o1, es) := (CloseMessage(o, IndexOf(c)), c.choice.value.delta.toolCalls.value);
      CloseMessageDoes(o, IndexOf(c));
      assert o1 == o;
      CallDeltas.FragmentsSpeak(env, o, es, fs);
      EmitToolCallsDoes(env, o, es);
      GrewMore(o.log, Called(env, o, c).log, FRAGMENT_KINDS, LATE);
    } else {
      assert ChunkFragments(c) == [] && fs + [] == fs;
    }
  }

  /** A slot with an id that is not done. */
  ghost predicate AnyCallDue(o: Out, fs: seq<ToolCall>) { exists i: int :: CallArguments.Due(o, fs, i) }

  lemma AnyCallIsListed(o: Out, fs: seq<ToolCall>, idxs: seq<int>)
    requires CallsTrack(o.st.calls, fs) && idxs == SortedKeys(o.st.calls.ids.Keys)
    ensures (exists k :: 0 <= k < |idxs| && CallDue(o.st, idxs[k])) <==> AnyCallDue(o, fs)
  {
    if i: int :| CallArguments.Due(o, fs, i) {
      IdentifiedIsListed(o.st.calls, fs, i);
      var k :| 0 <= k < |idxs| && idxs[k] == i;
      assert GetS(o.st.calls.ids, i) == LastId(fs, i);
      assert CallDue(o.st, idxs[k]);
    }
    if k :| 0 <= k < |idxs| && CallDue(o.st, idxs[k]) {
      assert GetS(o.st.calls.ids, idxs[k]) == LastId(fs, idxs[k]);
      assert CallArguments.Due(o, fs, idxs[k]);
    }
  }

  /** Messages and reasoning at rest, a finish has only calls to close. */
  lemma RestIsSilent(o: Out, o2: Out)
    requires Rest(o.st) && o2 == CloseReasoning(CloseMessages(o, SortedKeys(o.st.msgs.added)))
    ensures o2.log == o.log && Rest(o2.st) && o2.st.calls == o.st.calls
    ensures o2.st.completed == o.st.completed && o2.st.started == o.st.started
  {
    CloseMessagesDoes(o, SortedKeys(o.st.msgs.added));
    MessagesStay(o, SortedKeys(o.st.msgs.added));
    CloseReasoningDoes(CloseMessages(o, SortedKeys(o.st.msgs.added)));
  }

  lemma FinishSteps(env: Env, o: Out, fs: seq<ToolCall>)
    requires Rest(o.st) && o.st.completed && o.st.started && CallsTrack(o.st.calls, fs)
    ensures Steps(o, Finish(env, o), AnyCallDue(o, fs))
  {
    var o2 := CloseReasoning(CloseMessages(o, SortedKeys(o.st.msgs.added)));
    RestIsSilent(o, o2);
    LastCloses(env, o2, fs);
    SameStep(o, o2, SendCompleted(CloseToolCalls(env, o2, SortedKeys(o2.st.calls.ids.Keys))), fs);
  }

  lemma SameStep(o: Out, o2: Out, r: Out, fs: seq<ToolCall>)
    requires o2.log == o.log && o2.st.calls == o.st.calls && Steps(o2, r, AnyCallDue(o2, fs))
    ensures Steps(o, r, AnyCallDue(o, fs))
  {
    assert forall i: int :: CallArguments.Due(o, fs, i) <==> CallArguments.Due(o2, fs, i);
  }

  lemma LastCloses(env: Env, o: Out, fs: seq<ToolCall>)
    requires Rest(o.st) && o.st.completed && o.st.started && CallsTrack(o.st.calls, fs)
    ensures Steps(o, SendCompleted(CloseToolCalls(env, o, SortedKeys(o.st.calls.ids.Keys))), AnyCallDue(o, fs))
  {
    var o1 := CloseToolCalls(env, o, SortedKeys(o.st.calls.ids.Keys));
    CloseToolCallsDoes(env, o, SortedKeys(o.st.calls.ids.Keys));
    AnyCallIsListed(o, fs, SortedKeys(o.st.calls.ids.Keys));
    GrewMore(o.log, o1.log, {CallEnd}, LATE);
    assert SendCompleted(o1) == o1;
  }

  /** Closing messages undoes none. */
  lemma {:induction false} MessagesStay(o: Out, idxs: seq<int>)
    ensures forall i: int :: i in o.st.msgs.done ==> i in CloseMessages(o, idxs).st.msgs.done
    ensures CloseMessages(o, idxs).st.msgs.added == o.st.msgs.added
    decreases |idxs|
  {
    if idxs != [] {
      CloseMessageDoes(o, idxs[0]);
      MessagesStay(CloseMessage(o, idxs[0]), idxs[1..]);
    }
  }

  // ---------------------------------------------------------------- a chunk after the finish

  /** A completed translator stays completed, and completes no second time. */
  ghost predicate GoesOn(o: Out, r: Out) { Grew(o.log, r.log, LATE) && r.st.completed && r.st.started }

  lemma GoesOnTwice(o: Out, q: Out, r: Out)
    requires GoesOn(o, q) && GoesOn(q, r)
    ensures GoesOn(o, r)
  {
    GrewTwice(o.log, q.log, r.log, LATE);
  }

  lemma SpeechGoesOn(o: Out, mid: Out, r: Out, reason: string, idx: int, content: string)
    requires o.st.completed && Begun(o, mid, reason) && ContentDone(mid, r, idx, content)
    ensures GoesOn(o, r)
  {
    GrewMore(o.log, mid.log, BEFORE_KINDS, LATE);
    GrewMore(mid.log, r.log, CONTENT_KINDS, LATE);
    GrewTwice(o.log, mid.log, r.log, LATE);
  }

  lemma CallsGoOn(env: Env, o: Out, c: Chunk)
    requires c.choice.Some? && o.st.completed && o.st.started
    ensures GoesOn(o, Called(env, o, c))
  {
    CalledDoes(env, o, c);
    GrewMore(o.log, Called(env, o, c).log, {TextEnd, Opening, CallPiece}, LATE);
  }

  lemma FinishGoesOn(env: Env, o: Out)
    requires o.st.completed && o.st.started
    ensures GoesOn(o, Finish(env, o))
  {
    var o1 := CloseMessages(o, SortedKeys(o.st.msgs.added));
    var o2 := CloseReasoning(o1);
    CloseMessagesDoes(o, SortedKeys(o.st.msgs.added));
    CloseReasoningDoes(o1);
    CloseToolCallsDoes(env, o2, SortedKeys(o2.st.calls.ids.Keys));
    GrewMore(o.log, o1.log, {TextEnd}, LATE);
    GrewMore(o1.log, o2.log, {ReasonEnd}, LATE);
    GrewTwice(o.log, o1.log, o2.log, LATE);
    GrewMore(o2.log, CloseAll(env, o).log, {CallEnd}, LATE);
    GrewTwice(o.log, o2.log, CloseAll(env, o).log, LATE);
    assert Finish(env, o) == CloseAll(env, o);
  }

  /** A chunk's tool calls and its finish. */
  function Tail(env: Env, o: Out, c: Chunk): Out
    requires c.choice.Some?
  {
    if c.choice.value.finish.Truthy() then Finish(env, Called(env, o, c)) else Called(env, o, c)
  }

  lemma TailGoesOn(env: Env, o: Out, c: Chunk)
    requires c.choice.Some? && o.st.completed && o.st.started
    ensures GoesOn(o, Tail(env, o, c))
  {
    CallsGoOn(env, o, c);
    FinishGoesOn(env, Called(env, o, c));
    if c.choice.value.finish.Truthy() { GoesOnTwice(o, Called(env, o, c), Finish(env, Called(env, o, c))); }
  }

  lemma ChunkGoesOn(env: Env, o: Out, c: Chunk)
    requires o.st.completed && o.st.started
    ensures GoesOn(o, ConvertOn(env, o, Some(c)))
  {
    if c.choice.Some? {
      var o3 := Spoken(env, o, c).0;
      var mid := SpokenDoes(env, o, c);
      SpeechGoesOn(o, mid, o3, ReasoningText(c.choice.value.delta), IndexOf(c), ChunkText(c));
      TailGoesOn(env, o3, c);
      GoesOnTwice(o, o3, Tail(env, o3, c));
      ChunkStages(env, o, c);
    }
  }

  /** One step and then another, which counts for what is emitted only if the first was silent. */
  lemma StepsTwice(o: Out, q: Out, r: Out, first: bool, second: bool)
    requires Steps(o, q, first) && GoesOn(q, r) && (!first ==> Steps(q, r, second))
    ensures Steps(o, r, first || second)
  {
    GrewTwice(o.log, q.log, r.log, LATE);
  }

  lemma TailSteps(env: Env, o: Out, c: Chunk, fs: seq<ToolCall>)
    requires c.choice.Some? && Rest(o.st) && o.st.completed && o.st.started && CallDeltas.Following(env, o, fs)
    ensures var finishes := c.choice.value.finish.Truthy() && AnyCallDue(o, fs + ChunkFragments(c));
            Steps(o, Tail(env, o, c), CallDeltas.AnySpeaks(env, fs, ChunkFragments(c)) || finishes)
  {
    var (q, loud) := (Called(env, o, c), CallDeltas.AnySpeaks(env, fs, ChunkFragments(c)));
    CalledSteps(env, o, c, fs);
    if c.choice.value.finish.Truthy() {
      FinishGoesOn(env, q);
      if !loud { FinishSteps(env, q, fs + ChunkFragments(c)); }
      SameDue(o, q, fs + ChunkFragments(c));
      StepsTwice(o, q, Finish(env, q), loud, AnyCallDue(q, fs + ChunkFragments(c)));
    }
  }

  lemma SameDue(o: Out, q: Out, fs: seq<ToolCall>)
    requires q.st.calls.done == o.st.calls.done
    ensures AnyCallDue(o, fs) <==> AnyCallDue(q, fs)
  {
    assert forall i: int :: CallArguments.Due(o, fs, i) <==> CallArguments.Due(q, fs, i);
  }

  /** Where the translator stands after some chunks, in each of the three views of it. */
  ghost predicate Standing(env: Env, o: Out, chunks: seq<Chunk>) {
    && LostTexts.Booked(o, chunks) && CallArguments.Following(env, o, chunks)
    && CallDeltas.Following(env, o, Taken(chunks))
  }

  lemma DueIsClosesMore(env: Env, o: Out, front: seq<Chunk>, c: Chunk)
    requires CallArguments.Following(env, o, front) && Finishes(Thinking(front), c)
    ensures AnyCallDue(o, Taken(front) + ChunkFragments(c)) <==> ClosesMore(front, c)
  {
    TakenSnoc(front, c);
    assert forall i: int :: i in o.st.calls.done <==> Closed(front, i).Some?;
    if i: int :| CallArguments.Due(o, Taken(front) + ChunkFragments(c), i) {
      assert LastId(Taken(front + [c]), i) != "" && Closed(front, i).None?;
    }
    if i: int :| LastId(Taken(front + [c]), i) != "" && Closed(front, i).None? {
      assert CallArguments.Due(o, Taken(front) + ChunkFragments(c), i);
    }
  }

  lemma LateChunk(env: Env, o: Out, front: seq<Chunk>, c: Chunk)
    requires Standing(env, o, front) && Rest(o.st) && o.st.completed
    ensures Steps(o, ConvertOn(env, o, Some(c)), EmitsLate(env, front, c))
  {
    if c.choice.None? {
      EmptyIsQuiet(env, front, c);
    } else {
      var spoken := Spoken(env, o, c);
      InStages(env, o, c, spoken);
      LateChoice(env, o, front, c, spoken);
    }
  }

  lemma EmptyIsQuiet(env: Env, front: seq<Chunk>, c: Chunk)
    requires c.choice.None?
    ensures !EmitsLate(env, front, c)
  {
    EmptySplit(Thinking(front));
  }

  lemma InStages(env: Env, o: Out, c: Chunk, spoken: (Out, bool))
    requires c.choice.Some? && spoken == Spoken(env, o, c)
    ensures ConvertOn(env, o, Some(c)) == if spoken.1 then spoken.0 else Tail(env, spoken.0, c)
  {
  }

  lemma LateChoice(env: Env, o: Out, front: seq<Chunk>, c: Chunk, spoken: (Out, bool))
    requires Standing(env, o, front) && Rest(o.st) && o.st.completed
    requires c.choice.Some? && spoken == Spoken(env, o, c)
    ensures Steps(o, if spoken.1 then spoken.0 else Tail(env, spoken.0, c), EmitsLate(env, front, c))
  {
    SpokenSteps(env, o, c, spoken);
    CallDeltas.BeforeCallsSpeech(env, o, c, spoken);
    CallDeltas.OthersFollow(env, o, spoken.0, CallDeltas.SPEECH, Taken(front));
    LateStages(env, o, spoken.0, spoken.1, front, c);
  }

  lemma LateStages(env: Env, o: Out, o3: Out, early: bool, front: seq<Chunk>, c: Chunk)
    requires Standing(env, o, front) && c.choice.Some?
    requires Steps(o, o3, Speaks(Thinking(front), OpenedBy(front), c))
    requires CallDeltas.Following(env, o3, Taken(front)) && o3.st.calls == o.st.calls
    requires early <==> EndsThinking(Thinking(front), ChunkText(c))
    ensures Steps(o, if early then o3 else Tail(env, o3, c), EmitsLate(env, front, c))
  {
    var (speaks, finishes) := (Speaks(Thinking(front), OpenedBy(front), c), c.choice.value.finish.Truthy());
    if !early {
      var loud := CallDeltas.AnySpeaks(env, Taken(front), ChunkFragments(c));
      var due := finishes && AnyCallDue(o3, Taken(front) + ChunkFragments(c));
      TailGoesOn(env, o3, c);
      if !speaks { TailSteps(env, o3, c, Taken(front)); }
      StepsTwice(o, o3, Tail(env, o3, c), speaks, loud || due);
      SameDue(o, o3, Taken(front) + ChunkFragments(c));
      if finishes { DueIsClosesMore(env, o, front, c); }
    }
  }

  // ---------------------------------------------------------------- the first finish

  /** The last event is the completion. */
  predicate EndsCompleted(log: seq<Event>) { log != [] && log[|log| - 1].body.Completed? }

  lemma FinishRests(env: Env, o: Out)
    ensures Rest(Finish(env, o).st)
    ensures !o.st.completed ==> EndsCompleted(Finish(env, o).log)
  {
    var o1, o2 := FinishDoes(env, o);
    forall i: int | i in o.st.msgs.added ensures i in o1.st.msgs.done {
      CloseMessagesReport(o, SortedKeys(o.st.msgs.added), i);
    }
    ClosesKeepFlag(env, o);
    if !o.st.completed { CompletionIsLast(CloseAll(env, o)); }
  }

  lemma ClosesKeepFlag(env: Env, o: Out)
    ensures CloseAll(env, o).st.completed == o.st.completed
  {
    var o1 := CloseMessages(o, SortedKeys(o.st.msgs.added));
    CloseMessagesDoes(o, SortedKeys(o.st.msgs.added));
    CloseReasoningDoes(o1);
    CloseToolCallsDoes(env, CloseReasoning(o1), SortedKeys(CloseReasoning(o1).st.calls.ids.Keys));
  }

  lemma CompletionIsLast(o: Out)
    requires !o.st.completed
    ensures EndsCompleted(SendCompleted(o).log)
  {
  }

  lemma FirstFinish(env: Env, o: Out, front: seq<Chunk>, c: Chunk)
    requires Standing(env, o, front) && !o.st.completed && Finishes(Thinking(front), c)
    ensures EndsCompleted(ConvertOn(env, o, Some(c)).log) && Rest(ConvertOn(env, o, Some(c)).st)
  {
    var spoken := Spoken(env, o, c);
    InStages(env, o, c, spoken);
    var mid := SpokenDoes(env, o, c);
    CalledDoes(env, spoken.0, c);
    FinishRests(env, Called(env, spoken.0, c));
  }

  // ---------------------------------------------------------------- the stream

  /** After the first seen finish: the completion comes last, and all is closed, exactly while nothing was emitted. */
  ghost predicate Settled(env: Env, o: Out, chunks: seq<Chunk>) {
    && (EndsCompleted(o.log) <==> QuietAfterFinish(env, chunks))
    && (QuietAfterFinish(env, chunks) ==> Rest(o.st))
  }

  lemma QuietNext(env: Env, front: seq<Chunk>, c: Chunk)
    ensures QuietAfterFinish(env, front + [c])
       <==> QuietAfterFinish(env, front) && (AnyFinish(front) ==> !EmitsLate(env, front, c))
  {
    assert (front + [c])[..|front|] == front;
  }

  lemma {:induction false} QuietUntilFinish(env: Env, chunks: seq<Chunk>)
    requires !AnyFinish(chunks)
    ensures QuietAfterFinish(env, chunks)
  {
    if chunks != [] { QuietUntilFinish(env, chunks[..|chunks| - 1]); }
  }

  lemma NeverCompletedAgain(o: Out, r: Out)
    requires GoesOn(o, r)
    ensures EndsCompleted(r.log) <==> EndsCompleted(o.log) && r.log == o.log
  {
    if |r.log| > |o.log| { assert KindOf(r.log[|r.log| - 1].body) in LATE; }
  }

  lemma ChunkSettles(env: Env, o: Out, r: Out, front: seq<Chunk>, c: Chunk, more: seq<Chunk>)
    requires Standing(env, o, front) && (AnyFinish(front) ==> Settled(env, o, front))
    requires r == ConvertOn(env, o, Some(c)) && more == front + [c] && AnyFinish(more)
    ensures Settled(env, r, more)
  {
    QuietNext(env, front, c);
    TakenSnoc(front, c);
    if AnyFinish(front) {
      ChunkGoesOn(env, o, c);
      NeverCompletedAgain(o, r);
      if QuietAfterFinish(env, front) { LateChunk(env, o, front, c); }
    } else {
      QuietUntilFinish(env, front);
      FirstFinish(env, o, front, c);
    }
  }

  lemma UptoStands(env: Env, responseId: string, chunks: seq<Chunk>, k: nat)
    requires k <= |chunks|
    ensures Standing(env, Upto(env, responseId, chunks, k), chunks[..k])
  {
    RunBooks(env, responseId, chunks, k);
    RunFollows(env, responseId, chunks, k);
    CallDeltas.RunFollowsDeltas(env, responseId, chunks, k);
  }

  lemma {:induction false} RunSettles(env: Env, responseId: string, chunks: seq<Chunk>, k: nat, o: Out,
                                      heard: seq<Chunk>)
    requires k <= |chunks| && o == Upto(env, responseId, chunks, k) && heard == chunks[..k]
    ensures AnyFinish(heard) ==> Settled(env, o, heard)
    decreases k
  {
    if k > 0 && AnyFinish(heard) {
      var (q, front) := (Upto(env, responseId, chunks, k - 1), chunks[..k - 1]);
      RunSettles(env, responseId, chunks, k - 1, q, front);
      UptoStands(env, responseId, chunks, k - 1);
      UptoNext(env, responseId, chunks, k);
      ChunkSettles(env, q, o, front, chunks[k - 1], heard);
    }
  }

  lemma StreamSettles(env: Env, responseId: string, chunks: seq<Chunk>)
    ensures EndsCompleted(Stream(env, responseId, chunks).log) <==> QuietAfterFinish(env, chunks)
  {
    var o := Upto(env, responseId, chunks, |chunks|);
    assert chunks[..|chunks|] == chunks;
    UptoStands(env, responseId, chunks, |chunks|);
    RunSettles(env, responseId, chunks, |chunks|, o, chunks);
    if !o.st.completed {
      QuietUntilFinish(env, chunks);
      FinishRests(env, o);
    }
  }

  lemma {:induction false} CompletionOccurs(log: seq<Event>)
    ensures (exists p :: 0 <= p < |log| && log[p].body.Completed?)
       <==> EventLifecycle.Occurs(log, EventLifecycle.Complete) > 0
  {
    if log != [] {
      var front := log[..|log| - 1];
      CompletionOccurs(front);
      assert forall p :: 0 <= p < |front| ==> front[p] == log[p];
      if p :| 0 <= p < |log| && log[p].body.Completed? && p < |front| { assert front[p].body.Completed?; }
    }
  }

  lemma OneCompletion(log: seq<Event>)
    requires EventLifecycle.Occurs(log, EventLifecycle.Complete) == 1
    ensures (exists p :: 0 <= p < |log| - 1 && log[p].body.Completed?) <==> !EndsCompleted(log)
  {
    var front := log[..|log| - 1];
    CompletionOccurs(log);
    CompletionOccurs(front);
    assert forall p :: 0 <= p < |front| ==> front[p] == log[p];
  }

  /** Events follow the completion of a stream exactly when some chunk after the first seen finish emits anything. */
  lemma NothingFollowsExactlyWhenQuiet(env: Env, responseId: string, chunks: seq<Chunk>)
    ensures var log := Stream(env, responseId, chunks).log;
            (exists p :: 0 <= p < |log| - 1 && log[p].body.Completed?) <==> !QuietAfterFinish(env, chunks)
  {
    EventLifecycle.StreamLifecycle(env, responseId, chunks);
    OneCompletion(Stream(env, responseId, chunks).log);
    StreamSettles(env, responseId, chunks);
  }

  /** Text after the finish follows the completion. */
  lemma LateTextFollowsCompletion(env: Env, responseId: string, a: string, b: string, finish: Raw)
    requires Bare(a) && Bare(b) && finish.Truthy()
    ensures var log := Stream(env, responseId, [TextChunk(a, finish), TextChunk(b, Null)]).log;
            exists p :: 0 <= p < |log| - 1 && log[p].body.Completed?
  {
    var (c, d) := (TextChunk(a, finish), TextChunk(b, Null));
    TextChunkReads([], a, finish);
    TextChunkReads([c], b, Null);
    TakenSnoc([], c);
    assert [] + [c] == [c] && [c] + [d] == [c, d];
    QuietNext(env, [c], d);
    assert Speaks(Thinking([c]), OpenedBy([c]), d);
    NothingFollowsExactlyWhenQuiet(env, responseId, [c, d]);
  }
}
