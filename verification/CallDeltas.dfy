/**
 The argument deltas of a tool call, for any chunks: which fragments are sent on
 as they arrive, and how their join relates to the arguments reported at the end.
 */
module CallDeltas {
  import opened Basics
  import opened JsValues
  import opened ChatToResp
  import opened StepEffects
  import opened Agreement
  import opened CallArguments

  /** The id and the name of slot i are known from these fragments. */
  predicate KnownBy(fs: seq<ToolCall>, i: int) { LastId(fs, i) != "" && LastName(fs, i) != "" }

  /** Fragment f of slot i, the last of fs, has arguments that are sent on: its call is announced by now, and plain. */
  predicate SendsOn(env: Env, fs: seq<ToolCall>, f: ToolCall) {
    KnownBy(fs, CallSlot(f)) && f.args.Truthy() && !IsCustom(env, LastName(fs, CallSlot(f)))
  }

  /** The arguments of slot i that are sent on, joined. */
  function SentOn(env: Env, fs: seq<ToolCall>, i: int): string {
    if fs == [] then ""
    else
      var f := fs[|fs| - 1];
      SentOn(env, fs[..|fs| - 1], i) + (if CallSlot(f) == i && SendsOn(env, fs, f) then f.args.JsString() else "")
  }

  /** The arguments of slot i that arrive before it is known, joined. */
  function Early(fs: seq<ToolCall>, i: int): string {
    if fs == [] then "" else if KnownBy(fs, i) then Early(fs[..|fs| - 1], i) else JoinedArgs(fs, i)
  }

  /** The deltas of slot i in a log, joined. */
  function DeltasOf(log: seq<Event>, i: int): string {
    if log == [] then "" else DeltasOf(log[..|log| - 1], i) + DeltaBy(log[|log| - 1].body, i)
  }

  function DeltaBy(b: Body, i: int): string {
    match b
    case ArgsDelta(_, raw, fragment) => if JsIndex(raw) == i then fragment.JsString() else ""
    case _ => ""
  }

  lemma {:induction false} SameDeltas(a: seq<Event>, b: seq<Event>, kinds: set<Kind>, i: int)
    requires Grew(a, b, kinds) && CallPiece !in kinds
    ensures DeltasOf(b, i) == DeltasOf(a, i)
    decreases |b|
  {
    if |b| > |a| {
      SameDeltas(a, b[..|b| - 1], kinds, i);
      assert KindOf(b[|b| - 1].body) in kinds;
      assert DeltasOf(a, i) + "" == DeltasOf(a, i);
    } else {
      assert a == b;
    }
  }

  lemma EmitDeltas(o: Out, b: Body, i: int)
    ensures DeltasOf(Emit(o, b).log, i) == DeltasOf(o.log, i) + DeltaBy(b, i)
  {
    assert Emit(o, b).log[..|o.log|] == o.log;
  }

  // ---------------------------------------------------------------- one fragment

  /** A call is announced exactly when its id and its name are known. */
  ghost predicate Announced(c: Calls, fs: seq<ToolCall>) {
    forall i: int :: i in c.added <==> KnownBy(fs, i)
  }

  /** Fragment tc after fs makes the translator emit something. */
  predicate Speaks(env: Env, fs: seq<ToolCall>, tc: ToolCall) {
    (KnownBy(fs + [tc], CallSlot(tc)) && !KnownBy(fs, CallSlot(tc))) || SendsOn(env, fs + [tc], tc)
  }

  lemma AnnounceSpeaks(env: Env, o: Out, raw: Raw)
    ensures var (c, idx, r) := (o.st.calls, JsIndex(raw), AnnounceCall(env, o, raw));
            var known := GetS(c.ids, idx) != "" && GetS(c.names, idx) != "";
            && r.st.calls == c.(added := if known then c.added + {idx} else c.added)
            && (if known && idx !in c.added then |r.log| > |o.log| else r.log == o.log)
            && Grew(o.log, r.log, {Opening})
  {
    var (c, idx) := (o.st.calls, JsIndex(raw));
    var (callId, name) := (GetS(c.ids, idx), GetS(c.names, idx));
    var custom := IsCustom(env, name);
    if idx in c.added { assert c.added + {idx} == c.added; }
    EmitGrew(o.log, WithCalls(o, c.(added := c.added + {idx})),
             ItemAdded(raw, CallItem((if custom then "ctc_" else "fc_") + callId, custom, callId, name, "")),
             {Opening});
  }

  lemma AnnounceSendsNothing(env: Env, o: Out, raw: Raw, i: int)
    ensures DeltasOf(AnnounceCall(env, o, raw).log, i) == DeltasOf(o.log, i)
  {
    AnnounceSpeaks(env, o, raw);
    SameDeltas(o.log, AnnounceCall(env, o, raw).log, {Opening}, i);
  }

  /** The arguments of a fragment go out as a delta. */
  predicate Sends(env: Env, c: Calls, idx: int, args: Raw, newId: string) {
    && args.Truthy() && idx in c.added && !IsCustom(env, GetS(c.names, idx))
    && (if GetS(c.ids, idx) == "" then newId else GetS(c.ids, idx)) != ""
  }

  lemma ArgsSpeak(env: Env, o: Out, raw: Raw, args: Raw, newId: string)
    ensures var r := EmitArgs(env, o, raw, args, newId);
            && r.st.calls.added == o.st.calls.added
            && (if Sends(env, o.st.calls, JsIndex(raw), args, newId) then |r.log| > |o.log| else r.log == o.log)
  {
  }

  lemma ArgsAreSent(env: Env, o: Out, raw: Raw, args: Raw, newId: string, i: int)
    ensures DeltasOf(EmitArgs(env, o, raw, args, newId).log, i)
         == DeltasOf(o.log, i) + (if Sends(env, o.st.calls, JsIndex(raw), args, newId) && i == JsIndex(raw)
                                  then args.JsString() else "")
  {
    var known := GetS(o.st.calls.ids, JsIndex(raw));
    EmitDeltas(o, ArgsDelta("fc_" + (if known == "" then newId else known), raw, args), i);
    assert DeltasOf(o.log, i) + "" == DeltasOf(o.log, i);
  }

  lemma SentOnNext(env: Env, fs: seq<ToolCall>, tc: ToolCall, i: int)
    ensures SentOn(env, fs + [tc], i)
         == SentOn(env, fs, i) + (if CallSlot(tc) == i && SendsOn(env, fs + [tc], tc) then tc.args.JsString() else "")
  {
    assert (fs + [tc])[..|fs|] == fs;
  }

  lemma KnownNext(fs: seq<ToolCall>, tc: ToolCall, i: int)
    ensures KnownBy(fs, i) ==> KnownBy(fs + [tc], i)
    ensures i != CallSlot(tc) ==> (KnownBy(fs + [tc], i) <==> KnownBy(fs, i))
  {
    assert (fs + [tc])[..|fs|] == fs;
  }

  /** What the tables and the log say of the fragments so far. */
  ghost predicate Following(env: Env, o: Out, fs: seq<ToolCall>) {
    && CallsTrack(o.st.calls, fs) && Announced(o.st.calls, fs)
    && forall i: int :: DeltasOf(o.log, i) == SentOn(env, fs, i)
  }

  lemma FragmentAnnounced(env: Env, o: Out, tc: ToolCall, fs: seq<ToolCall>)
    requires CallsTrack(o.st.calls, fs) && Announced(o.st.calls, fs)
    ensures var o1 := WithCalls(o, Identify(o.st.calls, tc));
            var o2 := AnnounceCall(env, o1, CallIndexRaw(tc));
            && Announced(o2.st.calls, fs + [tc])
            && GetS(o2.st.calls.ids, CallSlot(tc)) == LastId(fs + [tc], CallSlot(tc))
            && GetS(o2.st.calls.names, CallSlot(tc)) == LastName(fs + [tc], CallSlot(tc))
            && (if KnownBy(fs + [tc], CallSlot(tc)) && !KnownBy(fs, CallSlot(tc)) then |o2.log| > |o.log|
                else o2.log == o.log)
            && (forall i: int :: DeltasOf(o2.log, i) == DeltasOf(o.log, i))
  {
    var (c, idx) := (o.st.calls, CallSlot(tc));
    var o1 := WithCalls(o, Identify(c, tc));
    CallTracksAt(c, tc, fs, idx);
    AnnounceSpeaks(env, o1, CallIndexRaw(tc));
    forall i: int
      ensures i in AnnounceCall(env, o1, CallIndexRaw(tc)).st.calls.added <==> KnownBy(fs + [tc], i)
      ensures DeltasOf(AnnounceCall(env, o1, CallIndexRaw(tc)).log, i) == DeltasOf(o.log, i)
    {
      AnnounceSendsNothing(env, o1, CallIndexRaw(tc), i);
      KnownNext(fs, tc, i);
      assert i in c.added <==> KnownBy(fs, i);
    }
  }

  lemma FragmentSpeaks(env: Env, o: Out, tc: ToolCall, fs: seq<ToolCall>)
    requires Following(env, o, fs)
    ensures Following(env, EmitToolCall(env, o, tc), fs + [tc])
    ensures if Speaks(env, fs, tc) then |EmitToolCall(env, o, tc).log| > |o.log|
            else EmitToolCall(env, o, tc).log == o.log
  {
    var o2 := AnnounceCall(env, WithCalls(o, Identify(o.st.calls, tc)), CallIndexRaw(tc));
    CallTracks(env, o, tc, fs);
    FragmentAnnounced(env, o, tc, fs);
    ArgsSpeak(env, o2, CallIndexRaw(tc), tc.args, tc.id.AsStr());
    assert CallSlot(tc) in o2.st.calls.added <==> KnownBy(fs + [tc], CallSlot(tc));
    forall i: int ensures DeltasOf(EmitToolCall(env, o, tc).log, i) == SentOn(env, fs + [tc], i) {
      ArgsAreSent(env, o2, CallIndexRaw(tc), tc.args, tc.id.AsStr(), i);
      SentOnNext(env, fs, tc, i);
      assert DeltasOf(o.log, i) == SentOn(env, fs, i);
    }
  }

  /** Some fragment of gs, which come after fs, makes the translator emit something. */
  predicate AnySpeaks(env: Env, fs: seq<ToolCall>, gs: seq<ToolCall>)
    decreases |gs|
  {
    gs != [] && (Speaks(env, fs, gs[0]) || AnySpeaks(env, fs + [gs[0]], gs[1..]))
  }

  lemma {:induction false} FragmentsSpeak(env: Env, o: Out, es: seq<Option<ToolCall>>, fs: seq<ToolCall>)
    requires Following(env, o, fs)
    ensures Following(env, EmitToolCalls(env, o, es), fs + FragmentsOf(es))
    ensures if AnySpeaks(env, fs, FragmentsOf(es)) then |EmitToolCalls(env, o, es).log| > |o.log|
            else EmitToolCalls(env, o, es).log == o.log
    decreases |es|
  {
    if es == [] {
      assert fs + FragmentsOf(es) == fs;
    } else if es[0].Some? {
      var tc := es[0].value;
      var o1 := EmitToolCall(env, o, tc);
      FragmentSpeaks(env, o, tc, fs);
      FragmentsSpeak(env, o1, es[1..], fs + [tc]);
      Assoc(fs, [tc], FragmentsOf(es[1..]));
      FragmentsCons(tc, es);
      EmitToolCallsDoes(env, o1, es[1..]);
    } else {
      FragmentsSpeak(env, o, es[1..], fs);
      assert FragmentsOf(es) == FragmentsOf(es[1..]);
    }
  }

  lemma FragmentsCons(tc: ToolCall, es: seq<Option<ToolCall>>)
    requires es != [] && es[0] == Some(tc)
    ensures FragmentsOf(es) == [tc] + FragmentsOf(es[1..])
    ensures FragmentsOf(es)[0] == tc && FragmentsOf(es)[1..] == FragmentsOf(es[1..])
  {
  }

  // ---------------------------------------------------------------- one chunk

  const CLOSING := {TextEnd, ReasonEnd, CallEnd, Completion}

  lemma FinishCloses(env: Env, o: Out)
    ensures var r := Finish(env, o);
            && Grew(o.log, r.log, CLOSING)
            && r.st.calls == o.st.calls.(done := r.st.calls.done)
  {
    var o1 := CloseMessages(o, SortedKeys(o.st.msgs.added));
    var o2 := CloseReasoning(o1);
    var o3 := CloseAll(env, o);
    CloseMessagesDoes(o, SortedKeys(o.st.msgs.added));
    CloseReasoningDoes(o1);
    CloseToolCallsDoes(env, o2, SortedKeys(o2.st.calls.ids.Keys));
    GrewMore(o.log, o1.log, {TextEnd}, CLOSING);
    GrewMore(o1.log, o2.log, {ReasonEnd}, CLOSING);
    GrewMore(o2.log, o3.log, {CallEnd}, CLOSING);
    GrewTwice(o.log, o1.log, o2.log, CLOSING);
    GrewTwice(o.log, o2.log, o3.log, CLOSING);
    EmitGrew(o.log, o3.(st := o3.st.(completed := true)), Completed(o3.st.responseId), CLOSING);
  }

  lemma FinishFollows(env: Env, o: Out, fs: seq<ToolCall>)
    requires Following(env, o, fs)
    ensures Following(env, Finish(env, o), fs)
  {
    FinishCloses(env, o);
    forall i: int ensures DeltasOf(Finish(env, o).log, i) == SentOn(env, fs, i) {
      SameDeltas(o.log, Finish(env, o).log, CLOSING, i);
      assert DeltasOf(o.log, i) == SentOn(env, fs, i);
    }
  }

  lemma OthersFollow(env: Env, o: Out, r: Out, kinds: set<Kind>, fs: seq<ToolCall>)
    requires Following(env, o, fs) && r.st.calls == o.st.calls && Grew(o.log, r.log, kinds) && CallPiece !in kinds
    ensures Following(env, r, fs)
  {
    forall i: int ensures DeltasOf(r.log, i) == SentOn(env, fs, i) {
      SameDeltas(o.log, r.log, kinds, i);
      assert DeltasOf(o.log, i) == SentOn(env, fs, i);
    }
  }

  const SPEECH := {Framing, Opening, ReasonPiece, ReasonEnd, TextPiece}

  lemma BeforeCallsSpeech(env: Env, o: Out, c: Chunk, before: (Out, bool))
    requires c.choice.Some? && before == BeforeCalls(env, o, c.id, c.choice.value)
    ensures Grew(o.log, before.0.log, SPEECH) && before.0.st.calls == o.st.calls
    ensures before.0.st.completed == o.st.completed && (before.1 <==> EndsThinking(o.st.inThinking, ChunkText(c)))
  {
    var ch := c.choice.value;
    var (raw, text, content) := (ChoiceIndexRaw(ch), ReasoningText(ch.delta), ch.delta.content.AsStr());
    var o1 := Start(env, o, c.id);
    var o2 := ConvertReasoning(o1, raw, text);
    var o3 := ConvertContent(o2, raw, content).0;
    StartDoes(env, o, c.id);
    ConvertReasoningDoes(o1, raw, text);
    ContentDoes(o2, raw, content);
    GrewMore(o.log, o1.log, {Framing}, SPEECH);
    GrewMore(o1.log, o2.log, {Opening, ReasonPiece}, SPEECH);
    GrewMore(o2.log, o3.log, CONTENT_KINDS, SPEECH);
    GrewTwice(o.log, o1.log, o2.log, SPEECH);
    GrewTwice(o.log, o2.log, o3.log, SPEECH);
  }

  lemma CallsFollow(env: Env, o: Out, idx: int, calls: Option<seq<Option<ToolCall>>>, fs: seq<ToolCall>)
    requires Following(env, o, fs)
    ensures var gs := if calls.Some? then FragmentsOf(calls.value) else [];
            Following(env, ConvertCalls(env, o, idx, calls), fs + gs)
    ensures Grew(o.log, ConvertCalls(env, o, idx, calls).log, {TextEnd, Opening, CallPiece})
  {
    if calls.None? || calls.value == [] {
      assert fs + [] == fs;
    } else {
      var (o1, kinds) := (CloseMessage(o, idx), {TextEnd, Opening, CallPiece});
      CloseMessageDoes(o, idx);
      OthersFollow(env, o, o1, {TextEnd}, fs);
      FragmentsSpeak(env, o1, calls.value, fs);
      EmitToolCallsDoes(env, o1, calls.value);
      GrewMore(o.log, o1.log, {TextEnd}, kinds);
      GrewMore(o1.log, EmitToolCalls(env, o1, calls.value).log, FRAGMENT_KINDS, kinds);
      GrewTwice(o.log, o1.log, EmitToolCalls(env, o1, calls.value).log, kinds);
    }
  }

  /** In one step of the stream, pieces come first and closes last. */
  ghost predicate PiecesFirst(a: seq<Event>, b: seq<Event>) {
    exists m: nat :: |a| <= m <= |b| && Grew(a, b[..m], QUIET) && Grew(b[..m], b, CLOSING)
  }

  lemma PiecesThenCloses(a: seq<Event>, m: seq<Event>, b: seq<Event>)
    requires Grew(a, m, QUIET) && Grew(m, b, CLOSING)
    ensures PiecesFirst(a, b)
  {
    assert b[..|m|] == m;
  }

  lemma NoCloses(a: seq<Event>, b: seq<Event>)
    requires Grew(a, b, QUIET)
    ensures PiecesFirst(a, b)
  {
    assert b[..|b|] == b;
  }

  /** One step of the stream, after which the fragments fs are known. */
  ghost predicate Steps(env: Env, o: Out, r: Out, fs: seq<ToolCall>) {
    Following(env, r, fs) && PiecesFirst(o.log, r.log)
  }

  lemma ChunkFollows(env: Env, o: Out, chunks: seq<Chunk>, c: Chunk)
    requires Following(env, o, Taken(chunks)) && o.st.inThinking == Thinking(chunks)
    ensures Steps(env, o, ConvertOn(env, o, Some(c)), Taken(chunks + [c]))
  {
    TakenSnoc(chunks, c);
    if c.choice.None? {
      assert Taken(chunks) + [] == Taken(chunks);
      NoCloses(o.log, o.log);
    } else {
      ChoiceChunkFollows(env, o, c, BeforeCalls(env, o, c.id, c.choice.value), Taken(chunks));
    }
  }

  lemma ChoiceChunkFollows(env: Env, o: Out, c: Chunk, before: (Out, bool), fs: seq<ToolCall>)
    requires Following(env, o, fs) && c.choice.Some? && before == BeforeCalls(env, o, c.id, c.choice.value)
    ensures Steps(env, o, ConvertOn(env, o, Some(c)), fs + TakenFrom(o.st.inThinking, c))
  {
    ChoiceInStages(env, o, c, before);
    BeforeCallsSpeech(env, o, c, before);
    ChoiceFollows(env, o, before.0, before.1, c.choice.value, fs);
  }

  /** A chunk's tool calls and its finish. */
  function AfterSpeech(env: Env, o: Out, ch: Choice): Out {
    var q := ConvertCalls(env, o, JsIndex(ChoiceIndexRaw(ch)), ch.delta.toolCalls);
    if ch.finish.Truthy() then Finish(env, q) else q
  }

  lemma ChoiceInStages(env: Env, o: Out, c: Chunk, before: (Out, bool))
    requires c.choice.Some? && before == BeforeCalls(env, o, c.id, c.choice.value)
    ensures ConvertOn(env, o, Some(c)) == if before.1 then before.0 else AfterSpeech(env, before.0, c.choice.value)
  {
  }

  function CallsPart(ch: Choice): seq<ToolCall> {
    if ch.delta.toolCalls.Some? then FragmentsOf(ch.delta.toolCalls.value) else []
  }

  lemma ChoiceFollows(env: Env, o: Out, o2: Out, early: bool, ch: Choice, fs: seq<ToolCall>)
    requires Following(env, o, fs) && Grew(o.log, o2.log, SPEECH) && o2.st.calls == o.st.calls
    ensures Steps(env, o, if early then o2 else AfterSpeech(env, o2, ch), fs + (if early then [] else CallsPart(ch)))
  {
    GrewMore(o.log, o2.log, SPEECH, QUIET);
    OthersFollow(env, o, o2, SPEECH, fs);
    if early {
      assert fs + [] == fs;
      NoCloses(o.log, o2.log);
    } else {
      AfterSpeechFollows(env, o, o2, ch, fs);
    }
  }

  lemma AfterSpeechFollows(env: Env, o: Out, o2: Out, ch: Choice, fs: seq<ToolCall>)
    requires Following(env, o2, fs) && Grew(o.log, o2.log, QUIET)
    ensures Steps(env, o, AfterSpeech(env, o2, ch), fs + CallsPart(ch))
  {
    var q := ConvertCalls(env, o2, JsIndex(ChoiceIndexRaw(ch)), ch.delta.toolCalls);
    CallsFollow(env, o2, JsIndex(ChoiceIndexRaw(ch)), ch.delta.toolCalls, fs);
    GrewMore(o2.log, q.log, {TextEnd, Opening, CallPiece}, QUIET);
    GrewTwice(o.log, o2.log, q.log, QUIET);
    NoCloses(o.log, q.log);
    FinishedFollows(env, o, q, fs + CallsPart(ch));
  }

  lemma FinishedFollows(env: Env, o: Out, q: Out, fs: seq<ToolCall>)
    requires Following(env, q, fs) && Grew(o.log, q.log, QUIET)
    ensures Following(env, Finish(env, q), fs) && PiecesFirst(o.log, Finish(env, q).log)
  {
    FinishCloses(env, q);
    FinishFollows(env, q, fs);
    PiecesThenCloses(o.log, q.log, Finish(env, q).log);
  }

  // ---------------------------------------------------------------- the stream

  lemma {:induction false} RunFollowsDeltas(env: Env, responseId: string, chunks: seq<Chunk>, k: nat)
    requires k <= |chunks|
    ensures Following(env, Upto(env, responseId, chunks, k), Taken(chunks[..k]))
    decreases k
  {
    if k == 0 {
      assert chunks[..0] == [];
    } else {
      RunFollowsDeltas(env, responseId, chunks, k - 1);
      RunFollows(env, responseId, chunks, k - 1);
      UptoNext(env, responseId, chunks, k);
      ChunkFollows(env, Upto(env, responseId, chunks, k - 1), chunks[..k - 1], chunks[k - 1]);
    }
  }

  /** The chunks that step k of a stream has converted: the flush converts none. */
  function Heard(chunks: seq<Chunk>, k: nat): seq<Chunk> { if k < |chunks| then chunks[..k + 1] else chunks }

  lemma StepFollows(env: Env, responseId: string, chunks: seq<Chunk>, k: nat)
    requires k <= |chunks|
    ensures Following(env, Upto(env, responseId, chunks, k + 1), Taken(Heard(chunks, k)))
    ensures PiecesFirst(Upto(env, responseId, chunks, k).log, Upto(env, responseId, chunks, k + 1).log)
  {
    var o := Upto(env, responseId, chunks, k);
    RunFollowsDeltas(env, responseId, chunks, k);
    if k < |chunks| {
      RunFollows(env, responseId, chunks, k);
      UptoNext(env, responseId, chunks, k + 1);
      ChunkFollows(env, o, chunks[..k], chunks[k]);
    } else {
      assert chunks[..k] == chunks;
      FinishFollows(env, o, Taken(chunks));
      FinishCloses(env, o);
      assert Grew(o.log, o.log, QUIET);
      NoCloses(o.log, o.log);
      PiecesThenCloses(o.log, o.log, Finish(env, o).log);
    }
  }

  /** From a close on, a step adds no delta. */
  lemma DeltasBeforeClose(a: seq<Event>, b: seq<Event>, p: nat, i: int)
    requires PiecesFirst(a, b) && |a| <= p < |b| && KindOf(b[p].body) == CallEnd
    ensures DeltasOf(b[..p], i) == DeltasOf(b, i)
  {
    var m: nat :| |a| <= m <= |b| && Grew(a, b[..m], QUIET) && Grew(b[..m], b, CLOSING);
    assert forall q :: |a| <= q < m ==> b[..m][q] == b[q];
    assert Grew(b[..p], b, CLOSING) by {
      forall q | p <= q < |b| ensures KindOf(b[q].body) in CLOSING { assert q >= |b[..m]|; }
    }
    SameDeltas(b[..p], b, CLOSING, i);
  }

  /** The step that emits event p, and the log at its start and at its end. */
  lemma StepOf(env: Env, responseId: string, chunks: seq<Chunk>, p: nat)
    requires p < |Stream(env, responseId, chunks).log|
    ensures var n := Converted(env, responseId, chunks, p, 0);
            var (before, after) := (Upto(env, responseId, chunks, n).log, Upto(env, responseId, chunks, n + 1).log);
            |before| <= p < |after| && after <= Stream(env, responseId, chunks).log
  {
    assert chunks[..0] == [];
    assert Upto(env, responseId, chunks, 0).log == [];
    ConvertedMeans(env, responseId, chunks, p, 0);
    UptoGrows(env, responseId, chunks, Converted(env, responseId, chunks, p, 0) + 1);
  }

  lemma DeltasWithin(log: seq<Event>, before: seq<Event>, after: seq<Event>, p: nat, i: int)
    requires after <= log && PiecesFirst(before, after) && |before| <= p < |after|
    requires KindOf(log[p].body) == CallEnd
    ensures DeltasOf(log[..p], i) == DeltasOf(after, i)
  {
    assert log[..p] == after[..p] && log[p] == after[p];
    DeltasBeforeClose(before, after, p, i);
  }

  /** When a call of slot i is reported, the deltas sent for it so far are exactly the fragments that came once its id
      and its name were known, while its tool was not custom. */
  lemma DeltasAreSentOn(env: Env, responseId: string, chunks: seq<Chunk>, p: nat, i: int)
    requires p < |Stream(env, responseId, chunks).log|
    requires KindOf(Stream(env, responseId, chunks).log[p].body) == CallEnd
    ensures DeltasOf(Stream(env, responseId, chunks).log[..p], i)
         == SentOn(env, Taken(Heard(chunks, Converted(env, responseId, chunks, p, 0))), i)
  {
    var (log, n) := (Stream(env, responseId, chunks).log, Converted(env, responseId, chunks, p, 0));
    var (o, r) := (Upto(env, responseId, chunks, n), Upto(env, responseId, chunks, n + 1));
    StepOf(env, responseId, chunks, p);
    StepFollows(env, responseId, chunks, n);
    DeltasWithin(log, o.log, r.log, p, i);
    assert DeltasOf(r.log, i) == SentOn(env, Taken(Heard(chunks, n)), i);
  }

  /** No fragment of slot i names a custom tool. */
  predicate Plain(env: Env, fs: seq<ToolCall>, i: int) {
    fs == []
    || (Plain(env, fs[..|fs| - 1], i)
        && (CallSlot(fs[|fs| - 1]) == i ==> !IsCustom(env, fs[|fs| - 1].name.AsStr())))
  }

  lemma {:induction false} PlainByName(env: Env, fs: seq<ToolCall>, i: int)
    requires Plain(env, fs, i)
    ensures !IsCustom(env, LastName(fs, i))
  {
    if fs != [] { PlainByName(env, fs[..|fs| - 1], i); }
  }

  lemma {:induction false} UnknownSendsNothing(env: Env, fs: seq<ToolCall>, i: int)
    requires !KnownBy(fs, i)
    ensures SentOn(env, fs, i) == ""
  {
    if fs != [] {
      var (front, f) := (fs[..|fs| - 1], fs[|fs| - 1]);
      assert fs == front + [f];
      KnownNext(front, f, i);
      UnknownSendsNothing(env, front, i);
    }
  }

  /** The arguments of a plain call are what came before it was known and then what was sent on. */
  lemma {:induction false} PlainArguments(env: Env, fs: seq<ToolCall>, i: int)
    requires Plain(env, fs, i)
    ensures JoinedArgs(fs, i) == Early(fs, i) + SentOn(env, fs, i)
  {
    if fs != [] {
      var (front, f) := (fs[..|fs| - 1], fs[|fs| - 1]);
      if !KnownBy(fs, i) {
        UnknownSendsNothing(env, fs, i);
        assert JoinedArgs(fs, i) + "" == JoinedArgs(fs, i);
      } else {
        PlainArguments(env, front, i);
        PlainByName(env, fs, i);
        Assoc(Early(front, i), SentOn(env, front, i),
              if CallSlot(f) == i && f.args.Truthy() then f.args.JsString() else "");
      }
    }
  }

  /** The deltas of a plain call, joined, end its reported arguments: those are the fragments that came before its id
      and name were known, followed by the deltas ("{}" for nothing at all). They are all of them exactly when nothing
      came before. */
  lemma DeltasEndTheArguments(env: Env, responseId: string, chunks: seq<Chunk>, p: nat, i: int, log: seq<Event>,
                              fs: seq<ToolCall>)
    requires log == Stream(env, responseId, chunks).log && p < |log|
    requires fs == Taken(Heard(chunks, Converted(env, responseId, chunks, p, 0)))
    requires ReportsSlot(log[p].body, i) && Plain(env, fs, i)
    ensures log[p].body.item.payload == Braced(Early(fs, i) + DeltasOf(log[..p], i))
    ensures DeltasOf(log[..p], i) == JoinedArgs(fs, i) <==> Early(fs, i) == ""
  {
    ReportSays(env, responseId, chunks, p, log, fs);
    DeltasAreSentOn(env, responseId, chunks, p, i);
    PlainReport(env, fs, log[p].body, i);
  }

  predicate ReportsSlot(b: Body, i: int) { b.ItemDone? && b.item.CallItem? && b.outIndex == Num(i) }

  lemma ReportSays(env: Env, responseId: string, chunks: seq<Chunk>, p: nat, log: seq<Event>, fs: seq<ToolCall>)
    requires log == Stream(env, responseId, chunks).log && p < |log|
    requires fs == Taken(Heard(chunks, Converted(env, responseId, chunks, p, 0)))
    ensures SaysCall(env, fs, log[p].body)
  {
    var n := Converted(env, responseId, chunks, p, 0);
    DoneCallsAreJoined(env, responseId, chunks, p);
    assert Heard(chunks, n) == chunks[..if n < |chunks| then n + 1 else n];
  }

  lemma PlainReport(env: Env, fs: seq<ToolCall>, b: Body, i: int)
    requires Plain(env, fs, i) && SaysCall(env, fs, b) && ReportsSlot(b, i)
    ensures b.item.payload == Braced(Early(fs, i) + SentOn(env, fs, i))
    ensures SentOn(env, fs, i) == JoinedArgs(fs, i) <==> Early(fs, i) == ""
  {
    PlainArguments(env, fs, i);
    PlainByName(env, fs, i);
    assert |JoinedArgs(fs, i)| == |Early(fs, i)| + |SentOn(env, fs, i)|;
    assert "" + SentOn(env, fs, i) == SentOn(env, fs, i);
  }
}
