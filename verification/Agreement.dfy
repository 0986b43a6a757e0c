/**
 The streaming translator and the non-streaming fold are two implementations
 of one meaning: on calm streams they deliver the same texts. What the two sides
 know of each tool call is prepared here for module CallAgreement.
 */
module Agreement {
  import opened Basics
  import opened JsValues
  import opened ChatToResp
  import opened NonStream

  // ---------------------------------------------------------------- reading the input

  function FragmentsOf(es: seq<Option<ToolCall>>): seq<ToolCall> {
    if es == [] then [] else (if es[0].Some? then [es[0].value] else []) + FragmentsOf(es[1..])
  }

  function ChunkFragments(c: Chunk): seq<ToolCall> {
    if c.choice.Some? && c.choice.value.delta.toolCalls.Some?
    then FragmentsOf(c.choice.value.delta.toolCalls.value) else []
  }

  /** Every tool call fragment of the stream, in order. */
  function Fragments(chunks: seq<Chunk>): seq<ToolCall> {
    if chunks == [] then [] else ChunkFragments(chunks[0]) + Fragments(chunks[1..])
  }

  function ChunkText(c: Chunk): string { if c.choice.Some? then c.choice.value.delta.content.AsStr() else "" }

  function Text(chunks: seq<Chunk>): string {
    if chunks == [] then "" else ChunkText(chunks[0]) + Text(chunks[1..])
  }

  function ChunkReason(c: Chunk): string {
    if c.choice.Some? then c.choice.value.delta.reasoningContent.AsStr() else ""
  }

  function Reason(chunks: seq<Chunk>): string {
    if chunks == [] then "" else ChunkReason(chunks[0]) + Reason(chunks[1..])
  }

  /** The last id sent for slot i. */
  function LastId(fs: seq<ToolCall>, i: int): string {
    if fs == [] then ""
    else
      var f := fs[|fs| - 1];
      if CallSlot(f) == i && f.id.AsStr() != "" then f.id.AsStr() else LastId(fs[..|fs| - 1], i)
  }

  /** The last name sent for slot i. */
  function LastName(fs: seq<ToolCall>, i: int): string {
    if fs == [] then ""
    else
      var f := fs[|fs| - 1];
      if CallSlot(f) == i && f.name.AsStr() != "" then f.name.AsStr() else LastName(fs[..|fs| - 1], i)
  }

  /** All names sent for slot i, joined. */
  function JoinedNames(fs: seq<ToolCall>, i: int): string {
    if fs == [] then ""
    else
      var f := fs[|fs| - 1];
      JoinedNames(fs[..|fs| - 1], i) + (if CallSlot(f) == i then f.name.AsStr() else "")
  }

  /** All argument fragments sent for slot i, joined. */
  function JoinedArgs(fs: seq<ToolCall>, i: int): string {
    if fs == [] then ""
    else
      var f := fs[|fs| - 1];
      JoinedArgs(fs[..|fs| - 1], i) + (if CallSlot(f) == i && f.args.Truthy() then f.args.JsString() else "")
  }

  predicate Mentions(fs: seq<ToolCall>, i: int) {
    exists k :: 0 <= k < |fs| && CallSlot(fs[k]) == i
  }

  // ---------------------------------------------------------------- calm streams

  predicate CalmCall(env: Env, tc: ToolCall) {
    && (tc.index.Null? || tc.index.Num?)
    && (tc.id.Null? || tc.id.Str?)
    && (tc.name.Null? || tc.name.Str?)
  }

  predicate CalmCalls(env: Env, fs: seq<ToolCall>) {
    forall k :: 0 <= k < |fs| ==> CalmCall(env, fs[k])
  }

  /** Choice 0, reasoning in reasoning_content only, no think tags, well-typed calls. */
  predicate CalmChoice(env: Env, c: Choice) {
    && !c.index.Truthy()
    && ReasoningText(c.delta) == c.delta.reasoningContent.AsStr()
    && Find(c.delta.content.AsStr(), OPEN_TAG).None?
    && Find(c.delta.content.AsStr(), CLOSE_TAG).None?
  }

  predicate HasCalls(c: Choice) { c.delta.toolCalls.Some? && c.delta.toolCalls.value != [] }

  /** No error, no content once a tool call was seen, nothing after the finish. */
  predicate Calm(env: Env, chunks: seq<Chunk>, sawCalls: bool) {
    chunks == [] ||
    (var c := chunks[0];
     && !c.error.Truthy()
     && match c.choice
        case None => Calm(env, chunks[1..], sawCalls)
        case Some(ch) =>
          && CalmChoice(env, ch)
          && (sawCalls ==> ch.delta.content.AsStr() == "")
          && (if ch.finish.Truthy() then Silent(chunks[1..]) else Calm(env, chunks[1..], sawCalls || HasCalls(ch))))
  }

  predicate Silent(chunks: seq<Chunk>) {
    chunks == [] || (chunks[0].choice.None? && !chunks[0].error.Truthy() && Silent(chunks[1..]))
  }

  // ---------------------------------------------------------------- reading the outputs

  datatype CallView = CallView(callId: string, custom: bool, name: string, args: string)

  datatype Done = DoneText(text: string) | DoneReason(text: string) | DoneCall(call: CallView)

  function DonePart(b: Body): seq<Done> {
    match b
    case ItemDone(_, MessageItem(_, Some(t))) => [DoneText(t)]
    case ItemDone(_, ReasoningItem(_, Some(t))) => [DoneReason(t)]
    case ItemDone(_, CallItem(_, custom, callId, name, payload)) => [DoneCall(CallView(callId, custom, name, payload))]
    case _ => []
  }

  /** What the done events of a stream deliver, in order. */
  function Dones(log: seq<Event>): seq<Done> {
    if log == [] then [] else Dones(log[..|log| - 1]) + DonePart(log[|log| - 1].body)
  }

  function ItemView(item: OutputItem): Done {
    match item
    case OutReasoning(t) => DoneReason(t)
    case OutMessage(t) => DoneText(t)
    case OutCall(_, custom, callId, name, payload) => DoneCall(CallView(callId.JsString(), custom, name, payload))
  }

  function Views(items: seq<OutputItem>): seq<Done> {
    if items == [] then [] else [ItemView(items[0])] + Views(items[1..])
  }

  function Texts(ds: seq<Done>): seq<string> {
    if ds == [] then [] else (if ds[0].DoneText? then [ds[0].text] else []) + Texts(ds[1..])
  }

  function Reasons(ds: seq<Done>): seq<string> {
    if ds == [] then [] else (if ds[0].DoneReason? then [ds[0].text] else []) + Reasons(ds[1..])
  }

  function CallsIn(ds: seq<Done>): seq<CallView> {
    if ds == [] then [] else (if ds[0].DoneCall? then [ds[0].call] else []) + CallsIn(ds[1..])
  }

  function Braced(args: string): string { if args == "" then "{}" else args }

  // ---------------------------------------------------------------- the stream side

  /** The call tables hold the last id, the last name and the joined arguments of every slot. */
  ghost predicate CallsTrack(c: Calls, fs: seq<ToolCall>) {
    && (forall i: int :: GetS(c.ids, i) == LastId(fs, i))
    && (forall i: int :: GetS(c.names, i) == LastName(fs, i))
    && (forall i: int :: GetS(c.args, i) == JoinedArgs(fs, i))
    && (forall i :: i in c.ids ==> c.ids[i] != "")
  }

  lemma DonesNext(o: Out, b: Body)
    ensures Dones(Emit(o, b).log) == Dones(o.log) + DonePart(b)
  {
    assert Emit(o, b).log[..|o.log|] == o.log;
  }

  lemma AnnounceEffect(env: Env, o: Out, raw: Raw)
    ensures var r := AnnounceCall(env, o, raw);
            && r.st == o.st.(calls := r.st.calls) && r.st.calls == o.st.calls.(added := r.st.calls.added)
            && Dones(r.log) == Dones(o.log)
  {
    var (c, idx) := (o.st.calls, JsIndex(raw));
    var custom := IsCustom(env, GetS(c.names, idx));
    DonesNext(WithCalls(o, c.(added := c.added + {idx})), ItemAdded(raw,
      CallItem((if custom then "ctc_" else "fc_") + GetS(c.ids, idx), custom, GetS(c.ids, idx), GetS(c.names, idx),
               "")));
  }

  lemma ArgsEffect(env: Env, o: Out, raw: Raw, args: Raw, newId: string)
    ensures var r := EmitArgs(env, o, raw, args, newId);
            && r.st == o.st.(calls := r.st.calls)
            && r.st.calls == (if args.Truthy()
                              then o.st.calls.(args := o.st.calls.args[
                                     JsIndex(raw) := GetS(o.st.calls.args, JsIndex(raw)) + args.JsString()])
                              else o.st.calls)
            && Dones(r.log) == Dones(o.log)
  {
    var known := GetS(o.st.calls.ids, JsIndex(raw));
    DonesNext(o, ArgsDelta("fc_" + (if known == "" then newId else known), raw, args));
  }

  lemma CallEffect(env: Env, o: Out, tc: ToolCall)
    ensures var c := EmitToolCall(env, o, tc).st.calls;
            && EmitToolCall(env, o, tc).st == o.st.(calls := c)
            && c.ids == Identify(o.st.calls, tc).ids && c.names == Identify(o.st.calls, tc).names
            && c.done == o.st.calls.done
            && c.args == (if tc.args.Truthy()
                          then o.st.calls.args[CallSlot(tc) := GetS(o.st.calls.args, CallSlot(tc)) + tc.args.JsString()]
                          else o.st.calls.args)
            && Dones(EmitToolCall(env, o, tc).log) == Dones(o.log)
  {
    var o1 := WithCalls(o, Identify(o.st.calls, tc));
    AnnounceEffect(env, o1, CallIndexRaw(tc));
    ArgsEffect(env, AnnounceCall(env, o1, CallIndexRaw(tc)), CallIndexRaw(tc), tc.args, tc.id.AsStr());
  }

  lemma Assoc<T>(a: seq<T>, b: seq<T>, c: seq<T>)
    ensures (a + b) + c == a + (b + c)
  {
  }

  lemma CallTracksAt(c: Calls, tc: ToolCall, fs: seq<ToolCall>, i: int)
    requires GetS(c.ids, i) == LastId(fs, i) && GetS(c.names, i) == LastName(fs, i)
    ensures GetS(Identify(c, tc).ids, i) == LastId(fs + [tc], i)
    ensures GetS(Identify(c, tc).names, i) == LastName(fs + [tc], i)
  {
    assert (fs + [tc])[..|fs|] == fs;
  }

  lemma ArgsTrackAt(args: map<int, string>, tc: ToolCall, fs: seq<ToolCall>, i: int)
    requires GetS(args, i) == JoinedArgs(fs, i)
    ensures GetS(if tc.args.Truthy() then args[CallSlot(tc) := GetS(args, CallSlot(tc)) + tc.args.JsString()]
                 else args, i)
         == JoinedArgs(fs + [tc], i)
  {
    assert (fs + [tc])[..|fs|] == fs;
    assert GetS(args, i) + "" == GetS(args, i);
  }

  lemma CallTracks(env: Env, o: Out, tc: ToolCall, fs: seq<ToolCall>)
    requires CallsTrack(o.st.calls, fs)
    ensures CallsTrack(EmitToolCall(env, o, tc).st.calls, fs + [tc])
  {
    CallEffect(env, o, tc);
    var (c, d) := (o.st.calls, EmitToolCall(env, o, tc).st.calls);
    forall i: int
      ensures GetS(d.ids, i) == LastId(fs + [tc], i) && GetS(d.names, i) == LastName(fs + [tc], i)
           && GetS(d.args, i) == JoinedArgs(fs + [tc], i)
    {
      CallTracksAt(c, tc, fs, i);
      ArgsTrackAt(c.args, tc, fs, i);
    }
  }

  lemma {:induction false} CallElementsTrack(env: Env, o: Out, es: seq<Option<ToolCall>>, fs: seq<ToolCall>)
    requires CallsTrack(o.st.calls, fs)
    ensures var r := EmitToolCalls(env, o, es);
            && CallsTrack(r.st.calls, fs + FragmentsOf(es))
            && r.st == o.st.(calls := r.st.calls) && r.st.calls.done == o.st.calls.done
            && Dones(r.log) == Dones(o.log)
    decreases |es|
  {
    if es == [] {
      assert fs + FragmentsOf(es) == fs;
    } else if es[0].Some? {
      var tc := es[0].value;
      CallEffect(env, o, tc);
      CallTracks(env, o, tc, fs);
      CallElementsTrack(env, EmitToolCall(env, o, tc), es[1..], fs + [tc]);
      Assoc(fs, [tc], FragmentsOf(es[1..]));
    } else {
      CallElementsTrack(env, o, es[1..], fs);
      assert FragmentsOf(es) == FragmentsOf(es[1..]);
    }
  }

  /** Where a calm stream stands before its finish: nothing is done but the message a tool call closed. */
  ghost predicate Tracking(o: Out, text: string, reason: string, fs: seq<ToolCall>, sawCalls: bool) {
    && !o.st.completed && !o.st.inThinking
    && !o.st.reason.done && o.st.reason.buf == reason && (o.st.reason.id != "" <==> reason != "")
    && o.st.calls.done == {} && CallsTrack(o.st.calls, fs)
    && o.st.msgs.added == (if text == "" then {} else {0}) && GetS(o.st.msgs.text, 0) == text
    && o.st.msgs.done <= o.st.msgs.added && (o.st.msgs.done != {} ==> sawCalls)
    && Dones(o.log) == (if o.st.msgs.done == {} then [] else [DoneText(text)])
  }

  lemma StartEffect(env: Env, o: Out, id: Raw)
    ensures var r := Start(env, o, id);
            && r.st == o.st.(started := r.st.started, responseId := r.st.responseId)
            && Dones(r.log) == Dones(o.log)
  {
    if !o.st.started {
      var named := if id.AsStr() != "" then "resp_" + id.AsStr() else o.st.responseId;
      var responseId := if named == "" then "resp_" + env.clock else named;
      var o1 := o.(st := o.st.(started := true, responseId := responseId));
      DonesNext(o1, Created(responseId));
      DonesNext(Emit(o1, Created(responseId)), InProgress(responseId));
    }
  }

  lemma StartTracks(env: Env, o: Out, id: Raw, text: string, reason: string, fs: seq<ToolCall>, sawCalls: bool)
    requires Tracking(o, text, reason, fs, sawCalls)
    ensures Tracking(Start(env, o, id), text, reason, fs, sawCalls)
  {
    StartEffect(env, o, id);
  }

  lemma StartReasoningEffect(o: Out, raw: Raw)
    ensures var r := StartReasoning(o, raw);
            && r.st == o.st.(reason := r.st.reason)
            && r.st.reason.id != "" && r.st.reason.done == o.st.reason.done && r.st.reason.buf == o.st.reason.buf
            && Dones(r.log) == Dones(o.log)
  {
    if o.st.reason.id == "" {
      var id := "rs_" + o.st.responseId + "_" + raw.JsString();
      assert id[0] == 'r';
      var o1 := WithReason(o, o.st.reason.(id := id, index := raw));
      var o2 := Emit(o1, ItemAdded(raw, ReasoningItem(id, None)));
      DonesNext(o1, ItemAdded(raw, ReasoningItem(id, None)));
      DonesNext(o2, ReasoningPartAdded(id, raw));
      assert Dones(o2.log) == Dones(o.log);
    }
  }

  lemma EmitReasoningEffect(o: Out, text: string)
    requires text != ""
    ensures var r := EmitReasoning(o, text);
            && r.st == o.st.(reason := o.st.reason.(buf := o.st.reason.buf + text))
            && Dones(r.log) == Dones(o.log)
  {
    DonesNext(WithReason(o, o.st.reason.(buf := o.st.reason.buf + text)),
              ReasoningTextDelta(o.st.reason.id, o.st.reason.index, text));
  }

  lemma ReasonTracks(o: Out, raw: Raw, more: string, text: string, reason: string, fs: seq<ToolCall>, sawCalls: bool)
    requires Tracking(o, text, reason, fs, sawCalls)
    ensures Tracking(ConvertReasoning(o, raw, more), text, reason + more, fs, sawCalls)
  {
    if more == "" {
      assert reason + more == reason;
    } else {
      StartReasoningEffect(o, raw);
      EmitReasoningEffect(StartReasoning(o, raw), more);
    }
  }

  lemma AnnounceMessageEffect(o: Out, raw: Raw)
    ensures var r := AnnounceMessage(o, raw);
            && r.st == o.st.(msgs := o.st.msgs.(added := o.st.msgs.added + {JsIndex(raw)}))
            && Dones(r.log) == Dones(o.log)
  {
    var idx := JsIndex(raw);
    if idx in o.st.msgs.added {
      assert o.st.msgs.added + {idx} == o.st.msgs.added;
    } else {
      DonesNext(WithMsgs(o, o.st.msgs.(added := o.st.msgs.added + {idx})),
                ItemAdded(raw, MessageItem(MsgId(o.st, idx), None)));
    }
  }

  lemma AnnounceContentEffect(o: Out, raw: Raw)
    ensures var r := AnnounceContent(o, raw);
            && r.st == o.st.(msgs := o.st.msgs.(contentAdded := r.st.msgs.contentAdded))
            && Dones(r.log) == Dones(o.log)
  {
    var idx := JsIndex(raw);
    DonesNext(WithMsgs(o, o.st.msgs.(contentAdded := o.st.msgs.contentAdded + {idx})),
              ContentPartAdded(MsgId(o.st, idx), raw));
  }

  lemma EmitTextEffect(o: Out, raw: Raw, content: string)
    ensures var r := EmitText(o, raw, content);
            && r.st == o.st.(msgs := r.st.msgs)
            && r.st.msgs.added == o.st.msgs.added + {JsIndex(raw)} && r.st.msgs.done == o.st.msgs.done
            && r.st.msgs.text == o.st.msgs.text[JsIndex(raw) := GetS(o.st.msgs.text, JsIndex(raw)) + content]
            && Dones(r.log) == Dones(o.log)
  {
    AnnounceMessageEffect(o, raw);
    var o0 := AnnounceMessage(o, raw);
    AnnounceContentEffect(o0, raw);
    DonesNext(AnnounceContent(o0, raw), TextDelta(MsgId(o.st, JsIndex(raw)), raw, content));
  }

  lemma TextTracks(o: Out, more: string, text: string, reason: string, fs: seq<ToolCall>)
    requires Tracking(o, text, reason, fs, false) && more != ""
    ensures Tracking(EmitText(o, Num(0), more), text + more, reason, fs, false)
  {
    EmitTextEffect(o, Num(0), more);
    assert {} + {0} == {0} && {0} + {0} == {0};
  }

  lemma ContentTracks(o: Out, content: string, text: string, reason: string, fs: seq<ToolCall>, sawCalls: bool)
    requires Tracking(o, text, reason, fs, sawCalls)
    requires Find(content, OPEN_TAG).None? && Find(content, CLOSE_TAG).None?
    requires sawCalls ==> content == ""
    ensures !ConvertContent(o, Num(0), content).1
    ensures Tracking(ConvertContent(o, Num(0), content).0, text + content, reason, fs, sawCalls)
  {
    if content == "" {
      assert text + content == text;
    } else {
      TextTracks(o, content, text, reason, fs);
    }
  }

  lemma FinishMessageDones(o: Out, idx: int, id: string)
    ensures Dones(FinishMessage(o, idx, id).log) == Dones(o.log) + [DoneText(GetS(o.st.msgs.text, idx))]
  {
    var text := GetS(o.st.msgs.text, idx);
    var o1 := WithMsgs(o, o.st.msgs.(done := o.st.msgs.done + {idx}));
    DonesNext(o1, TextDone(id, Num(idx), text));
    var o2 := Emit(o1, TextDone(id, Num(idx), text));
    DonesNext(o2, ContentPartDone(id, Num(idx), text));
    DonesNext(Emit(o2, ContentPartDone(id, Num(idx), text)), ItemDone(Num(idx), MessageItem(id, Some(text))));
  }

  lemma CloseMessageTracks(o: Out, text: string, reason: string, fs: seq<ToolCall>, sawCalls: bool)
    requires Tracking(o, text, reason, fs, sawCalls)
    ensures Tracking(CloseMessage(o, 0), text, reason, fs, true)
    ensures CloseMessage(o, 0).st.msgs.done == CloseMessage(o, 0).st.msgs.added
  {
    FinishMessageDones(o, 0, MsgId(o.st, 0));
  }

  lemma CallsTracks(env: Env, o: Out, calls: Option<seq<Option<ToolCall>>>, text: string, reason: string,
                    fs: seq<ToolCall>, sawCalls: bool)
    requires Tracking(o, text, reason, fs, sawCalls)
    ensures Tracking(ConvertCalls(env, o, 0, calls), text, reason,
                     fs + (if calls.Some? then FragmentsOf(calls.value) else []),
                     sawCalls || (calls.Some? && calls.value != []))
  {
    if calls.None? || calls.value == [] {
      assert fs + [] == fs;
    } else {
      CloseMessageTracks(o, text, reason, fs, sawCalls);
      CallElementsTrack(env, CloseMessage(o, 0), calls.value, fs);
    }
  }

  function CallDone(env: Env, c: Calls, idx: int): CallView {
    var (name, args) := (GetS(c.names, idx), Braced(GetS(c.args, idx)));
    var custom := IsCustom(env, name);
    CallView(GetS(c.ids, idx), custom, name, if custom then StreamInput(env, args) else args)
  }

  function CallDones(env: Env, c: Calls, idxs: seq<int>): seq<Done>
    decreases |idxs|
  {
    if idxs == [] then [] else [DoneCall(CallDone(env, c, idxs[0]))] + CallDones(env, c, idxs[1..])
  }

  lemma CloseCustomDones(o: Out, idx: int, callId: string, name: string, input: string)
    ensures Dones(CloseCustom(o, idx, callId, name, input).log)
         == Dones(o.log) + [DoneCall(CallView(callId, true, name, input))]
  {
    DonesNext(o, CustomInputDelta("ctc_" + callId, Num(idx), input));
    var o1 := Emit(o, CustomInputDelta("ctc_" + callId, Num(idx), input));
    DonesNext(o1, CustomInputDone("ctc_" + callId, Num(idx), input));
    DonesNext(Emit(o1, CustomInputDone("ctc_" + callId, Num(idx), input)),
              ItemDone(Num(idx), CallItem("ctc_" + callId, true, callId, name, input)));
  }

  lemma CloseFunctionDones(o: Out, idx: int, callId: string, name: string, args: string)
    ensures Dones(CloseFunction(o, idx, callId, name, args).log)
         == Dones(o.log) + [DoneCall(CallView(callId, false, name, args))]
  {
    DonesNext(o, ArgsDone("fc_" + callId, Num(idx), args));
    DonesNext(Emit(o, ArgsDone("fc_" + callId, Num(idx), args)),
              ItemDone(Num(idx), CallItem("fc_" + callId, false, callId, name, args)));
  }

  lemma CloseCallDones(env: Env, o: Out, idx: int)
    requires GetS(o.st.calls.ids, idx) != "" && idx !in o.st.calls.done
    ensures Dones(CloseToolCall(env, o, idx).log) == Dones(o.log) + [DoneCall(CallDone(env, o.st.calls, idx))]
    ensures CloseToolCall(env, o, idx).st.calls == o.st.calls.(done := o.st.calls.done + {idx})
    ensures CloseToolCall(env, o, idx).st.completed == o.st.completed
  {
    var c := o.st.calls;
    var (callId, name, args) := (GetS(c.ids, idx), GetS(c.names, idx), Braced(GetS(c.args, idx)));
    if IsCustom(env, name) {
      CloseCustomDones(o, idx, callId, name, StreamInput(env, args));
    } else {
      CloseFunctionDones(o, idx, callId, name, args);
    }
  }

  lemma {:induction false} CloseCallsDones(env: Env, o: Out, idxs: seq<int>, c: Calls)
    requires o.st.calls == c.(done := o.st.calls.done)
    requires forall k :: 0 <= k < |idxs| ==> GetS(c.ids, idxs[k]) != "" && idxs[k] !in o.st.calls.done
    requires forall j, k :: 0 <= j < k < |idxs| ==> idxs[j] < idxs[k]
    ensures Dones(CloseToolCalls(env, o, idxs).log) == Dones(o.log) + CallDones(env, c, idxs)
    ensures CloseToolCalls(env, o, idxs).st.completed == o.st.completed
    decreases |idxs|
  {
    if idxs != [] {
      CloseCallDones(env, o, idxs[0]);
      CallDoneReads(env, o.st.calls, c, idxs[0]);
      CloseCallsDones(env, CloseToolCall(env, o, idxs[0]), idxs[1..], c);
      Assoc(Dones(o.log), [DoneCall(CallDone(env, c, idxs[0]))], CallDones(env, c, idxs[1..]));
    }
  }

  lemma CallDoneReads(env: Env, c: Calls, d: Calls, idx: int)
    requires c.ids == d.ids && c.names == d.names && c.args == d.args
    ensures CallDone(env, c, idx) == CallDone(env, d, idx)
  {
  }

  function OneText(text: string): seq<Done> { if text == "" then [] else [DoneText(text)] }

  function OneReason(reason: string): seq<Done> { if reason == "" then [] else [DoneReason(reason)] }

  lemma SortedSingleton(s: set<int>, k: int)
    requires s == {k}
    ensures SortedKeys(s) == [k]
  {
    var r := SortedKeys(s);
    assert k in r;
    assert forall i :: 0 <= i < |r| ==> r[i] in r;
  }

  lemma CloseMessagesAll(o: Out, text: string, reason: string, fs: seq<ToolCall>, sawCalls: bool)
    requires Tracking(o, text, reason, fs, sawCalls)
    ensures var r := CloseMessages(o, SortedKeys(o.st.msgs.added));
            r.st.reason == o.st.reason && r.st.calls == o.st.calls && r.st.completed == o.st.completed
            && Dones(r.log) == OneText(text)
  {
    if text == "" {
      assert SortedKeys(o.st.msgs.added) == [];
    } else {
      SortedSingleton(o.st.msgs.added, 0);
      CloseMessageTracks(o, text, reason, fs, sawCalls);
      assert CloseMessages(o, [0]) == CloseMessages(CloseMessage(o, 0), []) == CloseMessage(o, 0);
    }
  }

  lemma CloseReasoningDones(o: Out)
    requires !o.st.reason.done
    ensures Dones(CloseReasoning(o).log)
         == Dones(o.log) + (if o.st.reason.id == "" then [] else [DoneReason(o.st.reason.buf)])
    ensures CloseReasoning(o).st.calls == o.st.calls && CloseReasoning(o).st.completed == o.st.completed
  {
    var r := o.st.reason;
    if r.id != "" {
      var o1 := WithReason(o, r.(done := true));
      DonesNext(o1, ReasoningTextDone(r.id, r.index, r.buf));
      var o2 := Emit(o1, ReasoningTextDone(r.id, r.index, r.buf));
      DonesNext(o2, ReasoningPartDone(r.id, r.index, r.buf));
      DonesNext(Emit(o2, ReasoningPartDone(r.id, r.index, r.buf)), ItemDone(r.index, ReasoningItem(r.id, Some(r.buf))));
    }
  }

  lemma CloseCallsInOrder(env: Env, o: Out)
    requires o.st.calls.done == {} && forall i :: i in o.st.calls.ids ==> o.st.calls.ids[i] != ""
    ensures var idxs := SortedKeys(o.st.calls.ids.Keys);
            && Dones(CloseToolCalls(env, o, idxs).log) == Dones(o.log) + CallDones(env, o.st.calls, idxs)
            && CloseToolCalls(env, o, idxs).st.completed == o.st.completed
  {
    var idxs := SortedKeys(o.st.calls.ids.Keys);
    assert forall k :: 0 <= k < |idxs| ==> idxs[k] in idxs;
    CloseCallsDones(env, o, idxs, o.st.calls);
  }

  lemma FinishDones(env: Env, o: Out, text: string, reason: string, fs: seq<ToolCall>, sawCalls: bool)
    requires Tracking(o, text, reason, fs, sawCalls)
    ensures Finish(env, o).st.completed
    ensures Dones(Finish(env, o).log)
         == OneText(text) + OneReason(reason) + CallDones(env, o.st.calls, SortedKeys(o.st.calls.ids.Keys))
  {
    CloseMessagesAll(o, text, reason, fs, sawCalls);
    var o0 := CloseMessages(o, SortedKeys(o.st.msgs.added));
    CloseReasoningDones(o0);
    CloseCallsInOrder(env, CloseReasoning(o0));
    CompletedDones(CloseAll(env, o));
  }

  lemma CompletedDones(o: Out)
    requires !o.st.completed
    ensures SendCompleted(o).st.completed && Dones(SendCompleted(o).log) == Dones(o.log)
  {
    DonesNext(o.(st := o.st.(completed := true)), Completed(o.st.responseId));
  }

  lemma {:induction false} SilentRun(env: Env, o: Out, chunks: seq<Chunk>)
    requires Silent(chunks)
    ensures Run(env, o, chunks) == o
    ensures Text(chunks) == "" && Reason(chunks) == "" && Fragments(chunks) == []
    decreases |chunks|
  {
    if chunks != [] { SilentRun(env, o, chunks[1..]); }
  }

  lemma ChoiceTracks(env: Env, o: Out, id: Raw, c: Choice, text: string, reason: string, fs: seq<ToolCall>,
                     sawCalls: bool)
      returns (before: Out)
    requires Tracking(o, text, reason, fs, sawCalls) && CalmChoice(env, c)
    requires sawCalls ==> c.delta.content.AsStr() == ""
    ensures ConvertChoice(env, o, id, c) == if c.finish.Truthy() then Finish(env, before) else before
    ensures Tracking(before, text + c.delta.content.AsStr(), reason + c.delta.reasoningContent.AsStr(),
                     fs + (if c.delta.toolCalls.Some? then FragmentsOf(c.delta.toolCalls.value) else []),
                     sawCalls || HasCalls(c))
  {
    var (t, r) := (c.delta.content.AsStr(), c.delta.reasoningContent.AsStr());
    StartTracks(env, o, id, text, reason, fs, sawCalls);
    ReasonTracks(Start(env, o, id), Num(0), r, text, reason, fs, sawCalls);
    var o1 := ConvertReasoning(Start(env, o, id), Num(0), r);
    ContentTracks(o1, t, text, reason + r, fs, sawCalls);
    var o2 := ConvertContent(o1, Num(0), t).0;
    CallsTracks(env, o2, c.delta.toolCalls, text + t, reason + r, fs, sawCalls);
    before := ConvertCalls(env, o2, 0, c.delta.toolCalls);
  }

  /** Splitting off the first chunk of the joined inputs. */
  lemma JoinNext(chunks: seq<Chunk>, text: string, reason: string, fs: seq<ToolCall>)
    requires chunks != []
    ensures text + Text(chunks) == (text + ChunkText(chunks[0])) + Text(chunks[1..])
    ensures reason + Reason(chunks) == (reason + ChunkReason(chunks[0])) + Reason(chunks[1..])
    ensures fs + Fragments(chunks) == (fs + ChunkFragments(chunks[0])) + Fragments(chunks[1..])
  {
    Assoc(text, ChunkText(chunks[0]), Text(chunks[1..]));
    Assoc(reason, ChunkReason(chunks[0]), Reason(chunks[1..]));
    Assoc(fs, ChunkFragments(chunks[0]), Fragments(chunks[1..]));
  }

  lemma NothingMore(text: string, reason: string, fs: seq<ToolCall>)
    ensures text + "" == text && reason + "" == reason && fs + [] == fs
  {
  }

  /** What the done events deliver in the end: the text, the reasoning, then the calls of these tables. */
  ghost predicate Delivered(env: Env, o: Out, text: string, reason: string, fs: seq<ToolCall>, c: Calls) {
    && CallsTrack(c, fs)
    && Dones(o.log) == OneText(text) + OneReason(reason) + CallDones(env, c, SortedKeys(c.ids.Keys))
  }

  lemma {:induction false} RunDones(env: Env, o: Out, chunks: seq<Chunk>, text: string, reason: string,
                                    fs: seq<ToolCall>, sawCalls: bool)
      returns (c: Calls)
    requires Tracking(o, text, reason, fs, sawCalls) && Calm(env, chunks, sawCalls)
    ensures Delivered(env, Flush(env, Run(env, o, chunks)), text + Text(chunks), reason + Reason(chunks),
                      fs + Fragments(chunks), c)
    decreases |chunks|
  {
    if chunks == [] {
      FinishDones(env, o, text, reason, fs, sawCalls);
      NothingMore(text, reason, fs);
      c := o.st.calls;
    } else {
      JoinNext(chunks, text, reason, fs);
      var (t, r, f) := (text + ChunkText(chunks[0]), reason + ChunkReason(chunks[0]), fs + ChunkFragments(chunks[0]));
      if chunks[0].choice.None? {
        NothingMore(text, reason, fs);
        c := RunDones(env, o, chunks[1..], t, r, f, sawCalls);
      } else {
        var ch := chunks[0].choice.value;
        var before := ChoiceTracks(env, o, chunks[0].id, ch, text, reason, fs, sawCalls);
        if ch.finish.Truthy() {
          c := FinishedRunDones(env, before, chunks[1..], t, r, f, sawCalls || HasCalls(ch));
        } else {
          c := RunDones(env, before, chunks[1..], t, r, f, sawCalls || HasCalls(ch));
        }
      }
    }
  }

  lemma FinishedRunDones(env: Env, o: Out, rest: seq<Chunk>, text: string, reason: string, fs: seq<ToolCall>,
                         sawCalls: bool)
      returns (c: Calls)
    requires Tracking(o, text, reason, fs, sawCalls) && Silent(rest)
    ensures Delivered(env, Flush(env, Run(env, Finish(env, o), rest)), text + Text(rest), reason + Reason(rest),
                      fs + Fragments(rest), c)
  {
    FinishDones(env, o, text, reason, fs, sawCalls);
    SilentRun(env, Finish(env, o), rest);
    NothingMore(text, reason, fs);
    c := o.st.calls;
  }

  // ---------------------------------------------------------------- the fold side

  lemma {:induction false} FoldElementsAreFragments(calls: map<int, FoldCall>, es: seq<Option<ToolCall>>)
    ensures FoldElements(calls, es) == FoldFragments(calls, FragmentsOf(es))
    decreases |es|
  {
    if es != [] {
      if es[0].Some? {
        FoldElementsAreFragments(FoldOne(calls, es[0].value), es[1..]);
        assert FragmentsOf(es)[1..] == FragmentsOf(es[1..]);
      } else {
        FoldElementsAreFragments(calls, es[1..]);
        assert FragmentsOf(es) == FragmentsOf(es[1..]);
      }
    }
  }

  function FoldFragments(calls: map<int, FoldCall>, fs: seq<ToolCall>): map<int, FoldCall>
    decreases |fs|
  {
    if fs == [] then calls else FoldFragments(FoldOne(calls, fs[0]), fs[1..])
  }

  lemma {:induction false} FoldFragmentsJoin(calls: map<int, FoldCall>, fs: seq<ToolCall>, gs: seq<ToolCall>)
    ensures FoldFragments(calls, fs + gs) == FoldFragments(FoldFragments(calls, fs), gs)
    decreases |fs|
  {
    if fs == [] {
      assert fs + gs == gs;
    } else {
      assert (fs + gs)[1..] == fs[1..] + gs;
      FoldFragmentsJoin(FoldOne(calls, fs[0]), fs[1..], gs);
    }
  }

  lemma FoldChunkJoins(f: Fold, c: Chunk)
    ensures var g := FoldChunk(f, c);
            && g.content == f.content + ChunkText(c) && g.reasoning == f.reasoning + ChunkReason(c)
            && g.calls == FoldFragments(f.calls, ChunkFragments(c))
  {
    NothingMore(f.content, f.reasoning, []);
    if c.choice.Some? && c.choice.value.delta.toolCalls.Some? {
      FoldElementsAreFragments(f.calls, c.choice.value.delta.toolCalls.value);
    }
  }

  /** The fold joins texts, reasonings and fragments of all chunks. */
  lemma {:induction false} FoldJoins(f: Fold, chunks: seq<Chunk>)
    ensures var r := FoldAll(f, chunks);
            && r.content == f.content + Text(chunks)
            && r.reasoning == f.reasoning + Reason(chunks)
            && r.calls == FoldFragments(f.calls, Fragments(chunks))
    decreases |chunks|
  {
    if chunks == [] {
      NothingMore(f.content, f.reasoning, []);
    } else {
      FoldChunkJoins(f, chunks[0]);
      FoldJoins(FoldChunk(f, chunks[0]), chunks[1..]);
      JoinNext(chunks, f.content, f.reasoning, []);
      FoldFragmentsJoin(f.calls, ChunkFragments(chunks[0]), Fragments(chunks[1..]));
    }
  }

  /** The folded calls hold the last id, the joined names and the joined arguments of every mentioned slot. */
  ghost predicate FoldTracks(calls: map<int, FoldCall>, fs: seq<ToolCall>) {
    && (forall i: int :: i in calls <==> Mentions(fs, i))
    && (forall i :: i in calls ==> calls[i] == Joined(fs, i))
  }

  lemma MentionsNext(fs: seq<ToolCall>, tc: ToolCall, i: int)
    ensures Mentions(fs + [tc], i) <==> Mentions(fs, i) || CallSlot(tc) == i
  {
    var gs := fs + [tc];
    if CallSlot(tc) == i { assert CallSlot(gs[|fs|]) == i; }
    if Mentions(fs, i) {
      var k :| 0 <= k < |fs| && CallSlot(fs[k]) == i;
      assert CallSlot(gs[k]) == i;
    }
    if Mentions(gs, i) {
      var k :| 0 <= k < |gs| && CallSlot(gs[k]) == i;
      assert k == |fs| || fs[k] == gs[k];
    }
  }

  lemma {:induction false} UnmentionedIsEmpty(fs: seq<ToolCall>, i: int)
    requires !Mentions(fs, i)
    ensures LastId(fs, i) == "" && LastName(fs, i) == "" && JoinedNames(fs, i) == "" && JoinedArgs(fs, i) == ""
  {
    if fs != [] {
      var n := |fs| - 1;
      assert fs == fs[..n] + [fs[n]];
      MentionsNext(fs[..n], fs[n], i);
      UnmentionedIsEmpty(fs[..n], i);
    }
  }

  function FoldEntry(calls: map<int, FoldCall>, i: int): FoldCall {
    if i in calls then calls[i] else FoldCall(Str(""), "", "")
  }

  function Joined(fs: seq<ToolCall>, i: int): FoldCall {
    FoldCall(Str(LastId(fs, i)), JoinedNames(fs, i), JoinedArgs(fs, i))
  }

  lemma FoldEntryNext(env: Env, calls: map<int, FoldCall>, fs: seq<ToolCall>, tc: ToolCall, i: int)
    requires CalmCall(env, tc) && FoldEntry(calls, i) == Joined(fs, i)
    ensures FoldEntry(FoldOne(calls, tc), i) == Joined(fs + [tc], i)
  {
    assert (fs + [tc])[..|fs|] == fs;
    NothingMore(JoinedNames(fs, i), JoinedArgs(fs, i), []);
  }

  lemma FoldOneTracks(env: Env, calls: map<int, FoldCall>, fs: seq<ToolCall>, tc: ToolCall)
    requires FoldTracks(calls, fs) && CalmCall(env, tc)
    ensures FoldTracks(FoldOne(calls, tc), fs + [tc])
  {
    var d := FoldOne(calls, tc);
    forall i: int ensures i in d <==> Mentions(fs + [tc], i) { MentionsNext(fs, tc, i); }
    forall i | i in d ensures d[i] == Joined(fs + [tc], i) {
      if i !in calls { UnmentionedIsEmpty(fs, i); }
      FoldEntryNext(env, calls, fs, tc, i);
    }
  }

  lemma {:induction false} FoldFragmentsTrack(env: Env, calls: map<int, FoldCall>, done: seq<ToolCall>,
                                              fs: seq<ToolCall>)
    requires FoldTracks(calls, done) && CalmCalls(env, fs)
    ensures FoldTracks(FoldFragments(calls, fs), done + fs)
    decreases |fs|
  {
    if fs == [] {
      assert done + fs == done;
    } else {
      FoldOneTracks(env, calls, done, fs[0]);
      FoldFragmentsTrack(env, FoldOne(calls, fs[0]), done + [fs[0]], fs[1..]);
      Assoc(done, [fs[0]], fs[1..]);
      assert [fs[0]] + fs[1..] == fs;
    }
  }

  // ---------------------------------------------------------------- the two sides compared

  lemma {:induction false} ViewsJoin(xs: seq<OutputItem>, ys: seq<OutputItem>)
    ensures Views(xs + ys) == Views(xs) + Views(ys)
  {
    if xs == [] {
      assert xs + ys == ys;
    } else {
      assert (xs + ys)[1..] == xs[1..] + ys;
      ViewsJoin(xs[1..], ys);
    }
  }

  /** Only calls: no texts and no reasonings to be found there. */
  ghost predicate OnlyCalls(ds: seq<Done>) { forall k :: 0 <= k < |ds| ==> ds[k].DoneCall? }

  lemma {:induction false} OnlyCallsProjects(ds: seq<Done>)
    requires OnlyCalls(ds)
    ensures Texts(ds) == [] && Reasons(ds) == [] && |CallsIn(ds)| == |ds|
    ensures forall k :: 0 <= k < |ds| ==> CallsIn(ds)[k] == ds[k].call
  {
    if ds != [] { OnlyCallsProjects(ds[1..]); }
  }

  lemma StreamProjects(text: string, reason: string, cs: seq<Done>)
    requires OnlyCalls(cs)
    ensures var ds := OneText(text) + OneReason(reason) + cs;
            && Texts(ds) == (if text == "" then [] else [text])
            && Reasons(ds) == (if reason == "" then [] else [reason])
            && CallsIn(ds) == CallsIn(cs)
  {
    OnlyCallsProjects(cs);
    PrependReason(reason, cs);
    var rest := OneReason(reason) + cs;
    Assoc(OneText(text), OneReason(reason), cs);
    if text != "" { assert (OneText(text) + rest)[1..] == rest; } else { assert OneText(text) + rest == rest; }
  }

  lemma PrependReason(reason: string, ds: seq<Done>)
    ensures var es := OneReason(reason) + ds;
            && Texts(es) == Texts(ds)
            && Reasons(es) == (if reason == "" then [] else [reason]) + Reasons(ds)
            && CallsIn(es) == CallsIn(ds)
  {
    var es := OneReason(reason) + ds;
    if reason != "" { assert es[1..] == ds; } else { assert es == ds; }
  }

  lemma FoldProjects(text: string, reason: string, cs: seq<Done>)
    requires OnlyCalls(cs)
    ensures var ds := OneReason(reason) + OneText(text) + cs;
            && Texts(ds) == (if text == "" then [] else [text])
            && Reasons(ds) == (if reason == "" then [] else [reason])
            && CallsIn(ds) == CallsIn(cs)
  {
    OnlyCallsProjects(cs);
    var rest := OneText(text) + cs;
    if text != "" { assert rest[1..] == cs; } else { assert rest == cs; }
    PrependReason(reason, rest);
    Assoc(OneReason(reason), OneText(text), cs);
  }

  lemma {:induction false} CallOutputViews(env: Env, calls: map<int, FoldCall>, idxs: seq<int>)
    requires forall k :: 0 <= k < |idxs| ==> idxs[k] in calls
    ensures |Views(CallOutputs(env, calls, idxs))| == |idxs|
    ensures forall k :: 0 <= k < |idxs| ==>
              Views(CallOutputs(env, calls, idxs))[k] == ItemView(CallOutput(env, calls[idxs[k]]))
    decreases |idxs|
  {
    if idxs != [] {
      CallOutputViews(env, calls, idxs[1..]);
      assert CallOutputs(env, calls, idxs)[1..] == CallOutputs(env, calls, idxs[1..]);
    }
  }

  lemma FoldViews(env: Env, f: Fold)
    ensures Views(ToResponses(env, f))
         == OneReason(f.reasoning) + OneText(f.content) + Views(CallOutputs(env, f.calls, Slots(f)))
  {
    var a := if f.reasoning != "" then [OutReasoning(f.reasoning)] else [];
    var b := if f.content != "" then [OutMessage(f.content)] else [];
    var c := CallOutputs(env, f.calls, Slots(f));
    ViewsJoin(a + b, c);
    ViewsJoin(a, b);
    assert Views(a) == OneReason(f.reasoning) && Views(b) == OneText(f.content);
  }

  lemma {:induction false} CallDonesAt(env: Env, c: Calls, idxs: seq<int>)
    ensures |CallDones(env, c, idxs)| == |idxs|
    ensures forall k :: 0 <= k < |idxs| ==> CallDones(env, c, idxs)[k] == DoneCall(CallDone(env, c, idxs[k]))
    decreases |idxs|
  {
    if idxs != [] { CallDonesAt(env, c, idxs[1..]); }
  }

  /** What the two clients of one stream are shown: the stream's done events, and the fold's output items. */
  function Streamed(env: Env, responseId: string, chunks: seq<Chunk>): seq<Done> {
    Dones(Stream(env, responseId, chunks).log)
  }

  function Folded(env: Env, chunks: seq<Chunk>): seq<Done> {
    Views(ToResponses(env, FoldAll(EMPTY_FOLD, chunks)))
  }

  lemma FreshTracks(responseId: string)
    ensures Tracking(Out(Fresh(responseId), 0, []), "", "", [], false)
  {
  }

  lemma CalmHasNoError(env: Env, chunks: seq<Chunk>, sawCalls: bool)
    requires Calm(env, chunks, sawCalls) || Silent(chunks)
    ensures forall k :: 0 <= k < |chunks| ==> !chunks[k].error.Truthy()
  {
    if chunks != [] {
      if Silent(chunks) {
        CalmHasNoError(env, chunks[1..], sawCalls);
      } else {
        var ch := chunks[0].choice;
        CalmHasNoError(env, chunks[1..], if ch.Some? then sawCalls || HasCalls(ch.value) else sawCalls);
      }
    }
  }

  lemma {:induction false} NoErrorParses(chunks: seq<Chunk>)
    requires forall k :: 0 <= k < |chunks| ==> !chunks[k].error.Truthy()
    ensures LastError(chunks) == Null
  {
    if chunks != [] { NoErrorParses(chunks[..|chunks| - 1]); }
  }

  /** A calm stream folds to a completion. */
  lemma CalmParses(env: Env, chunks: seq<Chunk>)
    requires Calm(env, chunks, false) && chunks != []
    ensures Parse(chunks) == Completion(FoldAll(EMPTY_FOLD, chunks))
  {
    CalmHasNoError(env, chunks, false);
    NoErrorParses(chunks);
  }

  lemma StreamSide(env: Env, responseId: string, chunks: seq<Chunk>) returns (c: Calls)
    requires Calm(env, chunks, false)
    ensures CallsTrack(c, Fragments(chunks))
    ensures Texts(Streamed(env, responseId, chunks)) == (if Text(chunks) == "" then [] else [Text(chunks)])
    ensures Reasons(Streamed(env, responseId, chunks)) == (if Reason(chunks) == "" then [] else [Reason(chunks)])
    ensures CallsIn(Streamed(env, responseId, chunks)) == CallsIn(CallDones(env, c, SortedKeys(c.ids.Keys)))
  {
    FreshTracks(responseId);
    c := RunDones(env, Out(Fresh(responseId), 0, []), chunks, "", "", [], false);
    assert "" + Text(chunks) == Text(chunks) && "" + Reason(chunks) == Reason(chunks);
    assert [] + Fragments(chunks) == Fragments(chunks);
    CallDonesAt(env, c, SortedKeys(c.ids.Keys));
    StreamProjects(Text(chunks), Reason(chunks), CallDones(env, c, SortedKeys(c.ids.Keys)));
  }

  lemma ItemsProject(env: Env, f: Fold)
    ensures var ds := Views(ToResponses(env, f));
            && Texts(ds) == (if f.content == "" then [] else [f.content])
            && Reasons(ds) == (if f.reasoning == "" then [] else [f.reasoning])
            && CallsIn(ds) == CallsIn(Views(CallOutputs(env, f.calls, Slots(f))))
  {
    FoldViews(env, f);
    CallOutputViews(env, f.calls, Slots(f));
    FoldProjects(f.content, f.reasoning, Views(CallOutputs(env, f.calls, Slots(f))));
  }

  lemma FoldedParts(chunks: seq<Chunk>)
    ensures var f := FoldAll(EMPTY_FOLD, chunks);
            && f.content == Text(chunks) && f.reasoning == Reason(chunks)
            && f.calls == FoldFragments(map[], Fragments(chunks))
  {
    FoldJoins(EMPTY_FOLD, chunks);
    assert "" + Text(chunks) == Text(chunks) && "" + Reason(chunks) == Reason(chunks);
  }

  lemma FoldSide(env: Env, chunks: seq<Chunk>)
    ensures Texts(Folded(env, chunks)) == (if Text(chunks) == "" then [] else [Text(chunks)])
    ensures Reasons(Folded(env, chunks)) == (if Reason(chunks) == "" then [] else [Reason(chunks)])
  {
    FoldedParts(chunks);
    ItemsProject(env, FoldAll(EMPTY_FOLD, chunks));
  }

  /** Streaming and non-streaming clients of a calm stream read the same message text and the same reasoning:
      the joined contents of the chunks. */
  lemma TextsAgree(env: Env, responseId: string, chunks: seq<Chunk>)
    requires Calm(env, chunks, false)
    ensures Texts(Streamed(env, responseId, chunks)) == Texts(Folded(env, chunks))
         == if Text(chunks) == "" then [] else [Text(chunks)]
    ensures Reasons(Streamed(env, responseId, chunks)) == Reasons(Folded(env, chunks))
         == if Reason(chunks) == "" then [] else [Reason(chunks)]
  {
    var _ := StreamSide(env, responseId, chunks);
    FoldSide(env, chunks);
  }

  // ---------------------------------------------------------------- tool calls

  /** What the stream says of slot i when it is done. */
  function StreamView(env: Env, fs: seq<ToolCall>, i: int): CallView {
    var (name, args) := (LastName(fs, i), Braced(JoinedArgs(fs, i)));
    CallView(LastId(fs, i), IsCustom(env, name), name, if IsCustom(env, name) then StreamInput(env, args) else args)
  }

  lemma StreamViewAt(env: Env, c: Calls, fs: seq<ToolCall>, i: int)
    requires CallsTrack(c, fs)
    ensures CallDone(env, c, i) == StreamView(env, fs, i)
  {
  }
}
