/**
 Whose events the streaming translator's events are: all but those of tool calls
 name the response, the message of their index or the one reasoning item, by the
 id that was given to it when it was added. One shape of input breaks this: a
 closing think tag with text before it when no reasoning was ever opened.
 */
module ItemIds {
  import opened Basics
  import opened JsValues
  import opened ChatToResp

  /** The ids in force: they are fixed by the first chunk and by the first reasoning. */
  datatype Names = Names(response: string, reasonId: string, reasonIndex: Raw)

  function NamesOf(s: St): Names { Names(s.responseId, s.reason.id, s.reason.index) }

  predicate NamesMessage(n: Names, id: string, raw: Raw) { id == "msg_" + n.response + "_" + Itoa(JsIndex(raw)) }

  predicate NamesReasoning(n: Names, id: string, raw: Raw) { id != "" && id == n.reasonId && raw == n.reasonIndex }

  predicate Named(n: Names, b: Body) {
    match b
    case Created(id) => id == n.response
    case InProgress(id) => id == n.response
    case Completed(id) => id == n.response
    case ItemAdded(raw, MessageItem(id, _)) => NamesMessage(n, id, raw)
    case ItemDone(raw, MessageItem(id, _)) => NamesMessage(n, id, raw)
    case ContentPartAdded(id, raw) => NamesMessage(n, id, raw)
    case TextDelta(id, raw, _) => NamesMessage(n, id, raw)
    case TextDone(id, raw, _) => NamesMessage(n, id, raw)
    case ContentPartDone(id, raw, _) => NamesMessage(n, id, raw)
    case ItemAdded(raw, ReasoningItem(id, _)) => NamesReasoning(n, id, raw)
    case ItemDone(raw, ReasoningItem(id, _)) => NamesReasoning(n, id, raw)
    case ReasoningPartAdded(id, raw) => NamesReasoning(n, id, raw)
    case ReasoningTextDelta(id, raw, _) => NamesReasoning(n, id, raw)
    case ReasoningTextDone(id, raw, _) => NamesReasoning(n, id, raw)
    case ReasoningPartDone(id, raw, _) => NamesReasoning(n, id, raw)
    case _ => true
  }

  ghost predicate AllNamed(n: Names, log: seq<Event>) {
    forall p :: 0 <= p < |log| ==> Named(n, log[p].body)
  }

  predicate Stray(b: Body) { b.ReasoningTextDelta? && b.itemId == "" }

  ghost predicate HasStray(log: seq<Event>) {
    exists p :: 0 <= p < |log| && Stray(log[p].body)
  }

  /** A stray delta names nothing. */
  lemma StrayIsUnnamed(n: Names, log: seq<Event>)
    requires HasStray(log)
    ensures !AllNamed(n, log)
  {
    var p :| 0 <= p < |log| && Stray(log[p].body);
    assert !Named(n, log[p].body);
  }

  // ---------------------------------------------------------------- steps

  /** Names stay, named logs stay named, and a stray delta stays in the log. */
  ghost predicate Kept(o: Out, r: Out) {
    && NamesOf(r.st) == NamesOf(o.st) && r.st.started == o.st.started && (r.st.inThinking ==> o.st.inThinking)
    && (AllNamed(NamesOf(o.st), o.log) ==> AllNamed(NamesOf(o.st), r.log))
    && (HasStray(o.log) ==> HasStray(r.log))
  }

  lemma KeptTwice(o: Out, q: Out, r: Out)
    requires Kept(o, q) && Kept(q, r)
    ensures Kept(o, r)
  {
  }

  lemma StrayStays(o: Out, b: Body)
    ensures HasStray(o.log) ==> HasStray(Emit(o, b).log)
    ensures Stray(b) ==> HasStray(Emit(o, b).log)
  {
    var log := Emit(o, b).log;
    if HasStray(o.log) {
      var p :| 0 <= p < |o.log| && Stray(o.log[p].body);
      assert Stray(log[p].body);
    }
    assert log[|o.log|].body == b;
  }

  lemma EmitKept(o: Out, b: Body)
    requires Named(NamesOf(o.st), b)
    ensures Kept(o, Emit(o, b))
  {
    StrayStays(o, b);
  }

  /** Fields other than the ids do not matter. */
  lemma FieldsKept(o: Out, r: Out)
    requires r.log == o.log && NamesOf(r.st) == NamesOf(o.st) && r.st.started == o.st.started
    requires r.st.inThinking ==> o.st.inThinking
    ensures Kept(o, r)
  {
  }

  lemma EmitAfter(o: Out, q: Out, b: Body)
    requires Kept(o, q) && Named(NamesOf(o.st), b)
    ensures Kept(o, Emit(q, b))
  {
    EmitKept(q, b);
  }

  lemma CloseReasoningKept(o: Out)
    ensures Kept(o, CloseReasoning(o))
  {
    var r := o.st.reason;
    if r.id != "" && !r.done {
      var o1 := WithReason(o, r.(done := true));
      FieldsKept(o, o1);
      EmitAfter(o, o1, ReasoningTextDone(r.id, r.index, r.buf));
      var o2 := Emit(o1, ReasoningTextDone(r.id, r.index, r.buf));
      EmitAfter(o, o2, ReasoningPartDone(r.id, r.index, r.buf));
      EmitAfter(o, Emit(o2, ReasoningPartDone(r.id, r.index, r.buf)),
                ItemDone(r.index, ReasoningItem(r.id, Some(r.buf))));
    }
  }

  /** Reasoning text is named exactly when an item was opened for it. */
  lemma EmitReasoningKept(o: Out, text: string)
    ensures o.st.reason.id != "" || text == "" ==> Kept(o, EmitReasoning(o, text))
    ensures o.st.reason.id == "" && text != "" ==>
              HasStray(EmitReasoning(o, text).log) && NamesOf(EmitReasoning(o, text).st) == NamesOf(o.st)
              && EmitReasoning(o, text).st.started == o.st.started
              && EmitReasoning(o, text).st.inThinking == o.st.inThinking
  {
    if text != "" {
      var o1 := WithReason(o, o.st.reason.(buf := o.st.reason.buf + text));
      var b := ReasoningTextDelta(o.st.reason.id, o.st.reason.index, text);
      FieldsKept(o, o1);
      if o.st.reason.id != "" { EmitAfter(o, o1, b); } else { StrayStays(o1, b); }
    }
  }

  lemma AnnounceMessageKept(o: Out, raw: Raw)
    ensures Kept(o, AnnounceMessage(o, raw))
  {
    var idx := JsIndex(raw);
    var o1 := WithMsgs(o, o.st.msgs.(added := o.st.msgs.added + {idx}));
    FieldsKept(o, o1);
    EmitAfter(o, o1, ItemAdded(raw, MessageItem(MsgId(o.st, idx), None)));
  }

  lemma AnnounceContentKept(o: Out, raw: Raw)
    ensures Kept(o, AnnounceContent(o, raw))
  {
    var idx := JsIndex(raw);
    var o1 := WithMsgs(o, o.st.msgs.(contentAdded := o.st.msgs.contentAdded + {idx}));
    FieldsKept(o, o1);
    EmitAfter(o, o1, ContentPartAdded(MsgId(o.st, idx), raw));
  }

  lemma EmitTextKept(o: Out, raw: Raw, content: string)
    ensures Kept(o, EmitText(o, raw, content))
  {
    AnnounceMessageKept(o, raw);
    var o0 := AnnounceMessage(o, raw);
    AnnounceContentKept(o0, raw);
    KeptTwice(o, o0, AnnounceContent(o0, raw));
    var b := TextDelta(MsgId(o.st, JsIndex(raw)), raw, content);
    EmitAfter(o, AnnounceContent(o0, raw), b);
    var o1 := Emit(AnnounceContent(o0, raw), b);
    FieldsKept(o1, EmitText(o, raw, content));
    KeptTwice(o, o1, EmitText(o, raw, content));
  }

  lemma CloseMessageKept(o: Out, idx: int)
    ensures Kept(o, CloseMessage(o, idx))
  {
    var (text, id) := (GetS(o.st.msgs.text, idx), MsgId(o.st, idx));
    var o1 := WithMsgs(o, o.st.msgs.(done := o.st.msgs.done + {idx}));
    FieldsKept(o, o1);
    EmitAfter(o, o1, TextDone(id, Num(idx), text));
    var o2 := Emit(o1, TextDone(id, Num(idx), text));
    EmitAfter(o, o2, ContentPartDone(id, Num(idx), text));
    EmitAfter(o, Emit(o2, ContentPartDone(id, Num(idx), text)), ItemDone(Num(idx), MessageItem(id, Some(text))));
  }

  lemma {:induction false} CloseMessagesKept(o: Out, idxs: seq<int>)
    ensures Kept(o, CloseMessages(o, idxs))
    decreases |idxs|
  {
    if idxs != [] {
      CloseMessageKept(o, idxs[0]);
      CloseMessagesKept(CloseMessage(o, idxs[0]), idxs[1..]);
      KeptTwice(o, CloseMessage(o, idxs[0]), CloseMessages(o, idxs));
    }
  }

  lemma AnnounceCallKept(env: Env, o: Out, raw: Raw)
    ensures Kept(o, AnnounceCall(env, o, raw))
  {
    var (c, idx) := (o.st.calls, JsIndex(raw));
    var custom := IsCustom(env, GetS(c.names, idx));
    var o1 := WithCalls(o, c.(added := c.added + {idx}));
    FieldsKept(o, o1);
    EmitAfter(o, o1, ItemAdded(raw, CallItem((if custom then "ctc_" else "fc_") + GetS(c.ids, idx), custom,
                                             GetS(c.ids, idx), GetS(c.names, idx), "")));
  }

  lemma EmitArgsKept(env: Env, o: Out, raw: Raw, args: Raw, newId: string)
    ensures Kept(o, EmitArgs(env, o, raw, args, newId))
  {
    var known := GetS(o.st.calls.ids, JsIndex(raw));
    EmitKept(o, ArgsDelta("fc_" + (if known == "" then newId else known), raw, args));
    var r := EmitArgs(env, o, raw, args, newId);
    FieldsKept(r.(st := o.st), r);
  }

  lemma EmitToolCallKept(env: Env, o: Out, tc: ToolCall)
    ensures Kept(o, EmitToolCall(env, o, tc))
  {
    var o1 := WithCalls(o, Identify(o.st.calls, tc));
    var o2 := AnnounceCall(env, o1, CallIndexRaw(tc));
    FieldsKept(o, o1);
    AnnounceCallKept(env, o1, CallIndexRaw(tc));
    KeptTwice(o, o1, o2);
    EmitArgsKept(env, o2, CallIndexRaw(tc), tc.args, tc.id.AsStr());
    KeptTwice(o, o2, EmitToolCall(env, o, tc));
  }

  lemma {:induction false} EmitToolCallsKept(env: Env, o: Out, es: seq<Option<ToolCall>>)
    ensures Kept(o, EmitToolCalls(env, o, es))
    decreases |es|
  {
    if es != [] {
      var o1 := if es[0].Some? then EmitToolCall(env, o, es[0].value) else o;
      if es[0].Some? { EmitToolCallKept(env, o, es[0].value); }
      EmitToolCallsKept(env, o1, es[1..]);
      KeptTwice(o, o1, EmitToolCalls(env, o, es));
    }
  }

  lemma CloseCustomKept(o: Out, idx: int, callId: string, name: string, input: string)
    ensures Kept(o, CloseCustom(o, idx, callId, name, input))
  {
    var b := CustomInputDelta("ctc_" + callId, Num(idx), input);
    EmitKept(o, b);
    EmitAfter(o, Emit(o, b), CustomInputDone("ctc_" + callId, Num(idx), input));
    EmitAfter(o, Emit(Emit(o, b), CustomInputDone("ctc_" + callId, Num(idx), input)),
              ItemDone(Num(idx), CallItem("ctc_" + callId, true, callId, name, input)));
  }

  lemma CloseFunctionKept(o: Out, idx: int, callId: string, name: string, args: string)
    ensures Kept(o, CloseFunction(o, idx, callId, name, args))
  {
    EmitKept(o, ArgsDone("fc_" + callId, Num(idx), args));
    EmitAfter(o, Emit(o, ArgsDone("fc_" + callId, Num(idx), args)),
              ItemDone(Num(idx), CallItem("fc_" + callId, false, callId, name, args)));
  }

  lemma CloseToolCallKept(env: Env, o: Out, idx: int)
    ensures Kept(o, CloseToolCall(env, o, idx))
  {
    var c := o.st.calls;
    var (callId, name) := (GetS(c.ids, idx), GetS(c.names, idx));
    var args := if GetS(c.args, idx) == "" then "{}" else GetS(c.args, idx);
    if callId != "" && idx !in c.done {
      CloseCustomKept(o, idx, callId, name, StreamInput(env, args));
      CloseFunctionKept(o, idx, callId, name, args);
      var o1 := if IsCustom(env, name) then CloseCustom(o, idx, callId, name, StreamInput(env, args))
                else CloseFunction(o, idx, callId, name, args);
      FieldsKept(o1, CloseToolCall(env, o, idx));
      KeptTwice(o, o1, CloseToolCall(env, o, idx));
    }
  }

  lemma {:induction false} CloseToolCallsKept(env: Env, o: Out, idxs: seq<int>)
    ensures Kept(o, CloseToolCalls(env, o, idxs))
    decreases |idxs|
  {
    if idxs != [] {
      CloseToolCallKept(env, o, idxs[0]);
      CloseToolCallsKept(env, CloseToolCall(env, o, idxs[0]), idxs[1..]);
      KeptTwice(o, CloseToolCall(env, o, idxs[0]), CloseToolCalls(env, o, idxs));
    }
  }

  lemma FinishKept(env: Env, o: Out)
    ensures Kept(o, Finish(env, o))
  {
    var o1 := CloseMessages(o, SortedKeys(o.st.msgs.added));
    CloseMessagesKept(o, SortedKeys(o.st.msgs.added));
    CloseReasoningKept(o1);
    var o2 := CloseReasoning(o1);
    KeptTwice(o, o1, o2);
    CloseToolCallsKept(env, o2, SortedKeys(o2.st.calls.ids.Keys));
    var o3 := CloseAll(env, o);
    KeptTwice(o, o2, o3);
    FieldsKept(o3, o3.(st := o3.st.(completed := true)));
    EmitAfter(o3, o3.(st := o3.st.(completed := true)), Completed(o3.st.responseId));
    KeptTwice(o, o3, SendCompleted(o3));
  }

  // ---------------------------------------------------------------- chunks

  /** What a step does to names once the stream has started. */
  ghost predicate Steps(o: Out, r: Out, opens: bool, strays: bool) {
    && r.st.started == o.st.started && r.st.responseId == o.st.responseId
    && (Opened(r.st) <==> Opened(o.st) || opens)
    && (Opened(o.st) ==> NamesOf(r.st) == NamesOf(o.st))
    && (HasStray(o.log) || strays ==> HasStray(r.log))
    && (!strays && AllNamed(NamesOf(o.st), o.log) ==> AllNamed(NamesOf(r.st), r.log))
  }

  lemma KeptSteps(o: Out, r: Out)
    requires Kept(o, r)
    ensures Steps(o, r, false, false)
  {
  }

  lemma StepsThenKept(o: Out, q: Out, r: Out, opens: bool, strays: bool)
    requires Steps(o, q, opens, strays) && Kept(q, r)
    ensures Steps(o, r, opens, strays)
  {
  }

  /** Without an item no named log speaks of reasoning, so a new item's name contradicts nothing. */
  lemma UnopenedStaysNamed(n: Names, id: string, raw: Raw, log: seq<Event>)
    requires n.reasonId == "" && AllNamed(n, log)
    ensures AllNamed(n.(reasonId := id, reasonIndex := raw), log)
  {
    forall p | 0 <= p < |log| ensures Named(n.(reasonId := id, reasonIndex := raw), log[p].body) {
      assert Named(n, log[p].body);
    }
  }

  lemma StartReasoningSteps(o: Out, raw: Raw)
    ensures Steps(o, StartReasoning(o, raw), true, false)
  {
    if !Opened(o.st) {
      var id := "rs_" + o.st.responseId + "_" + raw.JsString();
      assert id[0] == 'r';
      var o1 := WithReason(o, o.st.reason.(id := id, index := raw));
      if AllNamed(NamesOf(o.st), o.log) { UnopenedStaysNamed(NamesOf(o.st), id, raw, o.log); }
      EmitKept(o1, ItemAdded(raw, ReasoningItem(id, None)));
      EmitAfter(o1, Emit(o1, ItemAdded(raw, ReasoningItem(id, None))), ReasoningPartAdded(id, raw));
      assert Steps(o, o1, true, false);
      StepsThenKept(o, o1, StartReasoning(o, raw), true, false);
    }
  }

  lemma ReasoningSteps(o: Out, raw: Raw, text: string)
    ensures Steps(o, ConvertReasoning(o, raw, text), text != "", false)
  {
    if text == "" {
      KeptSteps(o, o);
    } else {
      StartReasoningSteps(o, raw);
      EmitReasoningKept(StartReasoning(o, raw), text);
      StepsThenKept(o, StartReasoning(o, raw), ConvertReasoning(o, raw, text), true, false);
    }
  }

  /** The content closes a thinking span, with text before the tag, that nothing opened. */
  predicate StrayClose(opened_: bool, content: string) {
    && !opened_ && !Tagged(content)
    && Find(content, CLOSE_TAG).Some? && Find(content, CLOSE_TAG).value > 0
  }

  lemma OpenThinkingSteps(o: Out, raw: Raw, content: string)
    ensures Steps(o, OpenThinking(o, raw, content).0, Tagged(content), false)
    ensures OpenThinking(o, raw, content).1 == RemoveFirst(content, OPEN_TAG)
  {
    var o1 := o.(st := o.st.(inThinking := true));
    FieldsKept(o, o);
    KeptSteps(o, o);
    if Tagged(content) {
      StartReasoningSteps(o1, raw);
      assert Steps(o, StartReasoning(o1, raw), true, false);
    }
  }

  lemma EndThinkingSteps(o: Out, text: string)
    ensures Steps(o, EndThinking(o, text), false, !Opened(o.st) && text != "")
  {
    var o1 := EmitReasoning(o, text);
    EmitReasoningKept(o, text);
    CloseReasoningKept(o1);
    var o2 := CloseReasoning(o1);
    FieldsKept(o2, EndThinking(o, text));
    KeptTwice(o1, o2, EndThinking(o, text));
    assert Steps(o, o1, false, !Opened(o.st) && text != "");
    StepsThenKept(o, o1, EndThinking(o, text), false, !Opened(o.st) && text != "");
  }

  lemma MaybeTextKept(o: Out, raw: Raw, text: string)
    ensures Kept(o, if text != "" then EmitText(o, raw, text) else o)
  {
    EmitTextKept(o, raw, text);
    FieldsKept(o, o);
  }

  lemma ClosedRestSteps(o: Out, raw: Raw, content: string, i: nat)
    requires Find(content, CLOSE_TAG) == Some(i)
    ensures Steps(o, RestOfContent(o, raw, content).0, false, !Opened(o.st) && i > 0)
  {
    var text := content[i + |CLOSE_TAG|..];
    EndThinkingSteps(o, content[..i]);
    var o1 := EndThinking(o, content[..i]);
    MaybeTextKept(o1, raw, text);
    assert !o1.st.inThinking;
    StepsThenKept(o, o1, RestOfContent(o, raw, content).0, false, !Opened(o.st) && i > 0);
  }

  /** Thinking text without a closing tag only comes with an open reasoning item. */
  lemma OpenRestSteps(o: Out, raw: Raw, content: string)
    requires Find(content, CLOSE_TAG).None? && (o.st.inThinking ==> Opened(o.st))
    ensures Steps(o, RestOfContent(o, raw, content).0, false, false)
  {
    MaybeTextKept(o, raw, content);
    EmitReasoningKept(o, content);
    KeptSteps(o, RestOfContent(o, raw, content).0);
  }

  predicate ClosesLate(content: string) { Find(content, CLOSE_TAG).Some? && Find(content, CLOSE_TAG).value > 0 }

  lemma RestSteps(o: Out, raw: Raw, content: string)
    requires o.st.inThinking ==> Opened(o.st)
    ensures Steps(o, RestOfContent(o, raw, content).0, false, !Opened(o.st) && ClosesLate(content))
  {
    match Find(content, CLOSE_TAG) {
      case None => OpenRestSteps(o, raw, content);
      case Some(i) => ClosedRestSteps(o, raw, content, i);
    }
  }

  lemma StraysAlike(o: Out, raw: Raw, content: string)
    ensures var (o1, c1) := OpenThinking(o, raw, content);
            !Opened(o1.st) && ClosesLate(c1) <==> StrayClose(Opened(o.st), content)
  {
    OpenThinkingSteps(o, raw, content);
  }

  lemma ContentSteps(o: Out, raw: Raw, content: string)
    requires o.st.inThinking ==> Opened(o.st)
    ensures Steps(o, ConvertContent(o, raw, content).0, Tagged(content), StrayClose(Opened(o.st), content))
  {
    if content == "" {
      assert Find(content, OPEN_TAG).None? && Find(content, CLOSE_TAG).None?;
      FieldsKept(o, o);
      KeptSteps(o, o);
    } else {
      var (o1, c1) := OpenThinking(o, raw, content);
      OpenThinkingSteps(o, raw, content);
      ThinkingIsOpened(o, raw, content);
      RestSteps(o1, raw, c1);
      StraysAlike(o, raw, content);
      StepsJoin(o, o1, RestOfContent(o1, raw, c1).0, Tagged(content), StrayClose(Opened(o.st), content));
    }
  }

  lemma StepsJoin(o: Out, q: Out, r: Out, opens: bool, strays: bool)
    requires Steps(o, q, opens, false) && Steps(q, r, false, strays)
    ensures Steps(o, r, opens, strays)
  {
  }

  lemma ThinkingIsOpened(o: Out, raw: Raw, content: string)
    requires o.st.inThinking ==> Opened(o.st)
    ensures var q := OpenThinking(o, raw, content).0; q.st.inThinking ==> Opened(q.st)
  {
    if Tagged(content) { StartReasoningSteps(o.(st := o.st.(inThinking := true)), raw); }
  }

  lemma RestThinks(o: Out, raw: Raw, content: string)
    ensures RestOfContent(o, raw, content).0.st.inThinking ==> o.st.inThinking
  {
    match Find(content, CLOSE_TAG) {
      case None =>
        MaybeTextKept(o, raw, content);
        EmitReasoningKept(o, content);
      case Some(i) =>
        MaybeTextKept(EndThinking(o, content[..i]), raw, content[i + |CLOSE_TAG|..]);
    }
  }

  lemma ContentThinks(o: Out, raw: Raw, content: string)
    requires o.st.inThinking ==> Opened(o.st)
    ensures var r := ConvertContent(o, raw, content).0; r.st.inThinking ==> Opened(r.st)
  {
    if content != "" {
      var (o1, c1) := OpenThinking(o, raw, content);
      ThinkingIsOpened(o, raw, content);
      RestThinks(o1, raw, c1);
      ContentSteps(o, raw, content);
      OpenThinkingSteps(o, raw, content);
    }
  }

  lemma CallsKept(env: Env, o: Out, idx: int, calls: Option<seq<Option<ToolCall>>>)
    ensures Kept(o, ConvertCalls(env, o, idx, calls))
  {
    if calls.None? || calls.value == [] {
      FieldsKept(o, o);
    } else {
      CloseMessageKept(o, idx);
      EmitToolCallsKept(env, CloseMessage(o, idx), calls.value);
      KeptTwice(o, CloseMessage(o, idx), ConvertCalls(env, o, idx, calls));
    }
  }

  /** Everything of a chunk after its content. */
  function AfterContent(env: Env, o: Out, c: Choice): Out {
    var o3 := ConvertCalls(env, o, JsIndex(ChoiceIndexRaw(c)), c.delta.toolCalls);
    if c.finish.Truthy() then Finish(env, o3) else o3
  }

  lemma AfterContentKept(env: Env, o: Out, c: Choice)
    ensures Kept(o, AfterContent(env, o, c))
  {
    var o3 := ConvertCalls(env, o, JsIndex(ChoiceIndexRaw(c)), c.delta.toolCalls);
    CallsKept(env, o, JsIndex(ChoiceIndexRaw(c)), c.delta.toolCalls);
    if c.finish.Truthy() {
      FinishKept(env, o3);
      KeptTwice(o, o3, Finish(env, o3));
    }
  }

  function ReasonAndContent(o: Out, c: Choice): (Out, bool) {
    ConvertContent(ConvertReasoning(o, ChoiceIndexRaw(c), ReasoningText(c.delta)), ChoiceIndexRaw(c),
                   c.delta.content.AsStr())
  }

  predicate Opens(c: Choice) { ReasoningText(c.delta) != "" || Tagged(c.delta.content.AsStr()) }

  predicate Strays(opened_: bool, c: Choice) {
    StrayClose(opened_ || ReasoningText(c.delta) != "", c.delta.content.AsStr())
  }

  lemma ReasonThinks(o: Out, raw: Raw, text: string)
    ensures ConvertReasoning(o, raw, text).st.inThinking == o.st.inThinking
  {
  }

  lemma ReasonAndContentSteps(o: Out, c: Choice)
    requires o.st.inThinking ==> Opened(o.st)
    ensures var r := ReasonAndContent(o, c).0;
            Steps(o, r, Opens(c), Strays(Opened(o.st), c)) && (r.st.inThinking ==> Opened(r.st))
  {
    var (raw, text) := (ChoiceIndexRaw(c), ReasoningText(c.delta));
    ReasoningSteps(o, raw, text);
    ReasonThinks(o, raw, text);
    var o1 := ConvertReasoning(o, raw, text);
    ContentSteps(o1, raw, c.delta.content.AsStr());
    ContentThinks(o1, raw, c.delta.content.AsStr());
    StepsTwice(o, o1, ReasonAndContent(o, c).0, text != "", Tagged(c.delta.content.AsStr()), Strays(Opened(o.st), c));
  }

  lemma StepsTwice(o: Out, q: Out, r: Out, first: bool, second: bool, strays: bool)
    requires Steps(o, q, first, false) && Steps(q, r, second, strays)
    ensures Steps(o, r, first || second, strays)
  {
  }

  // ---------------------------------------------------------------- streams

  predicate AnyChoice(chunks: seq<Chunk>) {
    chunks != [] && (AnyChoice(chunks[..|chunks| - 1]) || chunks[|chunks| - 1].choice.Some?)
  }

  predicate OpenedBy(chunks: seq<Chunk>) {
    chunks != [] && (OpenedBy(chunks[..|chunks| - 1])
                     || (chunks[|chunks| - 1].choice.Some? && Opens(chunks[|chunks| - 1].choice.value)))
  }

  /** Some chunk closes a thinking span, with text before the tag, when neither it nor a chunk before it opened
      reasoning. */
  predicate HasStrayChunk(chunks: seq<Chunk>) {
    chunks != [] && (HasStrayChunk(chunks[..|chunks| - 1])
                     || (chunks[|chunks| - 1].choice.Some?
                         && Strays(OpenedBy(chunks[..|chunks| - 1]), chunks[|chunks| - 1].choice.value)))
  }

  ghost predicate Track(o: Out, chunks: seq<Chunk>) {
    && (o.st.started <==> AnyChoice(chunks)) && (!o.st.started ==> o.log == [] && !Opened(o.st))
    && (Opened(o.st) <==> OpenedBy(chunks)) && (o.st.inThinking ==> Opened(o.st))
    && (if HasStrayChunk(chunks) then HasStray(o.log) else AllNamed(NamesOf(o.st), o.log))
  }

  /** The first chunk fixes the response id before anything is emitted. */
  lemma StartNames(env: Env, o: Out, id: Raw)
    requires !o.st.started ==> o.log == []
    ensures var r := Start(env, o, id);
            && r.st.started && r.st.reason == o.st.reason && r.st.inThinking == o.st.inThinking
            && (HasStray(o.log) ==> HasStray(r.log))
            && (AllNamed(NamesOf(o.st), o.log) ==> AllNamed(NamesOf(r.st), r.log))
  {
  }

  lemma ChoiceTracks(env: Env, o: Out, chunks: seq<Chunk>, c: Chunk)
    requires Track(o, chunks) && c.choice.Some?
    ensures Track(ConvertChoice(env, o, c.id, c.choice.value), chunks + [c])
  {
    var ch := c.choice.value;
    assert (chunks + [c])[..|chunks|] == chunks;
    var o1 := Start(env, o, c.id);
    StartNames(env, o, c.id);
    ReasonAndContentSteps(o1, ch);
    var (o2, early) := ReasonAndContent(o1, ch);
    AfterContentKept(env, o2, ch);
    assert ConvertChoice(env, o, c.id, ch) == if early then o2 else AfterContent(env, o2, ch);
  }

  lemma ChunkTracks(env: Env, o: Out, chunks: seq<Chunk>, c: Chunk)
    requires Track(o, chunks)
    ensures Track(ConvertOn(env, o, Some(c)), chunks + [c])
  {
    if c.choice.Some? { ChoiceTracks(env, o, chunks, c); } else { assert (chunks + [c])[..|chunks|] == chunks; }
  }

  lemma TakeFirst(before: seq<Chunk>, chunks: seq<Chunk>)
    requires chunks != []
    ensures before + [chunks[0]] + chunks[1..] == before + chunks
  {
  }

  lemma {:induction false} RunTracks(env: Env, o: Out, before: seq<Chunk>, chunks: seq<Chunk>, all: seq<Chunk>)
    requires Track(o, before) && before + chunks == all
    ensures Track(Run(env, o, chunks), all)
    decreases |chunks|
  {
    if chunks == [] {
      assert before == all;
    } else {
      ChunkTracks(env, o, before, chunks[0]);
      TakeFirst(before, chunks);
      RunTracks(env, ConvertOn(env, o, Some(chunks[0])), before + [chunks[0]], chunks[1..], all);
    }
  }

  lemma StreamTracks(env: Env, responseId: string, chunks: seq<Chunk>)
    ensures var r := Stream(env, responseId, chunks);
            if HasStrayChunk(chunks) then HasStray(r.log) else AllNamed(NamesOf(r.st), r.log)
  {
    var o := Out(Fresh(responseId), 0, []);
    assert [] + chunks == chunks;
    RunTracks(env, o, [], chunks, chunks);
    var q := Run(env, o, chunks);
    FinishKept(env, q);
    FieldsKept(q, q);
    assert Kept(q, Flush(env, q));
  }

  /** Every response, message and reasoning event of a flushed stream names its own by the id in force, exactly when no
      chunk closes a thinking span, with text before the tag, that nothing opened. */
  lemma EventsNameTheirItems(env: Env, responseId: string, chunks: seq<Chunk>)
    ensures var r := Stream(env, responseId, chunks); AllNamed(NamesOf(r.st), r.log) <==> !HasStrayChunk(chunks)
  {
    var r := Stream(env, responseId, chunks);
    StreamTracks(env, responseId, chunks);
    if HasStrayChunk(chunks) { StrayIsUnnamed(NamesOf(r.st), r.log); }
  }

  /** It happens: the stream of the one chunk "x</think>" holds a reasoning delta of an item without id. */
  lemma StrayCloseHappens(env: Env, responseId: string)
    ensures var c := Chunk(Null, Some(Choice(Num(0), Delta(Null, Null, None, Str("x</think>"), None), Null)), Null);
            HasStray(Stream(env, responseId, [c]).log)
  {
    var c := Chunk(Null, Some(Choice(Num(0), Delta(Null, Null, None, Str("x</think>"), None), Null)), Null);
    StrayChunk(c);
    StreamTracks(env, responseId, [c]);
  }

  lemma TextBeforeTag()
    ensures Find("x</think>", CLOSE_TAG) == Some(1) && Find("x</think>", OPEN_TAG).None?
  {
    var content := "x</think>";
    assert content[1..] == CLOSE_TAG && content[0] == 'x' && CLOSE_TAG[0] == '<';
    assert StartsWith(content[1..], CLOSE_TAG) && !StartsWith(content, CLOSE_TAG);
    assert Find(content[1..], CLOSE_TAG) == Some(0);
    NoOpenTag(content);
  }

  lemma StrayChunk(c: Chunk)
    requires c.choice.Some? && ReasoningText(c.choice.value.delta) == ""
    requires c.choice.value.delta.content == Str("x</think>")
    ensures HasStrayChunk([c])
  {
    TextBeforeTag();
    assert [c][..0] == [];
    assert Strays(false, c.choice.value);
  }

  lemma OpenTagStarts(t: string)
    ensures StartsWith(t, OPEN_TAG) ==> |t| >= 2 && t[0] == '<' && t[1] == 't'
  {
    assert OPEN_TAG[0] == '<' && OPEN_TAG[1] == 't';
  }

  lemma NoOpenTag(content: string)
    requires forall i :: 0 <= i < |content| - 1 ==> content[i] == '<' ==> content[i + 1] != 't'
    ensures Find(content, OPEN_TAG).None?
  {
    FindIsFirst(content, OPEN_TAG);
    forall i | 0 <= i <= |content| ensures !StartsWith(content[i..], OPEN_TAG) {
      var t := content[i..];
      OpenTagStarts(t);
      assert forall k :: 0 <= k < |t| ==> t[k] == content[i + k];
    }
  }
}
