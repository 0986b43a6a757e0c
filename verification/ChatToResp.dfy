/**
 internal/translate/stream_chat2resp.go: the state machine that turns chat
 completion chunks into Responses events, one function per step. St is the
 accumulator, Out pairs it with the events emitted so far, and ConvertOn is the
 whole translation step. Module ChatToRespState has the object itself.
 */
module ChatToResp {
  import opened Basics
  import opened JsValues

  // ---------------------------------------------------------------- inputs

  datatype Detail = TextDetail(text: string) | ObjectDetail(textField: Raw, contentField: Raw) | OtherDetail

  /** A tool_calls element; a missing function reads as null name and arguments. */
  datatype ToolCall = ToolCall(index: Raw, id: Raw, name: Raw, args: Raw)

  datatype Delta = Delta(
    reasoningContent: Raw,
    reasoning: Raw,
    details: Option<seq<Detail>>,
    content: Raw,
    toolCalls: Option<seq<Option<ToolCall>>>)

  datatype Choice = Choice(index: Raw, delta: Delta, finish: Raw)

  /** choice is None when choices is missing, empty or does not start with an object. */
  datatype Chunk = Chunk(id: Raw, choice: Option<Choice>, error: Raw)

  /** Request-scoped facts: the declared custom tools, the clock reading, and JSON unmarshalling, which gives the
      string under "input" of a text that is an object with one. */
  datatype Env = Env(customNames: set<string>, unwrap: string -> Option<string>, clock: string)

  /** extractCustomToolInput of internal/translate: it trims white space before it unmarshals. */
  function StreamInput(env: Env, args: string): string {
    match env.unwrap(TrimSpace(args)) case Some(input) => input case None => args
  }

  function DetailText(d: Detail): string {
    match d
    case TextDetail(t) => t
    case ObjectDetail(t, c) => if t.AsStr() != "" then t.AsStr() else c.AsStr()
    case OtherDetail => ""
  }

  function DetailsText(ds: seq<Detail>): string {
    if ds == [] then "" else DetailText(ds[0]) + DetailsText(ds[1..])
  }

  /** ExtractReasoningText: the first vendor shape that carries text. */
  function ReasoningText(d: Delta): string {
    if d.reasoningContent.AsStr() != "" then d.reasoningContent.AsStr()
    else if d.reasoning.AsStr() != "" then d.reasoning.AsStr()
    else match d.details case None => "" case Some(ds) => DetailsText(ds)
  }

  // ---------------------------------------------------------------- outputs

  datatype Item =
    | ReasoningItem(id: string, summary: Option<string>)
    | MessageItem(id: string, text: Option<string>)
    | CallItem(id: string, custom: bool, callId: string, name: string, payload: string)

  datatype Body =
    | Created(responseId: string)
    | InProgress(responseId: string)
    | Completed(responseId: string)
    | ItemAdded(outIndex: Raw, item: Item)
    | ItemDone(outIndex: Raw, item: Item)
    | ReasoningPartAdded(itemId: string, outIndex: Raw)
    | ReasoningTextDelta(itemId: string, outIndex: Raw, delta: string)
    | ReasoningTextDone(itemId: string, outIndex: Raw, text: string)
    | ReasoningPartDone(itemId: string, outIndex: Raw, text: string)
    | ContentPartAdded(itemId: string, outIndex: Raw)
    | TextDelta(itemId: string, outIndex: Raw, delta: string)
    | TextDone(itemId: string, outIndex: Raw, text: string)
    | ContentPartDone(itemId: string, outIndex: Raw, text: string)
    | ArgsDelta(itemId: string, outIndex: Raw, fragment: Raw)
    | ArgsDone(itemId: string, outIndex: Raw, args: string)
    | CustomInputDelta(itemId: string, outIndex: Raw, delta: string)
    | CustomInputDone(itemId: string, outIndex: Raw, input: string)

  datatype Event = Event(sequence: int, body: Body)

  datatype Reasoning = Reasoning(id: string, index: Raw, done: bool, buf: string)

  datatype Messages = Messages(added: set<int>, contentAdded: set<int>, text: map<int, string>, done: set<int>)

  datatype Calls = Calls(ids: map<int, string>, names: map<int, string>, args: map<int, string>, added: set<int>,
                         done: set<int>)

  datatype St = St(
    started: bool,
    responseId: string,
    inThinking: bool,
    reason: Reasoning,
    msgs: Messages,
    calls: Calls,
    completed: bool)

  /** Reasoning has been opened. */
  predicate Opened(s: St) { s.reason.id != "" }

  function Fresh(responseId: string): St {
    St(false, responseId, false, Reasoning("", Null, false, ""), Messages({}, {}, map[], {}),
       Calls(map[], map[], map[], {}, {}), false)
  }

  /** The accumulator, the last sequence number, and everything emitted so far. */
  datatype Out = Out(st: St, seqNo: nat, log: seq<Event>)

  // ---------------------------------------------------------------- the translation

  function Emit(o: Out, body: Body): Out {
    Out(o.st, o.seqNo + 1, o.log + [Event(o.seqNo + 1, body)])
  }

  function WithReason(o: Out, r: Reasoning): Out { o.(st := o.st.(reason := r)) }

  function WithMsgs(o: Out, m: Messages): Out { o.(st := o.st.(msgs := m)) }

  function WithCalls(o: Out, c: Calls): Out { o.(st := o.st.(calls := c)) }

  function StartReasoning(o: Out, raw: Raw): Out {
    if o.st.reason.id != "" then o
    else
      var id := "rs_" + o.st.responseId + "_" + raw.JsString();
      var o1 := WithReason(o, o.st.reason.(id := id, index := raw));
      Emit(Emit(o1, ItemAdded(raw, ReasoningItem(id, None))), ReasoningPartAdded(id, raw))
  }

  function EmitReasoning(o: Out, text: string): Out {
    if text == "" then o
    else
      Emit(WithReason(o, o.st.reason.(buf := o.st.reason.buf + text)),
           ReasoningTextDelta(o.st.reason.id, o.st.reason.index, text))
  }

  function CloseReasoning(o: Out): Out {
    var r := o.st.reason;
    if r.id == "" || r.done then o
    else
      var o1 := WithReason(o, r.(done := true));
      Emit(Emit(Emit(o1, ReasoningTextDone(r.id, r.index, r.buf)), ReasoningPartDone(r.id, r.index, r.buf)),
           ItemDone(r.index, ReasoningItem(r.id, Some(r.buf))))
  }

  function MsgId(s: St, idx: int): string { "msg_" + s.responseId + "_" + Itoa(idx) }

  function AnnounceMessage(o: Out, raw: Raw): Out {
    var m := o.st.msgs;
    if JsIndex(raw) in m.added then o
    else Emit(WithMsgs(o, m.(added := m.added + {JsIndex(raw)})),
              ItemAdded(raw, MessageItem(MsgId(o.st, JsIndex(raw)), None)))
  }

  function AnnounceContent(o: Out, raw: Raw): Out {
    var m := o.st.msgs;
    if JsIndex(raw) in m.contentAdded then o
    else Emit(WithMsgs(o, m.(contentAdded := m.contentAdded + {JsIndex(raw)})),
              ContentPartAdded(MsgId(o.st, JsIndex(raw)), raw))
  }

  function AppendText(m: Messages, idx: int, content: string): Messages {
    m.(text := m.text[idx := GetS(m.text, idx) + content])
  }

  function EmitText(o: Out, raw: Raw, content: string): Out {
    var o1 := Emit(AnnounceContent(AnnounceMessage(o, raw), raw), TextDelta(MsgId(o.st, JsIndex(raw)), raw, content));
    WithMsgs(o1, AppendText(o1.st.msgs, JsIndex(raw), content))
  }

  function CloseMessage(o: Out, idx: int): Out {
    if idx !in o.st.msgs.added || idx in o.st.msgs.done then o
    else FinishMessage(o, idx, MsgId(o.st, idx))
  }

  function FinishMessage(o: Out, idx: int, id: string): Out {
    var m := o.st.msgs;
    var text := GetS(m.text, idx);
    var o1 := WithMsgs(o, m.(done := m.done + {idx}));
    Emit(Emit(Emit(o1, TextDone(id, Num(idx), text)), ContentPartDone(id, Num(idx), text)),
         ItemDone(Num(idx), MessageItem(id, Some(text))))
  }

  predicate IsCustom(env: Env, name: string) { name != "" && name in env.customNames }

  function CallIndexRaw(tc: ToolCall): Raw { if tc.index == Null then Num(0) else tc.index }

  function CallSlot(tc: ToolCall): int { JsIndex(CallIndexRaw(tc)) }

  /** The id and name a fragment carries overwrite what is known of its call. */
  function Identify(c: Calls, tc: ToolCall): Calls {
    c.(names := if tc.name.AsStr() != "" then c.names[CallSlot(tc) := tc.name.AsStr()] else c.names,
       ids := if tc.id.AsStr() != "" then c.ids[CallSlot(tc) := tc.id.AsStr()] else c.ids)
  }

  /** A call is announced once both its id and its name are known. */
  function AnnounceCall(env: Env, o: Out, raw: Raw): Out {
    var (c, idx) := (o.st.calls, JsIndex(raw));
    var (callId, name) := (GetS(c.ids, idx), GetS(c.names, idx));
    if idx in c.added || callId == "" || name == "" then o
    else
      var custom := IsCustom(env, name);
      Emit(WithCalls(o, c.(added := c.added + {idx})),
           ItemAdded(raw, CallItem((if custom then "ctc_" else "fc_") + callId, custom, callId, name, "")))
  }

  /** An arguments fragment is buffered always, and sent on as a delta once a plain call is announced. */
  function EmitArgs(env: Env, o: Out, raw: Raw, args: Raw, newId: string): Out {
    if !args.Truthy() then o
    else
      var (c, idx) := (o.st.calls, JsIndex(raw));
      var callId := if GetS(c.ids, idx) == "" then newId else GetS(c.ids, idx);
      var o1 := if idx in c.added && callId != "" && !IsCustom(env, GetS(c.names, idx))
                then Emit(o, ArgsDelta("fc_" + callId, raw, args)) else o;
      WithCalls(o1, c.(args := c.args[idx := GetS(c.args, idx) + args.JsString()]))
  }

  function EmitToolCall(env: Env, o: Out, tc: ToolCall): Out {
    EmitArgs(env, AnnounceCall(env, WithCalls(o, Identify(o.st.calls, tc)), CallIndexRaw(tc)),
             CallIndexRaw(tc), tc.args, tc.id.AsStr())
  }

  function EmitToolCalls(env: Env, o: Out, calls: seq<Option<ToolCall>>): Out
    decreases |calls|
  {
    if calls == [] then o
    else
      EmitToolCalls(env, if calls[0].Some? then EmitToolCall(env, o, calls[0].value) else o, calls[1..])
  }

  function CloseToolCall(env: Env, o: Out, idx: int): Out {
    var c := o.st.calls;
    var callId := GetS(c.ids, idx);
    if callId == "" || idx in c.done then o
    else
      var args := if GetS(c.args, idx) == "" then "{}" else GetS(c.args, idx);
      var name := GetS(c.names, idx);
      var o1 := if IsCustom(env, name) then CloseCustom(o, idx, callId, name, StreamInput(env, args))
                else CloseFunction(o, idx, callId, name, args);
      WithCalls(o1, c.(done := c.done + {idx}))
  }

  function CloseCustom(o: Out, idx: int, callId: string, name: string, input: string): Out {
    Emit(Emit(Emit(o, CustomInputDelta("ctc_" + callId, Num(idx), input)),
              CustomInputDone("ctc_" + callId, Num(idx), input)),
         ItemDone(Num(idx), CallItem("ctc_" + callId, true, callId, name, input)))
  }

  function CloseFunction(o: Out, idx: int, callId: string, name: string, args: string): Out {
    Emit(Emit(o, ArgsDone("fc_" + callId, Num(idx), args)),
         ItemDone(Num(idx), CallItem("fc_" + callId, false, callId, name, args)))
  }

  function SendCompleted(o: Out): Out {
    if o.st.completed then o
    else Emit(o.(st := o.st.(completed := true)), Completed(o.st.responseId))
  }

  function CloseMessages(o: Out, idxs: seq<int>): Out
    decreases |idxs|
  {
    if idxs == [] then o else CloseMessages(CloseMessage(o, idxs[0]), idxs[1..])
  }

  function CloseToolCalls(env: Env, o: Out, idxs: seq<int>): Out
    decreases |idxs|
  {
    if idxs == [] then o else CloseToolCalls(env, CloseToolCall(env, o, idxs[0]), idxs[1..])
  }

  /** Close every open item: messages, then reasoning, then calls, each in ascending index order. */
  function CloseAll(env: Env, o: Out): Out {
    var o1 := CloseReasoning(CloseMessages(o, SortedKeys(o.st.msgs.added)));
    CloseToolCalls(env, o1, SortedKeys(o1.st.calls.ids.Keys))
  }

  function Finish(env: Env, o: Out): Out { SendCompleted(CloseAll(env, o)) }

  function Flush(env: Env, o: Out): Out {
    if o.st.completed then o else Finish(env, o)
  }

  function Start(env: Env, o: Out, id: Raw): Out {
    if o.st.started then o
    else
      var named := if id.AsStr() != "" then "resp_" + id.AsStr() else o.st.responseId;
      var responseId := if named == "" then "resp_" + env.clock else named;
      var o1 := o.(st := o.st.(started := true, responseId := responseId));
      Emit(Emit(o1, Created(responseId)), InProgress(responseId))
  }

  const OPEN_TAG := "<think>"
  const CLOSE_TAG := "</think>"

  function OpenThinking(o: Out, raw: Raw, content: string): (Out, string) {
    if Tagged(content) then
      (StartReasoning(o.(st := o.st.(inThinking := true)), raw), RemoveFirst(content, OPEN_TAG))
    else (o, content)
  }

  function CloseThinking(o: Out, content: string): (Out, string) {
    match Find(content, CLOSE_TAG)
    case None => (o, content)
    case Some(i) => (EndThinking(o, content[..i]), content[i + |CLOSE_TAG|..])
  }

  function EndThinking(o: Out, lastPart: string): Out {
    var o1 := CloseReasoning(EmitReasoning(o, lastPart));
    o1.(st := o1.st.(inThinking := false))
  }

  predicate Tagged(content: string) { Find(content, OPEN_TAG).Some? }

  /** What is left of a chunk's content once its opening tag is out; the flag says that Convert returns early, still
      inside a thinking span. */
  function RestOfContent(o: Out, raw: Raw, content: string): (Out, bool) {
    var (o2, c2) := CloseThinking(o, content);
    if o2.st.inThinking && c2 != "" then (EmitReasoning(o2, c2), true)
    else (if c2 != "" then EmitText(o2, raw, c2) else o2, false)
  }

  function ConvertContent(o: Out, raw: Raw, content: string): (Out, bool) {
    if content == "" then (o, false)
    else
      var (o1, c1) := OpenThinking(o, raw, content);
      RestOfContent(o1, raw, c1)
  }

  function ConvertReasoning(o: Out, raw: Raw, text: string): Out {
    if text == "" then o else EmitReasoning(StartReasoning(o, raw), text)
  }

  function ConvertCalls(env: Env, o: Out, idx: int, calls: Option<seq<Option<ToolCall>>>): Out {
    if calls.None? || calls.value == [] then o
    else EmitToolCalls(env, CloseMessage(o, idx), calls.value)
  }

  function ChoiceIndexRaw(c: Choice): Raw { if c.index.Truthy() then c.index else Num(0) }

  function ConvertChoice(env: Env, o: Out, id: Raw, c: Choice): Out {
    var raw := ChoiceIndexRaw(c);
    var o1 := ConvertReasoning(Start(env, o, id), raw, ReasoningText(c.delta));
    var (o2, early) := ConvertContent(o1, raw, c.delta.content.AsStr());
    if early then o2
    else
      var o3 := ConvertCalls(env, o2, JsIndex(raw), c.delta.toolCalls);
      if c.finish.Truthy() then Finish(env, o3) else o3
  }

  /** Convert, with a nil chunk modelled as None. */
  function ConvertOn(env: Env, o: Out, chunk: Option<Chunk>): Out {
    match chunk
    case None => Flush(env, o)
    case Some(Chunk(id, choice, _)) =>
      match choice
      case None => o
      case Some(c) => ConvertChoice(env, o, id, c)
  }

  function Run(env: Env, o: Out, chunks: seq<Chunk>): Out
    decreases |chunks|
  {
    if chunks == [] then o else Run(env, ConvertOn(env, o, Some(chunks[0])), chunks[1..])
  }

  /** A whole stream: every chunk, then the closing flush. */
  function Stream(env: Env, responseId: string, chunks: seq<Chunk>): Out {
    Flush(env, Run(env, Out(Fresh(responseId), 0, []), chunks))
  }
}
