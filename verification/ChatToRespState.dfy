/**
 The accumulator object of internal/translate/stream_chat2resp.go: its methods
 update the fields in place and append to the event list they are handed.
 Every method is tied to its step function in module ChatToResp, so what
 EventLifecycle and Agreement prove of Stream holds of Translate.
 */
module ChatToRespState {
  import opened Basics
  import opened JsValues
  import opened ChatToResp

  class ChatToRespState {
    const env: Env
    var seqNo: nat
    var started: bool
    var responseId: string
    var inThinking: bool
    var reasoningId: string
    var reasoningIndex: Raw
    var reasoningDone: bool
    var reasoningBuf: string
    var msgItemAdded: set<int>
    var msgContentAdded: set<int>
    var msgTextBuf: map<int, string>
    var msgItemDone: set<int>
    var funcCallIds: map<int, string>
    var funcNames: map<int, string>
    var funcArgsBuf: map<int, string>
    var funcItemAdded: set<int>
    var funcItemDone: set<int>
    var completedSent: bool

    ghost function View(): St
      reads this
    {
      St(started, responseId, inThinking,
         Reasoning(reasoningId, reasoningIndex, reasoningDone, reasoningBuf),
         Messages(msgItemAdded, msgContentAdded, msgTextBuf, msgItemDone),
         Calls(funcCallIds, funcNames, funcArgsBuf, funcItemAdded, funcItemDone),
         completedSent)
    }

    /** The accumulator together with an event list. */
    ghost function With(events: seq<Event>): Out
      reads this
    {
      Out(View(), seqNo, events)
    }

    constructor (env: Env, responseId: string)
      ensures this.env == env && With([]) == Out(Fresh(responseId), 0, [])
    {
      this.env := env;
      this.responseId := responseId;
      seqNo, started, inThinking, completedSent := 0, false, false, false;
      reasoningId, reasoningIndex, reasoningDone, reasoningBuf := "", Null, false, "";
      msgItemAdded, msgContentAdded, msgTextBuf, msgItemDone := {}, {}, map[], {};
      funcCallIds, funcNames, funcArgsBuf, funcItemAdded, funcItemDone := map[], map[], map[], {}, {};
    }

    method EmitEvent(events: seq<Event>, body: Body) returns (out: seq<Event>)
      modifies this`seqNo
      ensures With(out) == Emit(old(With(events)), body)
    {
      seqNo := seqNo + 1;
      out := events + [Event(seqNo, body)];
    }

    method BeginReasoning(events: seq<Event>, raw: Raw) returns (out: seq<Event>)
      modifies this
      ensures With(out) == StartReasoning(old(With(events)), raw)
    {
      out := events;
      if reasoningId != "" {
        return;
      }
      reasoningId := "rs_" + responseId + "_" + raw.JsString();
      reasoningIndex := raw;
      out := EmitEvent(out, ItemAdded(raw, ReasoningItem(reasoningId, None)));
      out := EmitEvent(out, ReasoningPartAdded(reasoningId, raw));
    }

    method ReasoningDelta(events: seq<Event>, text: string) returns (out: seq<Event>)
      modifies this
      ensures With(out) == EmitReasoning(old(With(events)), text)
    {
      out := events;
      if text == "" {
        return;
      }
      reasoningBuf := reasoningBuf + text;
      out := EmitEvent(out, ReasoningTextDelta(reasoningId, reasoningIndex, text));
    }

    method EndReasoning(events: seq<Event>) returns (out: seq<Event>)
      modifies this
      ensures With(out) == CloseReasoning(old(With(events)))
    {
      out := events;
      if reasoningId == "" || reasoningDone {
        return;
      }
      reasoningDone := true;
      out := EmitEvent(out, ReasoningTextDone(reasoningId, reasoningIndex, reasoningBuf));
      out := EmitEvent(out, ReasoningPartDone(reasoningId, reasoningIndex, reasoningBuf));
      out := EmitEvent(out, ItemDone(reasoningIndex, ReasoningItem(reasoningId, Some(reasoningBuf))));
    }

    /** emitTextContent: announce the item, then the part, then the delta. */
    method TextContent(events: seq<Event>, raw: Raw, content: string) returns (out: seq<Event>)
      modifies this
      ensures With(out) == EmitText(old(With(events)), raw, content)
    {
      var idx := JsIndex(raw);
      out := AnnounceMessageItem(events, raw);
      out := AnnounceContentPart(out, raw);
      out := EmitEvent(out, TextDelta("msg_" + responseId + "_" + Itoa(idx), raw, content));
      msgTextBuf := msgTextBuf[idx := GetS(msgTextBuf, idx) + content];
    }

    method AnnounceMessageItem(events: seq<Event>, raw: Raw) returns (out: seq<Event>)
      modifies this
      ensures With(out) == AnnounceMessage(old(With(events)), raw)
    {
      out := events;
      var idx := JsIndex(raw);
      if idx !in msgItemAdded {
        msgItemAdded := msgItemAdded + {idx};
        out := EmitEvent(out, ItemAdded(raw, MessageItem("msg_" + responseId + "_" + Itoa(idx), None)));
      }
    }

    method AnnounceContentPart(events: seq<Event>, raw: Raw) returns (out: seq<Event>)
      modifies this
      ensures With(out) == AnnounceContent(old(With(events)), raw)
    {
      out := events;
      var idx := JsIndex(raw);
      if idx !in msgContentAdded {
        msgContentAdded := msgContentAdded + {idx};
        out := EmitEvent(out, ContentPartAdded("msg_" + responseId + "_" + Itoa(idx), raw));
      }
    }

    method EndMessage(events: seq<Event>, idx: int) returns (out: seq<Event>)
      modifies this
      ensures With(out) == CloseMessage(old(With(events)), idx)
    {
      out := events;
      if idx !in msgItemAdded || idx in msgItemDone {
        return;
      }
      msgItemDone := msgItemDone + {idx};
      var fullText := GetS(msgTextBuf, idx);
      var msgId := "msg_" + responseId + "_" + Itoa(idx);
      out := EmitEvent(out, TextDone(msgId, Num(idx), fullText));
      out := EmitEvent(out, ContentPartDone(msgId, Num(idx), fullText));
      out := EmitEvent(out, ItemDone(Num(idx), MessageItem(msgId, Some(fullText))));
    }

    /** emitToolCall: record the id and the name, announce the call once both are known, then take the fragment. */
    method ToolCallFragment(events: seq<Event>, tc: ToolCall) returns (out: seq<Event>)
      modifies this
      ensures With(out) == EmitToolCall(env, old(With(events)), tc)
    {
      var raw := CallIndexRaw(tc);
      RecordIdentity(tc);
      out := AnnounceToolCall(events, raw);
      out := ArgumentsFragment(out, raw, tc.args, tc.id.AsStr());
    }

    method RecordIdentity(tc: ToolCall)
      modifies this
      ensures View() == old(View()).(calls := Identify(old(View()).calls, tc)) && seqNo == old(seqNo)
    {
      var idx := CallSlot(tc);
      if tc.name.AsStr() != "" {
        funcNames := funcNames[idx := tc.name.AsStr()];
      }
      if tc.id.AsStr() != "" {
        funcCallIds := funcCallIds[idx := tc.id.AsStr()];
      }
    }

    method AnnounceToolCall(events: seq<Event>, raw: Raw) returns (out: seq<Event>)
      modifies this
      ensures With(out) == AnnounceCall(env, old(With(events)), raw)
    {
      out := events;
      var idx := JsIndex(raw);
      var callId, name := GetS(funcCallIds, idx), GetS(funcNames, idx);
      if idx !in funcItemAdded && callId != "" && name != "" {
        funcItemAdded := funcItemAdded + {idx};
        var custom := IsCustom(env, name);
        var prefix := if custom then "ctc_" else "fc_";
        out := EmitEvent(out, ItemAdded(raw, CallItem(prefix + callId, custom, callId, name, "")));
      }
    }

    method ArgumentsFragment(events: seq<Event>, raw: Raw, args: Raw, newId: string) returns (out: seq<Event>)
      modifies this
      ensures With(out) == EmitArgs(env, old(With(events)), raw, args, newId)
    {
      out := events;
      if args.Truthy() {
        var idx := JsIndex(raw);
        var refCallId := GetS(funcCallIds, idx);
        if refCallId == "" {
          refCallId := newId;
        }
        if idx in funcItemAdded && refCallId != "" && !IsCustom(env, GetS(funcNames, idx)) {
          out := EmitEvent(out, ArgsDelta("fc_" + refCallId, raw, args));
        }
        funcArgsBuf := funcArgsBuf[idx := GetS(funcArgsBuf, idx) + args.JsString()];
      }
    }

    method EndToolCall(events: seq<Event>, idx: int) returns (out: seq<Event>)
      modifies this
      ensures With(out) == CloseToolCall(env, old(With(events)), idx)
    {
      out := events;
      var callId := GetS(funcCallIds, idx);
      if callId == "" || idx in funcItemDone {
        return;
      }
      var args := GetS(funcArgsBuf, idx);
      if args == "" {
        args := "{}";
      }
      var name := GetS(funcNames, idx);
      if IsCustom(env, name) {
        var input := StreamInput(env, args);
        out := EmitEvent(out, CustomInputDelta("ctc_" + callId, Num(idx), input));
        out := EmitEvent(out, CustomInputDone("ctc_" + callId, Num(idx), input));
        out := EmitEvent(out, ItemDone(Num(idx), CallItem("ctc_" + callId, true, callId, name, input)));
      } else {
        out := EmitEvent(out, ArgsDone("fc_" + callId, Num(idx), args));
        out := EmitEvent(out, ItemDone(Num(idx), CallItem("fc_" + callId, false, callId, name, args)));
      }
      funcItemDone := funcItemDone + {idx};
    }

    method CompleteResponse(events: seq<Event>) returns (out: seq<Event>)
      modifies this
      ensures With(out) == SendCompleted(old(With(events)))
    {
      out := events;
      if completedSent {
        return;
      }
      completedSent := true;
      out := EmitEvent(out, Completed(responseId));
    }

    method EndMessages(events: seq<Event>, idxs: seq<int>) returns (out: seq<Event>)
      modifies this
      ensures With(out) == CloseMessages(old(With(events)), idxs)
    {
      out := events;
      for k := 0 to |idxs|
        invariant CloseMessages(With(out), idxs[k..]) == CloseMessages(old(With(events)), idxs)
      {
        assert idxs[k..][0] == idxs[k] && idxs[k..][1..] == idxs[k + 1..];
        out := EndMessage(out, idxs[k]);
      }
    }

    method EndToolCalls(events: seq<Event>, idxs: seq<int>) returns (out: seq<Event>)
      modifies this
      ensures With(out) == CloseToolCalls(env, old(With(events)), idxs)
    {
      out := events;
      for k := 0 to |idxs|
        invariant CloseToolCalls(env, With(out), idxs[k..]) == CloseToolCalls(env, old(With(events)), idxs)
      {
        assert idxs[k..][0] == idxs[k] && idxs[k..][1..] == idxs[k + 1..];
        out := EndToolCall(out, idxs[k]);
      }
    }

    /** The closing loops of a finish and of a flush. */
    method EndAll(events: seq<Event>) returns (out: seq<Event>)
      modifies this
      ensures With(out) == Finish(env, old(With(events)))
    {
      out := EndMessages(events, SortedKeys(msgItemAdded));
      out := EndReasoning(out);
      out := EndToolCalls(out, SortedKeys(funcCallIds.Keys));
      out := CompleteResponse(out);
    }

    method FlushEvents(events: seq<Event>) returns (out: seq<Event>)
      modifies this
      ensures With(out) == Flush(env, old(With(events)))
    {
      out := events;
      if completedSent {
        return;
      }
      out := EndAll(out);
    }

    method Begin(events: seq<Event>, id: Raw) returns (out: seq<Event>)
      modifies this
      ensures With(out) == Start(env, old(With(events)), id)
    {
      out := events;
      if started {
        return;
      }
      started := true;
      if id.AsStr() != "" {
        responseId := "resp_" + id.AsStr();
      }
      if responseId == "" {
        responseId := "resp_" + env.clock;
      }
      out := EmitEvent(out, Created(responseId));
      out := EmitEvent(out, InProgress(responseId));
    }

    method Content(events: seq<Event>, raw: Raw, text: string) returns (out: seq<Event>, early: bool)
      modifies this
      ensures (With(out), early) == ConvertContent(old(With(events)), raw, text)
    {
      out, early := events, false;
      if text == "" {
        return;
      }
      var content;
      out, content := OpenTag(out, raw, text);
      out, content := CloseTag(out, content);
      if inThinking && content != "" {
        out := ReasoningDelta(out, content);
        return out, true;
      }
      if content != "" {
        out := TextContent(out, raw, content);
      }
    }

    method OpenTag(events: seq<Event>, raw: Raw, text: string) returns (out: seq<Event>, content: string)
      modifies this
      ensures (With(out), content) == OpenThinking(old(With(events)), raw, text)
    {
      out, content := events, text;
      if Find(content, OPEN_TAG).Some? {
        inThinking := true;
        content := RemoveFirst(content, OPEN_TAG);
        out := BeginReasoning(out, raw);
      }
    }

    method CloseTag(events: seq<Event>, text: string) returns (out: seq<Event>, content: string)
      modifies this
      ensures (With(out), content) == CloseThinking(old(With(events)), text)
    {
      out, content := events, text;
      var at := Find(content, CLOSE_TAG);
      if at.Some? {
        out := ReasoningDelta(out, content[..at.value]);
        out := EndReasoning(out);
        inThinking := false;
        content := content[at.value + |CLOSE_TAG|..];
      }
    }

    method ToolCalls(events: seq<Event>, calls: seq<Option<ToolCall>>) returns (out: seq<Event>)
      modifies this
      ensures With(out) == EmitToolCalls(env, old(With(events)), calls)
    {
      out := events;
      for k := 0 to |calls|
        invariant EmitToolCalls(env, With(out), calls[k..]) == EmitToolCalls(env, old(With(events)), calls)
      {
        assert calls[k..][0] == calls[k] && calls[k..][1..] == calls[k + 1..];
        if calls[k].Some? {
          out := ToolCallFragment(out, calls[k].value);
        }
      }
    }

    method ChoiceEvents(events: seq<Event>, id: Raw, choice: Choice) returns (out: seq<Event>)
      modifies this
      ensures With(out) == ConvertChoice(env, old(With(events)), id, choice)
    {
      var raw := ChoiceIndexRaw(choice);
      out := Begin(events, id);
      var reasoningText := ReasoningText(choice.delta);
      if reasoningText != "" {
        out := BeginReasoning(out, raw);
        out := ReasoningDelta(out, reasoningText);
      }
      var early;
      out, early := Content(out, raw, choice.delta.content.AsStr());
      if early {
        return;
      }
      if choice.delta.toolCalls.Some? && |choice.delta.toolCalls.value| > 0 {
        out := EndMessage(out, JsIndex(raw));
        out := ToolCalls(out, choice.delta.toolCalls.value);
      }
      if choice.finish.Truthy() {
        out := EndAll(out);
      }
    }

    /** Convert: the events of one chunk are appended to those already sent; None is the nil chunk that flushes. */
    method Convert(sent: seq<Event>, chunk: Option<Chunk>) returns (out: seq<Event>)
      modifies this
      ensures With(out) == ConvertOn(env, old(With(sent)), chunk)
    {
      out := sent;
      if chunk.None? {
        out := FlushEvents(out);
      } else if chunk.value.choice.Some? {
        out := ChoiceEvents(out, chunk.value.id, chunk.value.choice.value);
      }
    }
  }

  /** A whole stream: one Convert per chunk, then the nil chunk. */
  method Translate(env: Env, responseId: string, chunks: seq<Chunk>) returns (events: seq<Event>)
    ensures events == Stream(env, responseId, chunks).log
  {
    var st := new ChatToRespState(env, responseId);
    events := [];
    for k := 0 to |chunks|
      invariant st.env == env
      invariant Run(env, st.With(events), chunks[k..]) == Run(env, Out(Fresh(responseId), 0, []), chunks)
    {
      assert chunks[k..][0] == chunks[k] && chunks[k..][1..] == chunks[k + 1..];
      events := st.Convert(events, Some(chunks[k]));
    }
    events := st.Convert(events, None);
  }
}
