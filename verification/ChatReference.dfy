/**
 The translator from chat chunks to Responses events read off its chunks alone:
 Script says, for each chunk and those before it, which events go out, in which
 order and with what in them. The stream's log is proved to be that script.
 */
module ChatReference {
  import opened Basics
  import opened JsValues
  import opened ChatToResp
  import opened StepEffects
  import opened Agreement
  import opened CallArguments
  import opened LostTexts
  import CallDeltas
  import AfterCompletion

  // ---------------------------------------------------------------- names

  /** Some chunk had a choice, and with it the response began. */
  predicate Began(chunks: seq<Chunk>) {
    chunks != [] && (Began(chunks[..|chunks| - 1]) || chunks[|chunks| - 1].choice.Some?)
  }

  /** The response goes by the id of the chunk it began with, or what the request gave it, or the clock. */
  function ResponseName(env: Env, given: string, chunks: seq<Chunk>): string {
    if chunks == [] then given
    else
      var (front, last) := (chunks[..|chunks| - 1], chunks[|chunks| - 1]);
      if Began(front) || last.choice.None? then ResponseName(env, given, front)
      else if last.id.Str? && last.id.s != "" then "resp_" + last.id.s
      else if given != "" then given
      else "resp_" + env.clock
  }

  /** The output index a chunk's choice gives its items. */
  function PlaceOf(c: Chunk): Raw {
    if c.choice.Some? && c.choice.value.index.Truthy() then c.choice.value.index else Num(0)
  }

  datatype Named = Named(id: string, place: Raw)

  /** The reasoning item goes by the chunk that opened it; nothing before. */
  function ReasonName(env: Env, given: string, chunks: seq<Chunk>): Named {
    if chunks == [] then Named("", Null)
    else
      var (front, last) := (chunks[..|chunks| - 1], chunks[|chunks| - 1]);
      if !OpenedBy(front) && Opens(last)
      then Named("rs_" + ResponseName(env, given, chunks) + "_" + PlaceOf(last).JsString(), PlaceOf(last))
      else ReasonName(env, given, front)
  }

  function MessageName(env: Env, given: string, chunks: seq<Chunk>, i: int): string {
    "msg_" + ResponseName(env, given, chunks) + "_" + Itoa(i)
  }

  // ---------------------------------------------------------------- groups of events

  function OpenReason(n: Named): seq<Body> {
    [ItemAdded(n.place, ReasoningItem(n.id, None)), ReasoningPartAdded(n.id, n.place)]
  }

  function SayReason(n: Named, text: string): seq<Body> {
    if text == "" then [] else [ReasoningTextDelta(n.id, n.place, text)]
  }

  function EndReason(n: Named, text: string): seq<Body> {
    [ReasoningTextDone(n.id, n.place, text), ReasoningPartDone(n.id, n.place, text),
     ItemDone(n.place, ReasoningItem(n.id, Some(text)))]
  }

  function OpenMessage(id: string, place: Raw): seq<Body> {
    [ItemAdded(place, MessageItem(id, None)), ContentPartAdded(id, place)]
  }

  /** A piece of message text, after the opening of a message that has none yet. */
  function SayText(id: string, place: Raw, first: bool, text: string): seq<Body> {
    if text == "" then [] else (if first then OpenMessage(id, place) else []) + [TextDelta(id, place, text)]
  }

  function EndMessage(id: string, i: int, text: string): seq<Body> {
    [TextDone(id, Num(i), text), ContentPartDone(id, Num(i), text), ItemDone(Num(i), MessageItem(id, Some(text)))]
  }

  /** The tool is one of those the request declared as custom. */
  predicate CustomTool(env: Env, name: string) { name != "" && name in env.customNames }

  /** What the last fragment of fs makes go out: its call is announced when its id and its name have just become known,
      under the last of each, and its arguments follow if the call is known and plain. */
  function SayFragment(env: Env, fs: seq<ToolCall>, f: ToolCall): seq<Body> {
    var i := CallSlot(f);
    var (id, name, place) := (LastId(fs + [f], i), LastName(fs + [f], i), if f.index == Null then Num(0) else f.index);
    var (known, knew) := (id != "" && name != "", LastId(fs, i) != "" && LastName(fs, i) != "");
    var custom := CustomTool(env, name);
    (if known && !knew then [ItemAdded(place, CallItem((if custom then "ctc_" else "fc_") + id, custom, id, name, ""))]
     else [])
    + (if known && !custom && f.args.Truthy() then [ArgsDelta("fc_" + id, place, f.args)] else [])
  }

  /** Fragments gs that come after fs. */
  function SayFragments(env: Env, fs: seq<ToolCall>, gs: seq<ToolCall>): seq<Body>
    decreases |gs|
  {
    if gs == [] then [] else SayFragment(env, fs, gs[0]) + SayFragments(env, fs + [gs[0]], gs[1..])
  }

  /** The close of slot i, with the last id and name and the joined arguments of its fragments. */
  function EndCall(env: Env, fs: seq<ToolCall>, i: int): seq<Body> {
    var (id, name) := (LastId(fs, i), LastName(fs, i));
    var args := if JoinedArgs(fs, i) == "" then "{}" else JoinedArgs(fs, i);
    if CustomTool(env, name) then
      var input := match env.unwrap(TrimSpace(args)) case Some(s) => s case None => args;
      [CustomInputDelta("ctc_" + id, Num(i), input), CustomInputDone("ctc_" + id, Num(i), input),
       ItemDone(Num(i), CallItem("ctc_" + id, true, id, name, input))]
    else [ArgsDone("fc_" + id, Num(i), args), ItemDone(Num(i), CallItem("fc_" + id, false, id, name, args))]
  }

  // ---------------------------------------------------------------- what is open

  /** The messages that were sent text. */
  function MessagesOf(chunks: seq<Chunk>): set<int> {
    if chunks == [] then {}
    else
      var (front, last) := (chunks[..|chunks| - 1], chunks[|chunks| - 1]);
      MessagesOf(front) + (if last.choice.Some? && TextPart(Thinking(front), last) != "" then {IndexOf(last)} else {})
  }

  /** The slots that were given an id. */
  function Identified(fs: seq<ToolCall>): set<int> {
    if fs == [] then {}
    else
      var f := fs[|fs| - 1];
      Identified(fs[..|fs| - 1]) + (if f.id.AsStr() != "" then {CallSlot(f)} else {})
  }

  /** Closing the messages of a list that were not closed by then; shut is one more that is. */
  function EndMessages(env: Env, given: string, front: seq<Chunk>, chunks: seq<Chunk>, shut: Option<int>,
                       idxs: seq<int>): seq<Body>
    decreases |idxs|
  {
    if idxs == [] then []
    else
      (if ClosedText(front, idxs[0]).None? && shut != Some(idxs[0])
       then EndMessage(MessageName(env, given, chunks, idxs[0]), idxs[0], TextSent(chunks, idxs[0])) else [])
      + EndMessages(env, given, front, chunks, shut, idxs[1..])
  }

  /** Closing the calls of a list that were not closed by then. */
  function EndCalls(env: Env, front: seq<Chunk>, fs: seq<ToolCall>, idxs: seq<int>): seq<Body>
    decreases |idxs|
  {
    if idxs == [] then []
    else (if Closed(front, idxs[0]).None? then EndCall(env, fs, idxs[0]) else []) + EndCalls(env, front, fs, idxs[1..])
  }

  // ---------------------------------------------------------------- the script

  /** The framing of the response, with the chunk it begins with. */
  function SayStart(env: Env, given: string, front: seq<Chunk>, chunks: seq<Chunk>): seq<Body> {
    var name := ResponseName(env, given, chunks);
    if Began(front) then [] else [Created(name), InProgress(name)]
  }

  /** What a chunk's own reasoning and its content make go out. */
  function SaySpeech(env: Env, given: string, front: seq<Chunk>, c: Chunk): seq<Body>
    requires c.choice.Some?
  {
    var (chunks, own, content) := (front + [c], ReasoningText(c.choice.value.delta), ChunkText(c));
    var (reason, text, _) := Split(Thinking(front), content);
    var (name, message) := (ReasonName(env, given, chunks), MessageName(env, given, chunks, IndexOf(c)));
    var closes := ClosesTag(content) && OpenedBy(chunks) && ClosedReason(front).None?;
    SayStart(env, given, front, chunks)
    + ((if !OpenedBy(front) && own != "" then OpenReason(name) else []) + SayReason(name, own))
    + ((if !OpenedBy(front) && own == "" && Tagged(content) then OpenReason(name) else [])
       + (SayReason(name, reason) + (if closes then EndReason(name, ReasonSent(chunks)) else [])
          + SayText(message, PlaceOf(c), TextSent(front, IndexOf(c)) == "", text)))
  }

  /** What a chunk's tool calls make go out: the close of its message first. */
  function SayCalls(env: Env, given: string, front: seq<Chunk>, c: Chunk): seq<Body> {
    if !BringsCalls(c) then []
    else
      var (chunks, i) := (front + [c], IndexOf(c));
      (if TextSent(chunks, i) != "" && ClosedText(front, i).None?
       then EndMessage(MessageName(env, given, chunks, i), i, TextSent(chunks, i)) else [])
      + SayFragments(env, Taken(front), ChunkFragments(c))
  }

  /** What a finish makes go out: messages, then the reasoning, then calls, each in ascending order, then the
      completion. shut is a message that the finishing chunk's tool calls have closed already; ended says that its
      closing tag has closed the reasoning. */
  function SayFinish(env: Env, given: string, front: seq<Chunk>, chunks: seq<Chunk>, shut: Option<int>, ended: bool):
      seq<Body>
  {
    EndMessages(env, given, front, chunks, shut, SortedKeys(MessagesOf(chunks)))
    + (if OpenedBy(chunks) && ClosedReason(front).None? && !ended
       then EndReason(ReasonName(env, given, chunks), ReasonSent(chunks)) else [])
    + EndCalls(env, front, Taken(chunks), SortedKeys(Identified(Taken(chunks))))
    + (if AnyFinish(front) then [] else [Completed(ResponseName(env, given, chunks))])
  }

  /** The tool calls and the finish of a chunk. */
  function SayTail(env: Env, given: string, front: seq<Chunk>, c: Chunk): seq<Body>
    requires c.choice.Some?
  {
    SayCalls(env, given, front, c)
    + (if c.choice.value.finish.Truthy()
       then SayFinish(env, given, front, front + [c], if BringsCalls(c) then Some(IndexOf(c)) else None,
                      ClosesTag(ChunkText(c)))
       else [])
  }

  /** What chunk c makes go out; a content that ends inside a thinking span hides what else it brings. */
  function Says(env: Env, given: string, front: seq<Chunk>, c: Chunk): seq<Body> {
    if c.choice.None? then []
    else
      SaySpeech(env, given, front, c)
      + (if EndsThinking(Thinking(front), ChunkText(c)) then [] else SayTail(env, given, front, c))
  }

  function Script(env: Env, given: string, chunks: seq<Chunk>): seq<Body> {
    if chunks == [] then []
    else
      var (front, last) := (chunks[..|chunks| - 1], chunks[|chunks| - 1]);
      Script(env, given, front) + Says(env, given, front, last)
  }

  /** The stream nobody finished is finished by the flush. */
  function FullScript(env: Env, given: string, chunks: seq<Chunk>): seq<Body> {
    Script(env, given, chunks)
    + (if AnyFinish(chunks) then [] else SayFinish(env, given, chunks, chunks, None, false))
  }

  function Bodies(log: seq<Event>): (bs: seq<Body>)
    ensures |bs| == |log|
  {
    seq(|log|, p requires 0 <= p < |log| => log[p].body)
  }

  // ---------------------------------------------------------------- steps and what they emit

  /** r is o with these events more. */
  ghost predicate Emits(o: Out, r: Out, bs: seq<Body>) { Bodies(r.log) == Bodies(o.log) + bs }

  lemma EmitsOne(o: Out, b: Body)
    ensures Emits(o, Emit(o, b), [b])
  {
  }

  lemma EmitsNone(o: Out, r: Out)
    requires r.log == o.log
    ensures Emits(o, r, [])
  {
  }

  lemma EmitsTwice(o: Out, q: Out, r: Out, a: seq<Body>, b: seq<Body>)
    requires Emits(o, q, a) && Emits(q, r, b)
    ensures Emits(o, r, a + b)
  {
    Assoc(Bodies(o.log), a, b);
  }

  lemma EmitsTwo(o: Out, a: Body, b: Body)
    ensures Emits(o, Emit(Emit(o, a), b), [a, b])
  {
    EmitsOne(o, a);
    EmitsOne(Emit(o, a), b);
    EmitsTwice(o, Emit(o, a), Emit(Emit(o, a), b), [a], [b]);
    assert [a] + [b] == [a, b];
  }

  lemma EmitsThree(o: Out, a: Body, b: Body, c: Body)
    ensures Emits(o, Emit(Emit(Emit(o, a), b), c), [a, b, c])
  {
    EmitsTwo(o, a, b);
    EmitsOne(Emit(Emit(o, a), b), c);
    EmitsTwice(o, Emit(Emit(o, a), b), Emit(Emit(Emit(o, a), b), c), [a, b], [c]);
    assert [a, b] + [c] == [a, b, c];
  }

  function NameOf(r: Reasoning): Named { Named(r.id, r.index) }

  lemma StartSays(env: Env, o: Out, id: Raw)
    ensures var r := Start(env, o, id);
            && Emits(o, r, if o.st.started then [] else [Created(r.st.responseId), InProgress(r.st.responseId)])
            && r.st == o.st.(started := true, responseId := r.st.responseId)
            && r.st.responseId == (if o.st.started then o.st.responseId
                                   else if id.Str? && id.s != "" then "resp_" + id.s
                                   else if o.st.responseId != "" then o.st.responseId else "resp_" + env.clock)
  {
    if o.st.started {
      EmitsNone(o, o);
    } else {
      var r := Start(env, o, id);
      EmitsTwo(o.(st := r.st), Created(r.st.responseId), InProgress(r.st.responseId));
    }
  }

  /** The name a reasoning item opened at this place would get. */
  function NewReason(s: St, raw: Raw): Named { Named("rs_" + s.responseId + "_" + raw.JsString(), raw) }

  lemma StartReasoningSays(o: Out, raw: Raw)
    ensures var (r, n) := (StartReasoning(o, raw), NewReason(o.st, raw));
            && Emits(o, r, if Opened(o.st) then [] else OpenReason(n))
            && r.st == (if Opened(o.st) then o.st else o.st.(reason := o.st.reason.(id := n.id, index := n.place)))
  {
    if Opened(o.st) {
      EmitsNone(o, o);
    } else {
      var (r, n) := (StartReasoning(o, raw), NewReason(o.st, raw));
      EmitsTwo(o.(st := r.st), ItemAdded(n.place, ReasoningItem(n.id, None)), ReasoningPartAdded(n.id, n.place));
    }
  }

  lemma EmitReasoningSays(o: Out, text: string)
    ensures Emits(o, EmitReasoning(o, text), SayReason(NameOf(o.st.reason), text))
    ensures EmitReasoning(o, text).st == o.st.(reason := o.st.reason.(buf := o.st.reason.buf + text))
  {
    if text == "" {
      assert o.st.reason.buf + text == o.st.reason.buf;
      EmitsNone(o, o);
    } else {
      EmitsOne(o, ReasoningTextDelta(o.st.reason.id, o.st.reason.index, text));
    }
  }

  lemma CloseReasoningSays(o: Out)
    ensures Emits(o, CloseReasoning(o), if ReasonDue(o.st) then EndReason(NameOf(o.st.reason), o.st.reason.buf) else [])
    ensures CloseReasoning(o).st == o.st.(reason := o.st.reason.(done := o.st.reason.done || Opened(o.st)))
  {
    var r := o.st.reason;
    if ReasonDue(o.st) {
      EmitsThree(o, ReasoningTextDone(r.id, r.index, r.buf), ReasoningPartDone(r.id, r.index, r.buf),
                 ItemDone(r.index, ReasoningItem(r.id, Some(r.buf))));
    } else {
      EmitsNone(o, o);
    }
  }

  lemma EmitTextSays(o: Out, raw: Raw, text: string)
    requires o.st.msgs.contentAdded == o.st.msgs.added
    ensures var (r, i) := (EmitText(o, raw, text), JsIndex(raw));
            && Emits(o, r, (if i in o.st.msgs.added then [] else OpenMessage(MsgId(o.st, i), raw))
                           + [TextDelta(MsgId(o.st, i), raw, text)])
            && r.st.msgs.contentAdded == r.st.msgs.added == o.st.msgs.added + {i}
            && r.st == o.st.(msgs := r.st.msgs)
  {
    var (i, id) := (JsIndex(raw), MsgId(o.st, JsIndex(raw)));
    var o2 := AnnounceContent(AnnounceMessage(o, raw), raw);
    if i in o.st.msgs.added {
      assert o.st.msgs.added + {i} == o.st.msgs.added;
      EmitsNone(o, o2);
    } else {
      EmitsTwo(o, ItemAdded(raw, MessageItem(id, None)), ContentPartAdded(id, raw));
    }
    EmitsOne(o2, TextDelta(id, raw, text));
    EmitsTwice(o, o2, Emit(o2, TextDelta(id, raw, text)), if i in o.st.msgs.added then [] else OpenMessage(id, raw),
               [TextDelta(id, raw, text)]);
  }

  lemma CloseMessageSays(o: Out, i: int)
    ensures Emits(o, CloseMessage(o, i), if TextDue(o.st, i) then EndMessage(MsgId(o.st, i), i, GetS(o.st.msgs.text, i))
                                         else [])
  {
    var (id, text) := (MsgId(o.st, i), GetS(o.st.msgs.text, i));
    if TextDue(o.st, i) {
      EmitsThree(o, TextDone(id, Num(i), text), ContentPartDone(id, Num(i), text),
                 ItemDone(Num(i), MessageItem(id, Some(text))));
    } else {
      EmitsNone(o, o);
    }
  }

  // ---------------------------------------------------------------- a chunk's content

  function TextOut(s: St, raw: Raw, text: string): seq<Body> {
    SayText(MsgId(s, JsIndex(raw)), raw, JsIndex(raw) !in s.msgs.added, text)
  }

  /** The rest of a content, once its opening tag is out. */
  function RestOut(s: St, raw: Raw, reason: string, text: string, closes: bool): seq<Body> {
    SayReason(NameOf(s.reason), reason)
    + (if closes && ReasonDue(s) then EndReason(NameOf(s.reason), s.reason.buf + reason) else [])
    + TextOut(s, raw, text)
  }

  lemma MaybeTextSays(o: Out, raw: Raw, text: string)
    requires o.st.msgs.contentAdded == o.st.msgs.added
    ensures var r := if text != "" then EmitText(o, raw, text) else o;
            && Emits(o, r, TextOut(o.st, raw, text)) && r.st.msgs.contentAdded == r.st.msgs.added
            && r.st == o.st.(msgs := r.st.msgs)
  {
    if text == "" { EmitsNone(o, o); } else { EmitTextSays(o, raw, text); }
  }

  lemma EndThinkingSays(o: Out, text: string)
    ensures var (r, s) := (EndThinking(o, text), o.st);
            && Emits(o, r, SayReason(NameOf(s.reason), text)
                           + (if ReasonDue(s) then EndReason(NameOf(s.reason), s.reason.buf + text) else []))
            && r.st == s.(inThinking := false, reason := r.st.reason) && NameOf(r.st.reason) == NameOf(s.reason)
  {
    var o1 := EmitReasoning(o, text);
    var o2 := CloseReasoning(o1);
    EmitReasoningSays(o, text);
    CloseReasoningSays(o1);
    EmitsTwice(o, o1, o2, SayReason(NameOf(o.st.reason), text),
               if ReasonDue(o.st) then EndReason(NameOf(o.st.reason), o.st.reason.buf + text) else []);
  }

  lemma ClosedRestSays(o: Out, raw: Raw, content: string, i: nat)
    requires Find(content, CLOSE_TAG) == Some(i) && o.st.msgs.contentAdded == o.st.msgs.added
    ensures var r := RestOfContent(o, raw, content).0;
            && Emits(o, r, RestOut(o.st, raw, content[..i], content[i + |CLOSE_TAG|..], true))
            && r.st.msgs.contentAdded == r.st.msgs.added && NameOf(r.st.reason) == NameOf(o.st.reason)
  {
    var (reason, text) := (content[..i], content[i + |CLOSE_TAG|..]);
    var o1 := EndThinking(o, reason);
    var o2 := if text != "" then EmitText(o1, raw, text) else o1;
    EndThinkingSays(o, reason);
    MaybeTextSays(o1, raw, text);
    assert RestOfContent(o, raw, content) == (o2, false);
    EmitsTwice(o, o1, o2, SayReason(NameOf(o.st.reason), reason)
               + (if ReasonDue(o.st) then EndReason(NameOf(o.st.reason), o.st.reason.buf + reason) else []),
               TextOut(o.st, raw, text));
  }

  lemma ThinkingRestSays(o: Out, raw: Raw, content: string)
    requires Find(content, CLOSE_TAG).None? && o.st.inThinking && o.st.msgs.contentAdded == o.st.msgs.added
    ensures var r := RestOfContent(o, raw, content).0;
            && Emits(o, r, RestOut(o.st, raw, content, "", false))
            && r.st.msgs.contentAdded == r.st.msgs.added && NameOf(r.st.reason) == NameOf(o.st.reason)
  {
    var r := EmitReasoning(o, content);
    EmitReasoningSays(o, content);
    assert RestOfContent(o, raw, content) == (r, content != "");
    assert RestOut(o.st, raw, content, "", false) == SayReason(NameOf(o.st.reason), content);
  }

  lemma PlainRestSays(o: Out, raw: Raw, content: string)
    requires Find(content, CLOSE_TAG).None? && !o.st.inThinking && o.st.msgs.contentAdded == o.st.msgs.added
    ensures var r := RestOfContent(o, raw, content).0;
            && Emits(o, r, RestOut(o.st, raw, "", content, false))
            && r.st.msgs.contentAdded == r.st.msgs.added && NameOf(r.st.reason) == NameOf(o.st.reason)
  {
    var r := if content != "" then EmitText(o, raw, content) else o;
    MaybeTextSays(o, raw, content);
    assert RestOfContent(o, raw, content) == (r, false);
    assert RestOut(o.st, raw, "", content, false) == TextOut(o.st, raw, content);
  }

  lemma RestSays(o: Out, o1: Out, raw: Raw, content: string)
    requires content != "" && o1.st.inThinking == (o.st.inThinking || Tagged(content))
    requires o1.st.msgs.contentAdded == o1.st.msgs.added
    ensures var (r, (reason, text, _)) := (RestOfContent(o1, raw, Untagged(content)).0,
                                           Split(o.st.inThinking, content));
            && Emits(o1, r, RestOut(o1.st, raw, reason, text, ClosesTag(content)))
            && r.st.msgs.contentAdded == r.st.msgs.added && NameOf(r.st.reason) == NameOf(o1.st.reason)
  {
    var c := Untagged(content);
    match Find(c, CLOSE_TAG) {
      case Some(i) =>
        assert Split(o.st.inThinking, content) == (c[..i], c[i + |CLOSE_TAG|..], false);
        ClosedRestSays(o1, raw, c, i);
      case None =>
        if o1.st.inThinking {
          assert Split(o.st.inThinking, content) == (c, "", true);
          ThinkingRestSays(o1, raw, c);
        } else {
          assert Split(o.st.inThinking, content) == ("", c, false);
          PlainRestSays(o1, raw, c);
        }
    }
  }

  /** The reasoning item's name once a content's opening tag, if it has one, is out. */
  function NameAfter(s: St, raw: Raw, content: string): Named {
    if !Opened(s) && Tagged(content) then NewReason(s, raw) else NameOf(s.reason)
  }

  /** What a content makes go out, said of the state it finds. */
  function ContentOut(s: St, raw: Raw, content: string): seq<Body> {
    var (reason, text, _) := Split(s.inThinking, content);
    var (n, begun) := (NameAfter(s, raw, content), Opened(s) || Tagged(content));
    (if !Opened(s) && Tagged(content) then OpenReason(n) else [])
    + (SayReason(n, reason)
       + (if ClosesTag(content) && begun && !s.reason.done then EndReason(n, s.reason.buf + reason) else [])
       + TextOut(s, raw, text))
  }

  lemma OpenThinkingSays(o: Out, raw: Raw, content: string)
    ensures var (r, n) := (OpenThinking(o, raw, content).0, NameAfter(o.st, raw, content));
            && Emits(o, r, if !Opened(o.st) && Tagged(content) then OpenReason(n) else [])
            && r.st == o.st.(inThinking := o.st.inThinking || Tagged(content), reason := r.st.reason)
            && r.st.reason == o.st.reason.(id := n.id, index := n.place)
  {
    if Tagged(content) {
      StartReasoningSays(o.(st := o.st.(inThinking := true)), raw);
    } else {
      EmitsNone(o, o);
    }
  }

  lemma ContentSays(o: Out, raw: Raw, content: string)
    requires o.st.msgs.contentAdded == o.st.msgs.added
    ensures var r := ConvertContent(o, raw, content).0;
            && Emits(o, r, ContentOut(o.st, raw, content)) && r.st.msgs.contentAdded == r.st.msgs.added
            && NameOf(r.st.reason) == NameAfter(o.st, raw, content)
  {
    if content == "" {
      EmptySplit(o.st.inThinking);
      EmitsNone(o, o);
    } else {
      var o1 := OpenThinking(o, raw, content).0;
      OpenThinkingSays(o, raw, content);
      OpenThinkingDoes(o, raw, content);
      RestSays(o, o1, raw, content);
      var (reason, text, _) := Split(o.st.inThinking, content);
      RestOutAfter(o.st, o1.st, raw, content, reason, text);
      EmitsTwice(o, o1, RestOfContent(o1, raw, Untagged(content)).0,
                 if !Opened(o.st) && Tagged(content) then OpenReason(NameAfter(o.st, raw, content)) else [],
                 RestOut(o1.st, raw, reason, text, ClosesTag(content)));
    }
  }

  lemma RestOutAfter(s: St, t: St, raw: Raw, content: string, reason: string, text: string)
    requires t == s.(inThinking := t.inThinking, reason := t.reason)
    requires var n := NameAfter(s, raw, content); t.reason == s.reason.(id := n.id, index := n.place)
    ensures var (n, begun) := (NameAfter(s, raw, content), Opened(s) || Tagged(content));
            RestOut(t, raw, reason, text, ClosesTag(content))
            == SayReason(n, reason)
               + (if ClosesTag(content) && begun && !s.reason.done then EndReason(n, s.reason.buf + reason) else [])
               + TextOut(s, raw, text)
  {
    assert !Opened(s) && Tagged(content) ==> NewReason(s, raw).id[0] == 'r';
  }

  // ---------------------------------------------------------------- tool calls

  lemma AnnounceSays(env: Env, o: Out, tc: ToolCall, fs: seq<ToolCall>)
    requires CallsTrack(o.st.calls, fs) && CallDeltas.Announced(o.st.calls, fs)
    ensures var i := CallSlot(tc);
            var (id, name, place) := (LastId(fs + [tc], i), LastName(fs + [tc], i), CallIndexRaw(tc));
            var (known, knew, custom) := (id != "" && name != "", CallDeltas.KnownBy(fs, i), CustomTool(env, name));
            Emits(o, AnnounceCall(env, WithCalls(o, Identify(o.st.calls, tc)), place),
                  if known && !knew
                  then [ItemAdded(place, CallItem((if custom then "ctc_" else "fc_") + id, custom, id, name, ""))]
                  else [])
  {
    var i := CallSlot(tc);
    var o1 := WithCalls(o, Identify(o.st.calls, tc));
    var (id, name) := (LastId(fs + [tc], i), LastName(fs + [tc], i));
    CallTracksAt(o.st.calls, tc, fs, i);
    assert i in o.st.calls.added <==> CallDeltas.KnownBy(fs, i);
    EmitsOne(o1, ItemAdded(CallIndexRaw(tc), CallItem((if CustomTool(env, name) then "ctc_" else "fc_") + id,
                                                      CustomTool(env, name), id, name, "")));
    EmitsNone(o, o1);
  }

  lemma ArgsSay(env: Env, o: Out, tc: ToolCall, id: string, name: string)
    requires GetS(o.st.calls.ids, CallSlot(tc)) == id && GetS(o.st.calls.names, CallSlot(tc)) == name
    requires CallSlot(tc) in o.st.calls.added <==> id != "" && name != ""
    ensures var sends := id != "" && name != "" && !CustomTool(env, name) && tc.args.Truthy();
            Emits(o, EmitArgs(env, o, CallIndexRaw(tc), tc.args, tc.id.AsStr()),
                  if sends then [ArgsDelta("fc_" + id, CallIndexRaw(tc), tc.args)] else [])
  {
    EmitsOne(o, ArgsDelta("fc_" + id, CallIndexRaw(tc), tc.args));
    EmitsNone(o, o);
  }

  lemma FragmentSays(env: Env, o: Out, tc: ToolCall, fs: seq<ToolCall>)
    requires CallDeltas.Following(env, o, fs)
    ensures Emits(o, EmitToolCall(env, o, tc), SayFragment(env, fs, tc))
  {
    var i := CallSlot(tc);
    var (id, name) := (LastId(fs + [tc], i), LastName(fs + [tc], i));
    var o2 := AnnounceCall(env, WithCalls(o, Identify(o.st.calls, tc)), CallIndexRaw(tc));
    AnnounceSays(env, o, tc, fs);
    CallDeltas.FragmentAnnounced(env, o, tc, fs);
    assert i in o2.st.calls.added <==> CallDeltas.KnownBy(fs + [tc], i);
    ArgsSay(env, o2, tc, id, name);
    FragmentJoins(env, o, o2, tc, fs);
  }

  lemma FragmentJoins(env: Env, o: Out, o2: Out, tc: ToolCall, fs: seq<ToolCall>)
    requires o2 == AnnounceCall(env, WithCalls(o, Identify(o.st.calls, tc)), CallIndexRaw(tc))
    requires var i := CallSlot(tc);
             var (id, name, place) := (LastId(fs + [tc], i), LastName(fs + [tc], i), CallIndexRaw(tc));
             var (known, knew, custom) := (id != "" && name != "", CallDeltas.KnownBy(fs, i), CustomTool(env, name));
             && Emits(o, o2, if known && !knew
                             then [ItemAdded(place, CallItem((if custom then "ctc_" else "fc_") + id, custom, id, name,
                                                             ""))]
                             else [])
             && Emits(o2, EmitToolCall(env, o, tc),
                      if known && !custom && tc.args.Truthy() then [ArgsDelta("fc_" + id, place, tc.args)] else [])
    ensures Emits(o, EmitToolCall(env, o, tc), SayFragment(env, fs, tc))
  {
    var i := CallSlot(tc);
    var (id, name, place) := (LastId(fs + [tc], i), LastName(fs + [tc], i), CallIndexRaw(tc));
    var (known, knew, custom) := (id != "" && name != "", CallDeltas.KnownBy(fs, i), CustomTool(env, name));
    EmitsTwice(o, o2, EmitToolCall(env, o, tc),
               if known && !knew
               then [ItemAdded(place, CallItem((if custom then "ctc_" else "fc_") + id, custom, id, name, ""))] else [],
               if known && !custom && tc.args.Truthy() then [ArgsDelta("fc_" + id, place, tc.args)] else []);
  }

  lemma {:induction false} FragmentsSay(env: Env, o: Out, es: seq<Option<ToolCall>>, fs: seq<ToolCall>)
    requires CallDeltas.Following(env, o, fs)
    ensures Emits(o, EmitToolCalls(env, o, es), SayFragments(env, fs, FragmentsOf(es)))
    decreases |es|
  {
    if es == [] {
      EmitsNone(o, o);
    } else if es[0].Some? {
      var (tc, o1) := (es[0].value, EmitToolCall(env, o, es[0].value));
      FragmentSays(env, o, tc, fs);
      CallDeltas.FragmentSpeaks(env, o, tc, fs);
      FragmentsSay(env, o1, es[1..], fs + [tc]);
      CallDeltas.FragmentsCons(tc, es);
      EmitsTwice(o, o1, EmitToolCalls(env, o, es), SayFragment(env, fs, tc),
                 SayFragments(env, fs + [tc], FragmentsOf(es[1..])));
    } else {
      FragmentsSay(env, o, es[1..], fs);
      assert FragmentsOf(es) == FragmentsOf(es[1..]);
    }
  }

  // ---------------------------------------------------------------- closes

  lemma CloseCallSays(env: Env, o: Out, fs: seq<ToolCall>, i: int)
    requires CallsTrack(o.st.calls, fs)
    ensures Emits(o, CloseToolCall(env, o, i),
                  if LastId(fs, i) != "" && i !in o.st.calls.done then EndCall(env, fs, i) else [])
  {
    var c := o.st.calls;
    assert GetS(c.ids, i) == LastId(fs, i) && GetS(c.names, i) == LastName(fs, i);
    assert GetS(c.args, i) == JoinedArgs(fs, i);
    var (id, name) := (LastId(fs, i), LastName(fs, i));
    var args := if JoinedArgs(fs, i) == "" then "{}" else JoinedArgs(fs, i);
    var input := StreamInput(env, args);
    if id != "" && i !in c.done {
      if CustomTool(env, name) {
        EmitsThree(o, CustomInputDelta("ctc_" + id, Num(i), input), CustomInputDone("ctc_" + id, Num(i), input),
                   ItemDone(Num(i), CallItem("ctc_" + id, true, id, name, input)));
      } else {
        EmitsTwo(o, ArgsDone("fc_" + id, Num(i), args), ItemDone(Num(i), CallItem("fc_" + id, false, id, name, args)));
      }
    } else {
      EmitsNone(o, CloseToolCall(env, o, i));
    }
  }

  /** The slots of a list are all identified, and done exactly when they were closed before. */
  ghost predicate CallsStand(o: Out, front: seq<Chunk>, fs: seq<ToolCall>, idxs: seq<int>) {
    && CallsTrack(o.st.calls, fs) && Distinct(idxs)
    && forall k :: 0 <= k < |idxs| ==>
         LastId(fs, idxs[k]) != "" && (idxs[k] in o.st.calls.done <==> Closed(front, idxs[k]).Some?)
  }

  lemma {:induction false} CloseCallsSay(env: Env, o: Out, front: seq<Chunk>, fs: seq<ToolCall>, idxs: seq<int>)
    requires CallsStand(o, front, fs, idxs)
    ensures Emits(o, CloseToolCalls(env, o, idxs), EndCalls(env, front, fs, idxs))
    decreases |idxs|
  {
    if idxs == [] {
      EmitsNone(o, o);
    } else {
      var o1 := CloseToolCall(env, o, idxs[0]);
      CloseCallSays(env, o, fs, idxs[0]);
      CloseToolCallTracks(env, o, fs, idxs[0]);
      assert forall k :: 0 <= k < |idxs| - 1 ==> idxs[1..][k] == idxs[k + 1];
      CloseCallsSay(env, o1, front, fs, idxs[1..]);
      EmitsTwice(o, o1, CloseToolCalls(env, o, idxs),
                 if Closed(front, idxs[0]).None? then EndCall(env, fs, idxs[0]) else [],
                 EndCalls(env, front, fs, idxs[1..]));
    }
  }

  /** The messages of a list have the texts sent for them, and are done exactly when they were closed before. */
  ghost predicate MessagesStand(env: Env, given: string, o: Out, front: seq<Chunk>, chunks: seq<Chunk>,
                                shut: Option<int>, idxs: seq<int>)
  {
    && Distinct(idxs) && o.st.responseId == ResponseName(env, given, chunks)
    && forall k :: 0 <= k < |idxs| ==>
         && idxs[k] in o.st.msgs.added && GetS(o.st.msgs.text, idxs[k]) == TextSent(chunks, idxs[k])
         && (idxs[k] in o.st.msgs.done <==> ClosedText(front, idxs[k]).Some? || shut == Some(idxs[k]))
  }

  lemma {:induction false} CloseMessagesSay(env: Env, given: string, o: Out, front: seq<Chunk>, chunks: seq<Chunk>,
                                            shut: Option<int>, idxs: seq<int>)
    requires MessagesStand(env, given, o, front, chunks, shut, idxs)
    ensures Emits(o, CloseMessages(o, idxs), EndMessages(env, given, front, chunks, shut, idxs))
    decreases |idxs|
  {
    if idxs == [] {
      EmitsNone(o, o);
    } else {
      var o1 := CloseMessage(o, idxs[0]);
      CloseMessageSays(o, idxs[0]);
      CloseMessageDoes(o, idxs[0]);
      assert forall k :: 0 <= k < |idxs| - 1 ==> idxs[1..][k] == idxs[k + 1];
      CloseMessagesSay(env, given, o1, front, chunks, shut, idxs[1..]);
      EmitsTwice(o, o1, CloseMessages(o, idxs),
                 if ClosedText(front, idxs[0]).None? && shut != Some(idxs[0])
                 then EndMessage(MessageName(env, given, chunks, idxs[0]), idxs[0], TextSent(chunks, idxs[0])) else [],
                 EndMessages(env, given, front, chunks, shut, idxs[1..]));
    }
  }

  // ---------------------------------------------------------------- a finish

  /** What a finish finds: everything as the chunks have it, closed as far as the chunks before and this one's own tool
      calls and closing tag have closed it. */
  ghost predicate FinishStands(env: Env, given: string, o: Out, front: seq<Chunk>, chunks: seq<Chunk>,
                               shut: Option<int>, ended: bool)
  {
    var (s, fs) := (o.st, Taken(chunks));
    && s.responseId == ResponseName(env, given, chunks) && (s.completed <==> AnyFinish(front))
    && s.msgs.added == MessagesOf(chunks)
    && (forall i: int :: GetS(s.msgs.text, i) == TextSent(chunks, i))
    && (forall i: int :: i in s.msgs.added ==> (i in s.msgs.done <==> ClosedText(front, i).Some? || shut == Some(i)))
    && NameOf(s.reason) == ReasonName(env, given, chunks) && s.reason.buf == ReasonSent(chunks)
    && (Opened(s) <==> OpenedBy(chunks))
    && (Opened(s) ==> (s.reason.done <==> ClosedReason(front).Some? || ended))
    && CallsTrack(s.calls, fs) && s.calls.ids.Keys == Identified(fs)
    && (forall i: int :: i in s.calls.done <==> Closed(front, i).Some?)
  }

  lemma SortedIsDistinct(keys: set<int>)
    ensures Distinct(SortedKeys(keys)) && forall k :: 0 <= k < |SortedKeys(keys)| ==> SortedKeys(keys)[k] in keys
  {
    var idxs := SortedKeys(keys);
    forall k | 0 <= k < |idxs| ensures idxs[k] in keys { assert idxs[k] in idxs; }
  }

  lemma {:induction false} IdentifiedMeans(fs: seq<ToolCall>, i: int)
    ensures i in Identified(fs) <==> LastId(fs, i) != ""
  {
    if fs != [] { IdentifiedMeans(fs[..|fs| - 1], i); }
  }

  lemma FinishMessagesSay(env: Env, given: string, o: Out, front: seq<Chunk>, chunks: seq<Chunk>, shut: Option<int>,
                          ended: bool)
    requires FinishStands(env, given, o, front, chunks, shut, ended)
    ensures Emits(o, CloseMessages(o, SortedKeys(o.st.msgs.added)),
                  EndMessages(env, given, front, chunks, shut, SortedKeys(MessagesOf(chunks))))
  {
    SortedIsDistinct(o.st.msgs.added);
    CloseMessagesSay(env, given, o, front, chunks, shut, SortedKeys(o.st.msgs.added));
  }

  lemma FinishCallsSay(env: Env, o: Out, front: seq<Chunk>, fs: seq<ToolCall>)
    requires CallsTrack(o.st.calls, fs) && o.st.calls.ids.Keys == Identified(fs)
    requires forall i: int :: i in o.st.calls.done <==> Closed(front, i).Some?
    ensures Emits(o, CloseToolCalls(env, o, SortedKeys(o.st.calls.ids.Keys)),
                  EndCalls(env, front, fs, SortedKeys(Identified(fs))))
  {
    var idxs := SortedKeys(Identified(fs));
    SortedIsDistinct(Identified(fs));
    forall k | 0 <= k < |idxs| ensures LastId(fs, idxs[k]) != "" { IdentifiedMeans(fs, idxs[k]); }
    CloseCallsSay(env, o, front, fs, idxs);
  }

  lemma CompletionSays(o: Out)
    ensures Emits(o, SendCompleted(o), if o.st.completed then [] else [Completed(o.st.responseId)])
  {
    if o.st.completed {
      EmitsNone(o, o);
    } else {
      EmitsOne(o.(st := o.st.(completed := true)), Completed(o.st.responseId));
    }
  }

  lemma FinishSays(env: Env, given: string, o: Out, front: seq<Chunk>, chunks: seq<Chunk>, shut: Option<int>,
                   ended: bool)
    requires FinishStands(env, given, o, front, chunks, shut, ended)
    ensures Emits(o, Finish(env, o), SayFinish(env, given, front, chunks, shut, ended))
  {
    var o1 := CloseMessages(o, SortedKeys(o.st.msgs.added));
    var o2 := CloseReasoning(o1);
    var o3 := CloseToolCalls(env, o2, SortedKeys(o2.st.calls.ids.Keys));
    FinishMessagesSay(env, given, o, front, chunks, shut, ended);
    CloseMessagesDoes(o, SortedKeys(o.st.msgs.added));
    CloseReasoningSays(o1);
    FinishCallsSay(env, o2, front, Taken(chunks));
    CloseToolCallsDoes(env, o2, SortedKeys(o2.st.calls.ids.Keys));
    CompletionSays(o3);
    FourEmit(o, o1, o2, o3, SendCompleted(o3),
             EndMessages(env, given, front, chunks, shut, SortedKeys(MessagesOf(chunks))),
             if OpenedBy(chunks) && ClosedReason(front).None? && !ended
             then EndReason(ReasonName(env, given, chunks), ReasonSent(chunks)) else [],
             EndCalls(env, front, Taken(chunks), SortedKeys(Identified(Taken(chunks)))),
             if AnyFinish(front) then [] else [Completed(ResponseName(env, given, chunks))]);
  }

  lemma FourEmit(o: Out, o1: Out, o2: Out, o3: Out, r: Out, a: seq<Body>, b: seq<Body>, c: seq<Body>, d: seq<Body>)
    requires Emits(o, o1, a) && Emits(o1, o2, b) && Emits(o2, o3, c) && Emits(o3, r, d)
    ensures Emits(o, r, a + b + c + d)
  {
    EmitsTwice(o, o1, o2, a, b);
    EmitsTwice(o, o2, o3, a + b, c);
    EmitsTwice(o, o3, r, a + b + c, d);
  }

  // ---------------------------------------------------------------- a chunk

  /** The names in force, and the messages and slots there are. */
  ghost predicate Matches(env: Env, given: string, o: Out, chunks: seq<Chunk>) {
    && (o.st.started <==> Began(chunks)) && o.st.responseId == ResponseName(env, given, chunks)
    && NameOf(o.st.reason) == ReasonName(env, given, chunks)
    && o.st.msgs.contentAdded == o.st.msgs.added
  }

  lemma NamesNext(env: Env, given: string, front: seq<Chunk>, c: Chunk)
    ensures Began(front + [c]) <==> Began(front) || c.choice.Some?
    ensures ResponseName(env, given, front + [c])
         == if Began(front) || c.choice.None? then ResponseName(env, given, front)
            else if c.id.Str? && c.id.s != "" then "resp_" + c.id.s
            else if given != "" then given
            else "resp_" + env.clock
    ensures ReasonName(env, given, front + [c])
         == if !OpenedBy(front) && Opens(c)
            then Named("rs_" + ResponseName(env, given, front + [c]) + "_" + PlaceOf(c).JsString(), PlaceOf(c))
            else ReasonName(env, given, front)
  {
    assert (front + [c])[..|front|] == front;
  }

  lemma {:induction false} GivenUntilBegun(env: Env, given: string, chunks: seq<Chunk>)
    requires !Began(chunks)
    ensures ResponseName(env, given, chunks) == given
  {
    if chunks != [] { GivenUntilBegun(env, given, chunks[..|chunks| - 1]); }
  }

  lemma OwnReasonSays(o: Out, raw: Raw, own: string)
    ensures var r := ConvertReasoning(o, raw, own);
            var n := if Opened(o.st) then NameOf(o.st.reason) else NewReason(o.st, raw);
            && Emits(o, r, (if !Opened(o.st) && own != "" then OpenReason(n) else []) + SayReason(n, own))
            && r.st == o.st.(reason := r.st.reason)
            && NameOf(r.st.reason) == (if own != "" then n else NameOf(o.st.reason))
  {
    if own == "" {
      EmitsNone(o, o);
    } else {
      var o1 := StartReasoning(o, raw);
      var n := if Opened(o.st) then NameOf(o.st.reason) else NewReason(o.st, raw);
      StartReasoningSays(o, raw);
      EmitReasoningSays(o1, own);
      EmitsTwice(o, o1, EmitReasoning(o1, own), if Opened(o.st) then [] else OpenReason(n), SayReason(n, own));
    }
  }

  /** What a chunk's content finds: the response and the reasoning item as its own reasoning left them, the rest as the
      chunks before did. */
  ghost predicate ContentStands(env: Env, given: string, s: St, front: seq<Chunk>, c: Chunk)
    requires c.choice.Some?
  {
    var (chunks, own) := (front + [c], ReasoningText(c.choice.value.delta));
    && s.inThinking == Thinking(front) && s.responseId == ResponseName(env, given, chunks)
    && (Opened(s) <==> OpenedBy(front) || own != "")
    && (Opened(s) ==> NameOf(s.reason) == ReasonName(env, given, chunks))
    && (!Opened(s) ==> NameOf(s.reason) == ReasonName(env, given, front))
    && s.reason.buf == ReasonSent(front) + own && (s.reason.done <==> ClosedReason(front).Some?)
    && (IndexOf(c) in s.msgs.added <==> TextSent(front, IndexOf(c)) != "")
  }

  lemma ContentOutIs(env: Env, given: string, s: St, front: seq<Chunk>, c: Chunk)
    requires c.choice.Some? && ContentStands(env, given, s, front, c)
    ensures var (chunks, own, content) := (front + [c], ReasoningText(c.choice.value.delta), ChunkText(c));
            var (reason, text, _) := Split(Thinking(front), content);
            var (name, message) := (ReasonName(env, given, chunks), MessageName(env, given, chunks, IndexOf(c)));
            var closes := ClosesTag(content) && OpenedBy(chunks) && ClosedReason(front).None?;
            ContentOut(s, PlaceOf(c), content)
            == (if !OpenedBy(front) && own == "" && Tagged(content) then OpenReason(name) else [])
               + (SayReason(name, reason) + (if closes then EndReason(name, ReasonSent(chunks)) else [])
                  + SayText(message, PlaceOf(c), TextSent(front, IndexOf(c)) == "", text))
    ensures NameAfter(s, PlaceOf(c), ChunkText(c)) == ReasonName(env, given, front + [c])
  {
    NamesNext(env, given, front, c);
    ReasonSnoc(front, c);
    Assoc(ReasonSent(front), ReasoningText(c.choice.value.delta), Split(Thinking(front), ChunkText(c)).0);
    assert PlaceOf(c) == ChoiceIndexRaw(c.choice.value);
  }

  lemma OwnReasonStands(env: Env, given: string, o: Out, front: seq<Chunk>, c: Chunk, o1: Out, o2: Out)
    requires c.choice.Some? && Matches(env, given, o, front) && LostTexts.Booked(o, front)
    requires o1 == Start(env, o, c.id)
    requires o2 == ConvertReasoning(o1, ChoiceIndexRaw(c.choice.value), ReasoningText(c.choice.value.delta))
    ensures ContentStands(env, given, o2.st, front, c) && o2.st.msgs.contentAdded == o2.st.msgs.added
    ensures var (chunks, own) := (front + [c], ReasoningText(c.choice.value.delta));
            var name := ReasonName(env, given, chunks);
            && Emits(o, o1, SayStart(env, given, front, chunks))
            && Emits(o1, o2, (if !OpenedBy(front) && own != "" then OpenReason(name) else []) + SayReason(name, own))
  {
    var (raw, own) := (ChoiceIndexRaw(c.choice.value), ReasoningText(c.choice.value.delta));
    NamesNext(env, given, front, c);
    if !Began(front) { GivenUntilBegun(env, given, front); }
    StartSays(env, o, c.id);
    OwnReasonSays(o1, raw, own);
    ConvertReasoningDoes(o1, raw, own);
    assert TextBook(o, TextSent(front, IndexOf(c)), ClosedText(front, IndexOf(c)), IndexOf(c));
  }

  lemma SpeechSays(env: Env, given: string, o: Out, front: seq<Chunk>, c: Chunk)
    requires c.choice.Some? && Matches(env, given, o, front) && LostTexts.Booked(o, front)
    ensures var r := Spoken(env, o, c).0;
            && Emits(o, r, SaySpeech(env, given, front, c)) && r.st.msgs.contentAdded == r.st.msgs.added
            && NameOf(r.st.reason) == ReasonName(env, given, front + [c])
            && r.st.responseId == ResponseName(env, given, front + [c]) && r.st.started
  {
    var ch := c.choice.value;
    var o1 := Start(env, o, c.id);
    var o2 := ConvertReasoning(o1, ChoiceIndexRaw(ch), ReasoningText(ch.delta));
    OwnReasonStands(env, given, o, front, c, o1, o2);
    ContentSays(o2, ChoiceIndexRaw(ch), ChunkText(c));
    ContentDoes(o2, ChoiceIndexRaw(ch), ChunkText(c));
    ContentOutIs(env, given, o2.st, front, c);
    StartSays(env, o, c.id);
    ConvertReasoningDoes(o1, ChoiceIndexRaw(ch), ReasoningText(ch.delta));
    SpeechJoins(env, given, o, o1, o2, Spoken(env, o, c).0, front, c);
  }

  lemma SpeechJoins(env: Env, given: string, o: Out, o1: Out, o2: Out, r: Out, front: seq<Chunk>, c: Chunk)
    requires c.choice.Some? && ContentStands(env, given, o2.st, front, c)
    requires Emits(o2, r, ContentOut(o2.st, PlaceOf(c), ChunkText(c)))
    requires var (chunks, own) := (front + [c], ReasoningText(c.choice.value.delta));
             var name := ReasonName(env, given, chunks);
             && Emits(o, o1, SayStart(env, given, front, chunks))
             && Emits(o1, o2, (if !OpenedBy(front) && own != "" then OpenReason(name) else []) + SayReason(name, own))
    ensures Emits(o, r, SaySpeech(env, given, front, c))
  {
    var (chunks, own) := (front + [c], ReasoningText(c.choice.value.delta));
    var name := ReasonName(env, given, chunks);
    var a := SayStart(env, given, front, chunks);
    var b := (if !OpenedBy(front) && own != "" then OpenReason(name) else []) + SayReason(name, own);
    ContentOutIs(env, given, o2.st, front, c);
    EmitsTwice(o, o1, o2, a, b);
    EmitsTwice(o, o2, r, a + b, ContentOut(o2.st, PlaceOf(c), ChunkText(c)));
  }

  lemma {:induction false} MessagesMeans(chunks: seq<Chunk>, i: int)
    ensures i in MessagesOf(chunks) <==> TextSent(chunks, i) != ""
  {
    if chunks != [] { MessagesMeans(chunks[..|chunks| - 1], i); }
  }

  /** Tool calls leave the names alone. */
  lemma CalledFields(env: Env, o: Out, c: Chunk)
    requires c.choice.Some?
    ensures var r := Called(env, o, c).st;
            && r.started == o.st.started && r.responseId == o.st.responseId && r.reason == o.st.reason
            && r.completed == o.st.completed && r.msgs == o.st.msgs.(done := r.msgs.done)
            && r.calls.done == o.st.calls.done
  {
    if BringsCalls(c) {
      CloseMessageDoes(o, IndexOf(c));
      EmitToolCallsDoes(env, CloseMessage(o, IndexOf(c)), c.choice.value.delta.toolCalls.value);
    }
  }

  /** What the tool calls of a chunk find. */
  ghost predicate CallsFind(env: Env, given: string, o: Out, front: seq<Chunk>, c: Chunk) {
    && o.st.responseId == ResponseName(env, given, front + [c]) && CallDeltas.Following(env, o, Taken(front))
    && forall i: int :: TextBook(o, TextSent(front + [c], i), ClosedText(front, i), i)
  }

  lemma CallsCloseMessage(env: Env, given: string, o: Out, o1: Out, front: seq<Chunk>, c: Chunk)
    requires CallsFind(env, given, o, front, c) && o1 == CloseMessage(o, IndexOf(c))
    ensures var (chunks, i) := (front + [c], IndexOf(c));
            Emits(o, o1, if TextSent(chunks, i) != "" && ClosedText(front, i).None?
                         then EndMessage(MessageName(env, given, chunks, i), i, TextSent(chunks, i)) else [])
    ensures CallDeltas.Following(env, o1, Taken(front))
  {
    var i := IndexOf(c);
    assert TextBook(o, TextSent(front + [c], i), ClosedText(front, i), i);
    CloseMessageSays(o, i);
    CloseMessageDoes(o, i);
    CallDeltas.OthersFollow(env, o, o1, {TextEnd}, Taken(front));
  }

  lemma CalledSays(env: Env, given: string, o: Out, front: seq<Chunk>, c: Chunk)
    requires c.choice.Some? && CallsFind(env, given, o, front, c)
    ensures Emits(o, Called(env, o, c), SayCalls(env, given, front, c))
  {
    if BringsCalls(c) {
      var o1 := CloseMessage(o, IndexOf(c));
      CallsCloseMessage(env, given, o, o1, front, c);
      CallsJoin(env, given, o, o1, front, c);
    } else {
      EmitsNone(o, o);
    }
  }

  lemma CallsJoin(env: Env, given: string, o: Out, o1: Out, front: seq<Chunk>, c: Chunk)
    requires BringsCalls(c) && CallDeltas.Following(env, o1, Taken(front))
    requires var (chunks, i) := (front + [c], IndexOf(c));
             Emits(o, o1, if TextSent(chunks, i) != "" && ClosedText(front, i).None?
                          then EndMessage(MessageName(env, given, chunks, i), i, TextSent(chunks, i)) else [])
    ensures Emits(o, EmitToolCalls(env, o1, c.choice.value.delta.toolCalls.value), SayCalls(env, given, front, c))
  {
    var (chunks, i, es) := (front + [c], IndexOf(c), c.choice.value.delta.toolCalls.value);
    FragmentsSay(env, o1, es, Taken(front));
    EmitsTwice(o, o1, EmitToolCalls(env, o1, es),
               if TextSent(chunks, i) != "" && ClosedText(front, i).None?
               then EndMessage(MessageName(env, given, chunks, i), i, TextSent(chunks, i)) else [],
               SayFragments(env, Taken(front), FragmentsOf(es)));
  }

  /** The reasoning as a chunk's speech leaves it. */
  ghost predicate ReasonStands(o: Out, front: seq<Chunk>, c: Chunk) {
    var chunks := front + [c];
    ReasonBook(o, ReasonSent(chunks), OpenedBy(chunks),
               CloseWith(ClosedReason(front), ClosesTag(ChunkText(c)) && OpenedBy(chunks), ReasonSent(chunks)))
  }

  lemma SpeechFindsTexts(env: Env, o: Out, front: seq<Chunk>, c: Chunk, r: Out)
    requires c.choice.Some? && LostTexts.Booked(o, front) && r == Spoken(env, o, c).0
    ensures forall i: int :: TextBook(r, TextSent(front + [c], i), ClosedText(front, i), i)
  {
    forall i: int ensures TextBook(r, TextSent(front + [c], i), ClosedText(front, i), i) {
      TextSnoc(front, c, i);
      assert TextBook(o, TextSent(front, i), ClosedText(front, i), i);
      SpokenBooksText(env, o, c, TextSent(front, i), ClosedText(front, i), i);
    }
  }

  lemma SpeechFindsReason(env: Env, o: Out, front: seq<Chunk>, c: Chunk, r: Out)
    requires c.choice.Some? && LostTexts.Booked(o, front) && r == Spoken(env, o, c).0
    ensures ReasonStands(r, front, c)
  {
    ReasonSnoc(front, c);
    SpokenBooksReason(env, o, c, ReasonSent(front), OpenedBy(front), ClosedReason(front));
  }

  lemma SpokenIsSpeech(env: Env, o: Out, c: Chunk, spoken: (Out, bool))
    requires c.choice.Some? && spoken == Spoken(env, o, c)
    ensures Grew(o.log, spoken.0.log, CallDeltas.SPEECH) && spoken.0.st.calls == o.st.calls
    ensures spoken.0.st.completed == o.st.completed && (spoken.1 <==> EndsThinking(o.st.inThinking, ChunkText(c)))
  {
    CallDeltas.BeforeCallsSpeech(env, o, c, spoken);
  }

  lemma SameSet(a: set<int>, b: set<int>)
    requires forall i: int :: i in a <==> i in b
    ensures a == b
  {
    forall i | i in a ensures i in b {}
    forall i | i in b ensures i in a {}
  }

  lemma CalledTexts(env: Env, o3: Out, front: seq<Chunk>, c: Chunk, r: Out)
    requires c.choice.Some? && r == Called(env, o3, c)
    requires forall i: int :: TextBook(o3, TextSent(front + [c], i), ClosedText(front, i), i)
    ensures r.st.msgs.added == MessagesOf(front + [c])
    ensures forall i: int :: GetS(r.st.msgs.text, i) == TextSent(front + [c], i)
    ensures forall i: int :: i in r.st.msgs.added ==>
              (i in r.st.msgs.done <==> ClosedText(front, i).Some? || (BringsCalls(c) && IndexOf(c) == i))
  {
    forall i: int
      ensures i in r.st.msgs.added <==> i in MessagesOf(front + [c])
      ensures GetS(r.st.msgs.text, i) == TextSent(front + [c], i)
      ensures i in r.st.msgs.added ==>
                (i in r.st.msgs.done <==> ClosedText(front, i).Some? || (BringsCalls(c) && IndexOf(c) == i))
    {
      CalledText(env, o3, front, c, r, i);
    }
    SameSet(r.st.msgs.added, MessagesOf(front + [c]));
  }

  lemma CalledText(env: Env, o3: Out, front: seq<Chunk>, c: Chunk, r: Out, i: int)
    requires c.choice.Some? && r == Called(env, o3, c)
    requires TextBook(o3, TextSent(front + [c], i), ClosedText(front, i), i)
    ensures i in r.st.msgs.added <==> i in MessagesOf(front + [c])
    ensures GetS(r.st.msgs.text, i) == TextSent(front + [c], i)
    ensures i in r.st.msgs.added ==>
              (i in r.st.msgs.done <==> ClosedText(front, i).Some? || (BringsCalls(c) && IndexOf(c) == i))
  {
    MessagesMeans(front + [c], i);
    CalledBooksText(env, o3, c, TextSent(front + [c], i), ClosedText(front, i), i);
  }

  lemma CalledCalls(env: Env, o3: Out, front: seq<Chunk>, c: Chunk, r: Out)
    requires c.choice.Some? && r == Called(env, o3, c) && CallDeltas.Following(env, o3, Taken(front))
    requires !EndsThinking(Thinking(front), ChunkText(c))
    ensures CallsTrack(r.st.calls, Taken(front + [c])) && r.st.calls.ids.Keys == Identified(Taken(front + [c]))
  {
    TakenSnoc(front, c);
    CallDeltas.CallsFollow(env, o3, IndexOf(c), c.choice.value.delta.toolCalls, Taken(front));
    IdsAreIdentified(r.st.calls, Taken(front + [c]));
  }

  /** Tool calls leave a finish what it must find. */
  lemma CalledStands(env: Env, given: string, o3: Out, front: seq<Chunk>, c: Chunk, r: Out)
    requires c.choice.Some? && CallsFind(env, given, o3, front, c) && !EndsThinking(Thinking(front), ChunkText(c))
    requires NameOf(o3.st.reason) == ReasonName(env, given, front + [c]) && ReasonStands(o3, front, c)
    requires o3.st.completed <==> AnyFinish(front)
    requires forall i: int :: i in o3.st.calls.done <==> Closed(front, i).Some?
    requires r == Called(env, o3, c)
    ensures FinishStands(env, given, r, front, front + [c], if BringsCalls(c) then Some(IndexOf(c)) else None,
                         ClosesTag(ChunkText(c)))
  {
    CalledFields(env, o3, c);
    CalledTexts(env, o3, front, c, r);
    CalledCalls(env, o3, front, c, r);
  }

  lemma IdsAreIdentified(c: Calls, fs: seq<ToolCall>)
    requires CallsTrack(c, fs)
    ensures c.ids.Keys == Identified(fs)
  {
    forall i: int ensures i in c.ids.Keys <==> i in Identified(fs) {
      IdentifiedMeans(fs, i);
      assert GetS(c.ids, i) == LastId(fs, i);
    }
  }

  /** A finish leaves the names alone. */
  lemma FinishMatches(env: Env, given: string, o: Out, chunks: seq<Chunk>)
    requires Matches(env, given, o, chunks)
    ensures Matches(env, given, Finish(env, o), chunks)
  {
    var o1, o2 := FinishDoes(env, o);
  }

  lemma CalledMatches(env: Env, given: string, o: Out, c: Chunk, chunks: seq<Chunk>)
    requires c.choice.Some? && Matches(env, given, o, chunks)
    ensures Matches(env, given, Called(env, o, c), chunks)
  {
    CalledFields(env, o, c);
  }

  /** The translator after some chunks, in every view of it. */
  ghost predicate StandsAt(env: Env, given: string, o: Out, chunks: seq<Chunk>) {
    AfterCompletion.Standing(env, o, chunks) && Matches(env, given, o, chunks)
  }

  lemma SpokenStands(env: Env, given: string, o: Out, front: seq<Chunk>, c: Chunk, r: Out)
    requires c.choice.Some? && StandsAt(env, given, o, front) && r == Spoken(env, o, c).0
    ensures forall i: int :: TextBook(r, TextSent(front + [c], i), ClosedText(front, i), i)
    ensures ReasonStands(r, front, c) && Matches(env, given, r, front + [c])
    ensures Emits(o, r, SaySpeech(env, given, front, c))
  {
    SpeechSays(env, given, o, front, c);
    SpeechFindsTexts(env, o, front, c, r);
    SpeechFindsReason(env, o, front, c, r);
    NamesNext(env, given, front, c);
  }

  lemma TailSays(env: Env, given: string, o3: Out, front: seq<Chunk>, c: Chunk)
    requires c.choice.Some? && CallsFind(env, given, o3, front, c) && !EndsThinking(Thinking(front), ChunkText(c))
    requires Matches(env, given, o3, front + [c]) && ReasonStands(o3, front, c)
    requires o3.st.completed <==> AnyFinish(front)
    requires forall i: int :: i in o3.st.calls.done <==> Closed(front, i).Some?
    ensures Emits(o3, AfterCompletion.Tail(env, o3, c), SayTail(env, given, front, c))
    ensures Matches(env, given, AfterCompletion.Tail(env, o3, c), front + [c])
  {
    var o4 := Called(env, o3, c);
    var shut := if BringsCalls(c) then Some(IndexOf(c)) else None;
    CalledSays(env, given, o3, front, c);
    CalledMatches(env, given, o3, c, front + [c]);
    if c.choice.value.finish.Truthy() {
      CalledStands(env, given, o3, front, c, o4);
      FinishSays(env, given, o4, front, front + [c], shut, ClosesTag(ChunkText(c)));
      FinishMatches(env, given, o4, front + [c]);
      EmitsTwice(o3, o4, Finish(env, o4), SayCalls(env, given, front, c),
                 SayFinish(env, given, front, front + [c], shut, ClosesTag(ChunkText(c))));
    } else {
      assert SayCalls(env, given, front, c) + [] == SayCalls(env, given, front, c);
    }
  }

  lemma ChunkSays(env: Env, given: string, o: Out, front: seq<Chunk>, c: Chunk)
    requires StandsAt(env, given, o, front)
    ensures Emits(o, ConvertOn(env, o, Some(c)), Says(env, given, front, c))
    ensures Matches(env, given, ConvertOn(env, o, Some(c)), front + [c])
  {
    if c.choice.None? {
      NamesNext(env, given, front, c);
      EmitsNone(o, o);
    } else {
      var spoken := Spoken(env, o, c);
      AfterCompletion.InStages(env, o, c, spoken);
      SpokenStands(env, given, o, front, c, spoken.0);
      SpokenIsSpeech(env, o, c, spoken);
      StagesSay(env, given, o, front, c, spoken.0, spoken.1);
    }
  }

  lemma StagesSay(env: Env, given: string, o: Out, front: seq<Chunk>, c: Chunk, o3: Out, early: bool)
    requires c.choice.Some? && StandsAt(env, given, o, front) && Grew(o.log, o3.log, CallDeltas.SPEECH)
    requires forall i: int :: TextBook(o3, TextSent(front + [c], i), ClosedText(front, i), i)
    requires ReasonStands(o3, front, c) && Matches(env, given, o3, front + [c])
    requires Emits(o, o3, SaySpeech(env, given, front, c))
    requires o3.st.completed == o.st.completed && o3.st.calls == o.st.calls
    requires early <==> EndsThinking(Thinking(front), ChunkText(c))
    ensures var r := if early then o3 else AfterCompletion.Tail(env, o3, c);
            Emits(o, r, Says(env, given, front, c)) && Matches(env, given, r, front + [c])
  {
    if !early {
      StandingCalls(env, o, front);
      CallsStillStand(env, o, o3, front);
      TailAfterSpeech(env, given, front, c, o3);
    }
    StagesJoin(env, given, o, o3, if early then o3 else AfterCompletion.Tail(env, o3, c), front, c);
  }

  /** What a chunk's tail needs to know of where the translator stood. */
  ghost predicate CallsStood(env: Env, o: Out, front: seq<Chunk>) {
    && CallDeltas.Following(env, o, Taken(front)) && (o.st.completed <==> AnyFinish(front))
    && forall i: int :: i in o.st.calls.done <==> Closed(front, i).Some?
  }

  lemma StandingCalls(env: Env, o: Out, front: seq<Chunk>)
    requires AfterCompletion.Standing(env, o, front)
    ensures CallsStood(env, o, front)
  {
    assert CallArguments.Booked(env, o, front);
    forall i: int ensures i in o.st.calls.done <==> Closed(front, i).Some? {}
  }

  lemma CallsStillStand(env: Env, o: Out, o3: Out, front: seq<Chunk>)
    requires CallsStood(env, o, front) && Grew(o.log, o3.log, CallDeltas.SPEECH)
    requires o3.st.completed == o.st.completed && o3.st.calls == o.st.calls
    ensures CallsStood(env, o3, front)
  {
    CallDeltas.OthersFollow(env, o, o3, CallDeltas.SPEECH, Taken(front));
  }

  lemma TailAfterSpeech(env: Env, given: string, front: seq<Chunk>, c: Chunk, o3: Out)
    requires c.choice.Some? && CallsStood(env, o3, front)
    requires forall i: int :: TextBook(o3, TextSent(front + [c], i), ClosedText(front, i), i)
    requires ReasonStands(o3, front, c) && Matches(env, given, o3, front + [c])
    requires !EndsThinking(Thinking(front), ChunkText(c))
    ensures Emits(o3, AfterCompletion.Tail(env, o3, c), SayTail(env, given, front, c))
    ensures Matches(env, given, AfterCompletion.Tail(env, o3, c), front + [c])
  {
    TailSays(env, given, o3, front, c);
  }

  lemma StagesJoin(env: Env, given: string, o: Out, o3: Out, r: Out, front: seq<Chunk>, c: Chunk)
    requires c.choice.Some? && Emits(o, o3, SaySpeech(env, given, front, c))
    requires if EndsThinking(Thinking(front), ChunkText(c)) then r == o3
             else Emits(o3, r, SayTail(env, given, front, c))
    ensures Emits(o, r, Says(env, given, front, c))
  {
    if EndsThinking(Thinking(front), ChunkText(c)) {
      assert SaySpeech(env, given, front, c) + [] == SaySpeech(env, given, front, c);
    } else {
      EmitsTwice(o, o3, r, SaySpeech(env, given, front, c), SayTail(env, given, front, c));
    }
  }

  // ---------------------------------------------------------------- the stream

  lemma ScriptNext(env: Env, given: string, q: Out, o: Out, front: seq<Chunk>, c: Chunk, heard: seq<Chunk>)
    requires Bodies(q.log) == Script(env, given, front) && Emits(q, o, Says(env, given, front, c))
    requires heard == front + [c]
    ensures Bodies(o.log) == Script(env, given, heard)
  {
    assert heard[..|heard| - 1] == front;
  }

  lemma BeginMatches(env: Env, given: string)
    ensures Bodies(Begin(given).log) == Script(env, given, []) && Matches(env, given, Begin(given), [])
  {
  }

  lemma {:induction false} RunSays(env: Env, given: string, chunks: seq<Chunk>, k: nat, o: Out, heard: seq<Chunk>)
    requires k <= |chunks| && o == Upto(env, given, chunks, k) && heard == chunks[..k]
    ensures Bodies(o.log) == Script(env, given, heard) && Matches(env, given, o, heard)
    decreases k
  {
    if k > 0 {
      var (q, front) := (Upto(env, given, chunks, k - 1), chunks[..k - 1]);
      RunSays(env, given, chunks, k - 1, q, front);
      AfterCompletion.UptoStands(env, given, chunks, k - 1);
      UptoNext(env, given, chunks, k);
      ChunkSays(env, given, q, front, chunks[k - 1]);
      ScriptNext(env, given, q, o, front, chunks[k - 1], heard);
    } else {
      assert chunks[..0] == [];
      BeginMatches(env, given);
    }
  }

  /** What a flush finds. */
  lemma FlushStands(env: Env, given: string, o: Out, chunks: seq<Chunk>)
    requires StandsAt(env, given, o, chunks)
    ensures FinishStands(env, given, o, chunks, chunks, None, false)
  {
    forall i: int
      ensures i in o.st.msgs.added <==> i in MessagesOf(chunks)
      ensures GetS(o.st.msgs.text, i) == TextSent(chunks, i)
      ensures i in o.st.msgs.done <==> ClosedText(chunks, i).Some?
    {
      MessagesMeans(chunks, i);
      assert TextBook(o, TextSent(chunks, i), ClosedText(chunks, i), i);
    }
    SameSet(o.st.msgs.added, MessagesOf(chunks));
    IdsAreIdentified(o.st.calls, Taken(chunks));
  }

  /** The stream of any chunks, numbers aside, is its script: every event that goes out, in order, with all it
      carries, as the chunks alone decide. */
  lemma StreamIsScript(env: Env, given: string, chunks: seq<Chunk>)
    ensures Bodies(Stream(env, given, chunks).log) == FullScript(env, given, chunks)
  {
    var o := Upto(env, given, chunks, |chunks|);
    assert chunks[..|chunks|] == chunks;
    RunSays(env, given, chunks, |chunks|, o, chunks);
    AfterCompletion.UptoStands(env, given, chunks, |chunks|);
    if o.st.completed {
      assert Script(env, given, chunks) + [] == Script(env, given, chunks);
    } else {
      FlushStands(env, given, o, chunks);
      FinishSays(env, given, o, chunks, chunks, None, false);
    }
  }
}
