/**
 Each step of the streaming translator in terms of what it does: which kinds of
 events it appends, which fields it changes, and what its closing events carry.
 */
module StepEffects {
  import opened Basics
  import opened JsValues
  import opened ChatToResp

  // ---------------------------------------------------------------- kinds of events

  datatype Kind =
    | Framing
    | Opening
    | ReasonPiece
    | ReasonEnd
    | TextPiece
    | TextEnd
    | CallPiece
    | CallEnd
    | Completion

  function KindOf(b: Body): Kind {
    match b
    case Created(_) => Framing
    case InProgress(_) => Framing
    case Completed(_) => Completion
    case ItemAdded(_, _) => Opening
    case ReasoningPartAdded(_, _) => Opening
    case ContentPartAdded(_, _) => Opening
    case ReasoningTextDelta(_, _, _) => ReasonPiece
    case ReasoningTextDone(_, _, _) => ReasonEnd
    case ReasoningPartDone(_, _, _) => ReasonEnd
    case ItemDone(_, ReasoningItem(_, _)) => ReasonEnd
    case TextDelta(_, _, _) => TextPiece
    case TextDone(_, _, _) => TextEnd
    case ContentPartDone(_, _, _) => TextEnd
    case ItemDone(_, MessageItem(_, _)) => TextEnd
    case ArgsDelta(_, _, _) => CallPiece
    case ArgsDone(_, _, _) => CallEnd
    case CustomInputDelta(_, _, _) => CallEnd
    case CustomInputDone(_, _, _) => CallEnd
    case ItemDone(_, CallItem(_, _, _, _, _)) => CallEnd
  }

  /** b is a, followed by events of these kinds only. */
  ghost predicate Grew(a: seq<Event>, b: seq<Event>, kinds: set<Kind>) {
    a <= b && forall p :: |a| <= p < |b| ==> KindOf(b[p].body) in kinds
  }

  lemma GrewTwice(a: seq<Event>, b: seq<Event>, c: seq<Event>, kinds: set<Kind>)
    requires Grew(a, b, kinds) && Grew(b, c, kinds)
    ensures Grew(a, c, kinds)
  {
  }

  lemma GrewMore(a: seq<Event>, b: seq<Event>, kinds: set<Kind>, more: set<Kind>)
    requires Grew(a, b, kinds) && kinds <= more
    ensures Grew(a, b, more)
  {
  }

  lemma EmitGrew(a: seq<Event>, o: Out, b: Body, kinds: set<Kind>)
    requires Grew(a, o.log, kinds) && KindOf(b) in kinds
    ensures Grew(a, Emit(o, b).log, kinds)
  {
  }

  // ---------------------------------------------------------------- what closing events carry

  /** The texts that the done events of message i carry. */
  function DoneTexts(log: seq<Event>, i: int): seq<string> {
    if log == [] then [] else DoneTexts(log[..|log| - 1], i) + DoneTextBy(log[|log| - 1].body, i)
  }

  function DoneTextBy(b: Body, i: int): seq<string> {
    match b
    case ItemDone(raw, MessageItem(_, Some(text))) => if JsIndex(raw) == i then [text] else []
    case _ => []
  }

  /** The texts that the done events of the reasoning item carry. */
  function DoneReasons(log: seq<Event>): seq<string> {
    if log == [] then [] else DoneReasons(log[..|log| - 1]) + DoneReasonBy(log[|log| - 1].body)
  }

  function DoneReasonBy(b: Body): seq<string> {
    match b
    case ItemDone(_, ReasoningItem(_, Some(text))) => [text]
    case _ => []
  }

  lemma {:induction false} SameTexts(a: seq<Event>, b: seq<Event>, kinds: set<Kind>, i: int)
    requires Grew(a, b, kinds) && TextEnd !in kinds
    ensures DoneTexts(b, i) == DoneTexts(a, i)
    decreases |b|
  {
    if |b| > |a| {
      SameTexts(a, b[..|b| - 1], kinds, i);
      assert KindOf(b[|b| - 1].body) in kinds;
    } else {
      assert a == b;
    }
  }

  lemma {:induction false} SameReasons(a: seq<Event>, b: seq<Event>, kinds: set<Kind>)
    requires Grew(a, b, kinds) && ReasonEnd !in kinds
    ensures DoneReasons(b) == DoneReasons(a)
    decreases |b|
  {
    if |b| > |a| {
      SameReasons(a, b[..|b| - 1], kinds);
      assert KindOf(b[|b| - 1].body) in kinds;
    } else {
      assert a == b;
    }
  }

  lemma EmitTexts(o: Out, b: Body, i: int)
    ensures DoneTexts(Emit(o, b).log, i) == DoneTexts(o.log, i) + DoneTextBy(b, i)
  {
    assert Emit(o, b).log[..|o.log|] == o.log;
  }

  lemma EmitReasons(o: Out, b: Body)
    ensures DoneReasons(Emit(o, b).log) == DoneReasons(o.log) + DoneReasonBy(b)
  {
    assert Emit(o, b).log[..|o.log|] == o.log;
  }

  // ---------------------------------------------------------------- a chunk's content

  function Untagged(content: string): string { RemoveFirst(content, OPEN_TAG) }

  /** The reasoning part and the text part of one chunk's content, and whether the span stays open. */
  function Split(inThinking: bool, content: string): (string, string, bool) {
    var c := Untagged(content);
    match Find(c, CLOSE_TAG)
    case Some(i) => (c[..i], c[i + |CLOSE_TAG|..], false)
    case None => if inThinking || Tagged(content) then (c, "", true) else ("", c, false)
  }

  /** The chunk's content leaves the stream inside a thinking span, with text to show for it. */
  predicate EndsThinking(inThinking: bool, content: string) {
    content != "" && Split(inThinking, content).2 && Untagged(content) != ""
  }

  function ThinkingAfter(inThinking: bool, content: string): bool {
    if content == "" then inThinking else Split(inThinking, content).2
  }

  /** The content closes a thinking span. */
  predicate ClosesTag(content: string) { content != "" && Find(Untagged(content), CLOSE_TAG).Some? }

  lemma EmptySplit(inThinking: bool)
    ensures Split(inThinking, "") == ("", "", inThinking) && !Tagged("") && !ClosesTag("")
  {
    assert Find("", OPEN_TAG).None? && Find("", CLOSE_TAG).None?;
  }

  // ---------------------------------------------------------------- framing and reasoning

  lemma StartDoes(env: Env, o: Out, id: Raw)
    ensures var r := Start(env, o, id);
            && r.st == o.st.(started := true, responseId := r.st.responseId)
            && Grew(o.log, r.log, {Framing}) && (o.st.started ==> r == o)
  {
    if !o.st.started {
      var named := if id.AsStr() != "" then "resp_" + id.AsStr() else o.st.responseId;
      var responseId := if named == "" then "resp_" + env.clock else named;
      var o1 := o.(st := o.st.(started := true, responseId := responseId));
      EmitGrew(o.log, o1, Created(responseId), {Framing});
      EmitGrew(o.log, Emit(o1, Created(responseId)), InProgress(responseId), {Framing});
    }
  }

  lemma StartReasoningDoes(o: Out, raw: Raw)
    ensures var r := StartReasoning(o, raw);
            && r.st == o.st.(reason := r.st.reason) && Opened(r.st)
            && r.st.reason.buf == o.st.reason.buf && r.st.reason.done == o.st.reason.done
            && Grew(o.log, r.log, {Opening})
            && (if Opened(o.st) then r == o else |r.log| > |o.log|)
  {
    if !Opened(o.st) {
      var id := "rs_" + o.st.responseId + "_" + raw.JsString();
      assert id[0] == 'r';
      var o1 := WithReason(o, o.st.reason.(id := id, index := raw));
      EmitGrew(o.log, o1, ItemAdded(raw, ReasoningItem(id, None)), {Opening});
      EmitGrew(o.log, Emit(o1, ItemAdded(raw, ReasoningItem(id, None))), ReasoningPartAdded(id, raw), {Opening});
    }
  }

  lemma EmitReasoningDoes(o: Out, text: string)
    ensures var r := EmitReasoning(o, text);
            && r.st == o.st.(reason := o.st.reason.(buf := o.st.reason.buf + text))
            && Grew(o.log, r.log, {ReasonPiece})
            && (if text == "" then r == o else |r.log| > |o.log|)
  {
    if text == "" {
      assert o.st.reason.buf + text == o.st.reason.buf;
    } else {
      var o1 := WithReason(o, o.st.reason.(buf := o.st.reason.buf + text));
      EmitGrew(o.log, o1, ReasoningTextDelta(o.st.reason.id, o.st.reason.index, text), {ReasonPiece});
    }
  }

  lemma ConvertReasoningDoes(o: Out, raw: Raw, text: string)
    ensures var r := ConvertReasoning(o, raw, text);
            && r.st == o.st.(reason := r.st.reason)
            && (Opened(r.st) <==> Opened(o.st) || text != "")
            && r.st.reason.buf == o.st.reason.buf + text && r.st.reason.done == o.st.reason.done
            && Grew(o.log, r.log, {Opening, ReasonPiece})
            && (if text == "" then r == o else |r.log| > |o.log|)
  {
    var kinds := {Opening, ReasonPiece};
    if text == "" {
      assert o.st.reason.buf + text == o.st.reason.buf;
    } else {
      var o1 := StartReasoning(o, raw);
      StartReasoningDoes(o, raw);
      EmitReasoningDoes(o1, text);
      GrewMore(o.log, o1.log, {Opening}, kinds);
      GrewMore(o1.log, EmitReasoning(o1, text).log, {ReasonPiece}, kinds);
      GrewTwice(o.log, o1.log, EmitReasoning(o1, text).log, kinds);
    }
  }

  /** The reasoning item is there to be closed. */
  predicate ReasonDue(s: St) { Opened(s) && !s.reason.done }

  lemma CloseReasoningDoes(o: Out)
    ensures var r := CloseReasoning(o);
            && r.st == o.st.(reason := o.st.reason.(done := o.st.reason.done || Opened(o.st)))
            && Grew(o.log, r.log, {ReasonEnd})
            && DoneReasons(r.log) == DoneReasons(o.log) + (if ReasonDue(o.st) then [o.st.reason.buf] else [])
            && (!ReasonDue(o.st) ==> r.log == o.log)
  {
    var r := o.st.reason;
    if ReasonDue(o.st) {
      var o1 := WithReason(o, r.(done := true));
      var o2 := Emit(o1, ReasoningTextDone(r.id, r.index, r.buf));
      var o3 := Emit(o2, ReasoningPartDone(r.id, r.index, r.buf));
      EmitGrew(o.log, o1, ReasoningTextDone(r.id, r.index, r.buf), {ReasonEnd});
      EmitGrew(o.log, o2, ReasoningPartDone(r.id, r.index, r.buf), {ReasonEnd});
      EmitGrew(o.log, o3, ItemDone(r.index, ReasoningItem(r.id, Some(r.buf))), {ReasonEnd});
      EmitReasons(o1, ReasoningTextDone(r.id, r.index, r.buf));
      EmitReasons(o2, ReasoningPartDone(r.id, r.index, r.buf));
      EmitReasons(o3, ItemDone(r.index, ReasoningItem(r.id, Some(r.buf))));
    }
  }

  // ---------------------------------------------------------------- messages

  /** The message tables after some text of message idx, which may be empty. */
  ghost predicate Texted(m: Messages, r: Messages, idx: int, text: string) {
    && r.done == m.done
    && r.added == (if text == "" then m.added else m.added + {idx})
    && (forall i: int :: GetS(r.text, i) == GetS(m.text, i) + (if i == idx then text else ""))
  }

  lemma AnnounceMessageDoes(o: Out, raw: Raw)
    ensures var r := AnnounceMessage(o, raw);
            && r.st == o.st.(msgs := o.st.msgs.(added := o.st.msgs.added + {JsIndex(raw)}))
            && Grew(o.log, r.log, {Opening})
  {
    var m := o.st.msgs;
    if JsIndex(raw) in m.added {
      assert m.added + {JsIndex(raw)} == m.added;
    } else {
      var o1 := WithMsgs(o, m.(added := m.added + {JsIndex(raw)}));
      EmitGrew(o.log, o1, ItemAdded(raw, MessageItem(MsgId(o.st, JsIndex(raw)), None)), {Opening});
    }
  }

  lemma AnnounceContentDoes(o: Out, raw: Raw)
    ensures var r := AnnounceContent(o, raw);
            && r.st == o.st.(msgs := o.st.msgs.(contentAdded := r.st.msgs.contentAdded))
            && Grew(o.log, r.log, {Opening})
  {
    var m := o.st.msgs;
    if JsIndex(raw) !in m.contentAdded {
      var o1 := WithMsgs(o, m.(contentAdded := m.contentAdded + {JsIndex(raw)}));
      EmitGrew(o.log, o1, ContentPartAdded(MsgId(o.st, JsIndex(raw)), raw), {Opening});
    }
  }

  lemma EmitTextDoes(o: Out, raw: Raw, text: string)
    requires text != ""
    ensures var r := EmitText(o, raw, text);
            && r.st == o.st.(msgs := r.st.msgs) && Texted(o.st.msgs, r.st.msgs, JsIndex(raw), text)
            && Grew(o.log, r.log, {Opening, TextPiece}) && |r.log| > |o.log|
  {
    var (o1, kinds) := (AnnounceMessage(o, raw), {Opening, TextPiece});
    var o2 := AnnounceContent(o1, raw);
    AnnounceMessageDoes(o, raw);
    AnnounceContentDoes(o1, raw);
    GrewTwice(o.log, o1.log, o2.log, {Opening});
    GrewMore(o.log, o2.log, {Opening}, kinds);
    EmitGrew(o.log, o2, TextDelta(MsgId(o.st, JsIndex(raw)), raw, text), kinds);
    TextAppended(o2.st.msgs, JsIndex(raw), text);
  }

  lemma TextAppended(m: Messages, idx: int, text: string)
    ensures forall i: int :: GetS(AppendText(m, idx, text).text, i) == GetS(m.text, i) + (if i == idx then text else "")
  {
    forall i: int
      ensures GetS(AppendText(m, idx, text).text, i) == GetS(m.text, i) + (if i == idx then text else "")
    {
      assert GetS(m.text, i) + "" == GetS(m.text, i);
    }
  }

  lemma MaybeTextDoes(o: Out, raw: Raw, text: string)
    ensures var r := if text != "" then EmitText(o, raw, text) else o;
            && r.st == o.st.(msgs := r.st.msgs) && Texted(o.st.msgs, r.st.msgs, JsIndex(raw), text)
            && Grew(o.log, r.log, {Opening, TextPiece})
            && (if text == "" then r == o else |r.log| > |o.log|)
  {
    if text == "" { Untouched(o.st.msgs, JsIndex(raw)); } else { EmitTextDoes(o, raw, text); }
  }

  lemma Untouched(m: Messages, idx: int)
    ensures Texted(m, m, idx, "")
  {
    forall i: int ensures GetS(m.text, i) == GetS(m.text, i) + (if i == idx then "" else "") {
      assert GetS(m.text, i) + "" == GetS(m.text, i);
    }
  }

  /** Message idx is there to be closed. */
  predicate TextDue(s: St, idx: int) { idx in s.msgs.added && idx !in s.msgs.done }

  lemma CloseMessageDoes(o: Out, idx: int)
    ensures var (m, r) := (o.st.msgs, CloseMessage(o, idx));
            && r.st == o.st.(msgs := m.(done := if idx in m.added then m.done + {idx} else m.done))
            && Grew(o.log, r.log, {TextEnd})
            && (!TextDue(o.st, idx) ==> r.log == o.log)
    ensures forall i: int :: DoneTexts(CloseMessage(o, idx).log, i)
              == DoneTexts(o.log, i) + (if i == idx && TextDue(o.st, i) then [GetS(o.st.msgs.text, i)] else [])
  {
    var m := o.st.msgs;
    if TextDue(o.st, idx) {
      var (text, id) := (GetS(m.text, idx), MsgId(o.st, idx));
      var o1 := WithMsgs(o, m.(done := m.done + {idx}));
      var o2 := Emit(o1, TextDone(id, Num(idx), text));
      var o3 := Emit(o2, ContentPartDone(id, Num(idx), text));
      EmitGrew(o.log, o1, TextDone(id, Num(idx), text), {TextEnd});
      EmitGrew(o.log, o2, ContentPartDone(id, Num(idx), text), {TextEnd});
      EmitGrew(o.log, o3, ItemDone(Num(idx), MessageItem(id, Some(text))), {TextEnd});
      forall i: int
        ensures DoneTexts(CloseMessage(o, idx).log, i) == DoneTexts(o.log, i) + (if i == idx then [text] else [])
      {
        EmitTexts(o1, TextDone(id, Num(idx), text), i);
        EmitTexts(o2, ContentPartDone(id, Num(idx), text), i);
        EmitTexts(o3, ItemDone(Num(idx), MessageItem(id, Some(text))), i);
      }
    } else if idx in m.done {
      assert m.done + {idx} == m.done;
    }
  }

  lemma {:induction false} CloseMessagesDoes(o: Out, idxs: seq<int>)
    ensures var r := CloseMessages(o, idxs);
            && r.st == o.st.(msgs := o.st.msgs.(done := r.st.msgs.done))
            && Grew(o.log, r.log, {TextEnd})
            && ((forall k :: 0 <= k < |idxs| ==> !TextDue(o.st, idxs[k])) ==> r.log == o.log)
    decreases |idxs|
  {
    if idxs != [] {
      var o1 := CloseMessage(o, idxs[0]);
      CloseMessageDoes(o, idxs[0]);
      CloseMessagesDoes(o1, idxs[1..]);
      GrewTwice(o.log, o1.log, CloseMessages(o, idxs).log, {TextEnd});
      assert forall k :: 0 <= k < |idxs| - 1 ==> idxs[1..][k] == idxs[k + 1];
    }
  }

  /** The report message i gets when it is among those being closed. */
  function TextReport(o: Out, i: int, listed: bool): seq<string> {
    if listed && TextDue(o.st, i) then [GetS(o.st.msgs.text, i)] else []
  }

  lemma {:induction false} CloseMessagesReport(o: Out, idxs: seq<int>, i: int)
    ensures var r := CloseMessages(o, idxs);
            && DoneTexts(r.log, i) == DoneTexts(o.log, i) + TextReport(o, i, i in idxs)
            && (i in r.st.msgs.done <==> i in o.st.msgs.done || (i in idxs && i in o.st.msgs.added))
    decreases |idxs|
  {
    if idxs == [] {
      assert DoneTexts(o.log, i) + [] == DoneTexts(o.log, i);
    } else {
      var o1 := CloseMessage(o, idxs[0]);
      CloseMessageDoes(o, idxs[0]);
      CloseMessagesReport(o1, idxs[1..], i);
      MemberCons(idxs, i);
      AppendTwice(DoneTexts(o.log, i), TextReport(o, i, i == idxs[0]), TextReport(o1, i, i in idxs[1..]),
                  TextReport(o, i, i in idxs));
    }
  }

  lemma MemberCons(idxs: seq<int>, i: int)
    requires idxs != []
    ensures i in idxs <==> i == idxs[0] || i in idxs[1..]
  {
  }

  lemma AppendTwice(a: seq<string>, b: seq<string>, c: seq<string>, d: seq<string>)
    requires b + c == d
    ensures a + b + c == a + d
  {
    assert a + b + c == a + (b + c);
  }

  // ---------------------------------------------------------------- the content part

  const CONTENT_KINDS := {Opening, ReasonPiece, ReasonEnd, TextPiece}

  lemma OpenThinkingDoes(o: Out, raw: Raw, content: string)
    ensures var (r, c) := OpenThinking(o, raw, content);
            && c == Untagged(content)
            && r.st == o.st.(reason := r.st.reason, inThinking := o.st.inThinking || Tagged(content))
            && (Opened(r.st) <==> Opened(o.st) || Tagged(content))
            && r.st.reason.buf == o.st.reason.buf && r.st.reason.done == o.st.reason.done
            && Grew(o.log, r.log, {Opening})
            && (if Tagged(content) && !Opened(o.st) then |r.log| > |o.log| else r.log == o.log)
            && (Opened(o.st) || !Tagged(content) ==> r.st.reason == o.st.reason)
  {
    if Tagged(content) { StartReasoningDoes(o.(st := o.st.(inThinking := true)), raw); }
  }

  lemma EndThinkingDoes(o: Out, text: string)
    ensures var (r, buf) := (EndThinking(o, text), o.st.reason.buf + text);
            && r.st == o.st.(inThinking := false,
                             reason := o.st.reason.(buf := buf, done := o.st.reason.done || Opened(o.st)))
            && Grew(o.log, r.log, {ReasonPiece, ReasonEnd})
            && DoneReasons(r.log) == DoneReasons(o.log) + (if ReasonDue(o.st) then [buf] else [])
            && (text == "" && !ReasonDue(o.st) ==> r.log == o.log) && (text != "" ==> |r.log| > |o.log|)
  {
    var (o1, kinds) := (EmitReasoning(o, text), {ReasonPiece, ReasonEnd});
    EmitReasoningDoes(o, text);
    CloseReasoningDoes(o1);
    SameReasons(o.log, o1.log, {ReasonPiece});
    GrewMore(o.log, o1.log, {ReasonPiece}, kinds);
    GrewMore(o1.log, CloseReasoning(o1).log, {ReasonEnd}, kinds);
    GrewTwice(o.log, o1.log, CloseReasoning(o1).log, kinds);
  }

  /** What the rest of a content does, by its reasoning part and its text part. */
  ghost predicate RestDone(o: Out, r: Out, idx: int, reason: string, text: string, closes: bool, stays: bool) {
    && r.st == o.st.(inThinking := stays, reason := r.st.reason, msgs := r.st.msgs)
    && r.st.reason == o.st.reason.(buf := o.st.reason.buf + reason,
                                   done := o.st.reason.done || (closes && Opened(o.st)))
    && Texted(o.st.msgs, r.st.msgs, idx, text)
    && Grew(o.log, r.log, CONTENT_KINDS)
    && DoneReasons(r.log) == DoneReasons(o.log) + (if closes && ReasonDue(o.st) then [o.st.reason.buf + reason] else [])
    && (reason != "" || text != "" ==> |r.log| > |o.log|)
    && (reason == "" && text == "" && !(closes && ReasonDue(o.st)) ==> r.log == o.log)
  }

  lemma ClosedRestDoes(o: Out, raw: Raw, content: string, i: nat)
    requires Find(content, CLOSE_TAG) == Some(i)
    ensures var (r, early) := RestOfContent(o, raw, content);
            !early && RestDone(o, r, JsIndex(raw), content[..i], content[i + |CLOSE_TAG|..], true, false)
  {
    var (reason, text) := (content[..i], content[i + |CLOSE_TAG|..]);
    var o1 := EndThinking(o, reason);
    var o2 := if text != "" then EmitText(o1, raw, text) else o1;
    EndThinkingDoes(o, reason);
    MaybeTextDoes(o1, raw, text);
    assert RestOfContent(o, raw, content) == (o2, false);
    SameReasons(o1.log, o2.log, {Opening, TextPiece});
    GrewMore(o.log, o1.log, {ReasonPiece, ReasonEnd}, CONTENT_KINDS);
    GrewMore(o1.log, o2.log, {Opening, TextPiece}, CONTENT_KINDS);
    GrewTwice(o.log, o1.log, o2.log, CONTENT_KINDS);
  }

  lemma ThinkingRestDoes(o: Out, raw: Raw, content: string)
    requires Find(content, CLOSE_TAG).None? && o.st.inThinking
    ensures var (r, early) := RestOfContent(o, raw, content);
            (early <==> content != "") && RestDone(o, r, JsIndex(raw), content, "", false, true)
  {
    var r := EmitReasoning(o, content);
    EmitReasoningDoes(o, content);
    SameReasons(o.log, r.log, {ReasonPiece});
    GrewMore(o.log, r.log, {ReasonPiece}, CONTENT_KINDS);
    Untouched(o.st.msgs, JsIndex(raw));
    assert RestOfContent(o, raw, content) == (r, content != "");
  }

  lemma PlainRestDoes(o: Out, raw: Raw, content: string)
    requires Find(content, CLOSE_TAG).None? && !o.st.inThinking
    ensures var (r, early) := RestOfContent(o, raw, content);
            !early && RestDone(o, r, JsIndex(raw), "", content, false, false)
  {
    var r := if content != "" then EmitText(o, raw, content) else o;
    MaybeTextDoes(o, raw, content);
    SameReasons(o.log, r.log, {Opening, TextPiece});
    GrewMore(o.log, r.log, {Opening, TextPiece}, CONTENT_KINDS);
    assert o.st.reason.buf + "" == o.st.reason.buf;
    assert RestOfContent(o, raw, content) == (r, false);
  }

  /** What a content does, read off its parts; early exactly when it ends inside a thinking span. */
  ghost predicate ContentDone(o: Out, r: Out, idx: int, content: string) {
    var (reason, text, _) := Split(o.st.inThinking, content);
    var begun := Opened(o.st) || Tagged(content);
    var due := ClosesTag(content) && begun && !o.st.reason.done;
    && r.st == o.st.(inThinking := ThinkingAfter(o.st.inThinking, content), reason := r.st.reason, msgs := r.st.msgs)
    && (Opened(r.st) <==> begun)
    && r.st.reason.buf == o.st.reason.buf + reason
    && r.st.reason.done == (o.st.reason.done || (ClosesTag(content) && begun))
    && Texted(o.st.msgs, r.st.msgs, idx, text)
    && Grew(o.log, r.log, CONTENT_KINDS)
    && DoneReasons(r.log) == DoneReasons(o.log) + (if due then [o.st.reason.buf + reason] else [])
    && (reason != "" || text != "" || (Tagged(content) && !Opened(o.st)) ==> |r.log| > |o.log|)
    && (reason == "" && text == "" && !due && !(Tagged(content) && !Opened(o.st)) ==> r.log == o.log)
  }

  lemma ContentDoes(o: Out, raw: Raw, content: string)
    ensures var (r, early) := ConvertContent(o, raw, content);
            ContentDone(o, r, JsIndex(raw), content) && (early <==> EndsThinking(o.st.inThinking, content))
  {
    if content == "" {
      EmptySplit(o.st.inThinking);
      Untouched(o.st.msgs, JsIndex(raw));
      assert o.st.reason.buf + "" == o.st.reason.buf && DoneReasons(o.log) + [] == DoneReasons(o.log);
    } else {
      TaggedContentDoes(o, raw, content);
    }
  }

  /** OpenThinking, as its own lemma above states it. */
  ghost predicate OpenDone(o: Out, r: Out, content: string) {
    && r.st == o.st.(reason := r.st.reason, inThinking := o.st.inThinking || Tagged(content))
    && (Opened(r.st) <==> Opened(o.st) || Tagged(content))
    && r.st.reason.buf == o.st.reason.buf && r.st.reason.done == o.st.reason.done
    && Grew(o.log, r.log, {Opening})
    && (if Tagged(content) && !Opened(o.st) then |r.log| > |o.log| else r.log == o.log)
  }

  lemma OpenThenRest(o: Out, o1: Out, r: Out, idx: int, content: string)
    requires content != "" && OpenDone(o, o1, content)
    requires var (reason, text, stays) := Split(o.st.inThinking, content);
             RestDone(o1, r, idx, reason, text, ClosesTag(content), stays)
    ensures ContentDone(o, r, idx, content)
  {
    SameReasons(o.log, o1.log, {Opening});
    GrewMore(o.log, o1.log, {Opening}, CONTENT_KINDS);
    GrewTwice(o.log, o1.log, r.log, CONTENT_KINDS);
  }

  lemma RestDoes(o: Out, o1: Out, raw: Raw, content: string)
    requires content != "" && o1.st.inThinking == (o.st.inThinking || Tagged(content))
    ensures var (r, early) := RestOfContent(o1, raw, Untagged(content));
            var (reason, text, stays) := Split(o.st.inThinking, content);
            && RestDone(o1, r, JsIndex(raw), reason, text, ClosesTag(content), stays)
            && (early <==> EndsThinking(o.st.inThinking, content))
  {
    var c := Untagged(content);
    match Find(c, CLOSE_TAG) {
      case Some(i) =>
        assert Split(o.st.inThinking, content) == (c[..i], c[i + |CLOSE_TAG|..], false);
        ClosedRestDoes(o1, raw, c, i);
      case None =>
        if o1.st.inThinking {
          assert Split(o.st.inThinking, content) == (c, "", true);
          ThinkingRestDoes(o1, raw, c);
        } else {
          assert Split(o.st.inThinking, content) == ("", c, false);
          PlainRestDoes(o1, raw, c);
        }
    }
  }

  lemma TaggedContentDoes(o: Out, raw: Raw, content: string)
    requires content != ""
    ensures var (r, early) := ConvertContent(o, raw, content);
            ContentDone(o, r, JsIndex(raw), content) && (early <==> EndsThinking(o.st.inThinking, content))
  {
    var (o1, c1) := OpenThinking(o, raw, content);
    OpenThinkingDoes(o, raw, content);
    RestDoes(o, o1, raw, content);
    OpenThenRest(o, o1, RestOfContent(o1, raw, c1).0, JsIndex(raw), content);
  }

  // ---------------------------------------------------------------- tool calls

  const FRAGMENT_KINDS := {Opening, CallPiece}

  lemma AnnounceCallDoes(env: Env, o: Out, raw: Raw)
    ensures var r := AnnounceCall(env, o, raw);
            && r.st == o.st.(calls := o.st.calls.(added := r.st.calls.added))
            && Grew(o.log, r.log, FRAGMENT_KINDS)
  {
    var (c, idx) := (o.st.calls, JsIndex(raw));
    var (callId, name) := (GetS(c.ids, idx), GetS(c.names, idx));
    var custom := IsCustom(env, name);
    EmitGrew(o.log, WithCalls(o, c.(added := c.added + {idx})),
             ItemAdded(raw, CallItem((if custom then "ctc_" else "fc_") + callId, custom, callId, name, "")),
             FRAGMENT_KINDS);
  }

  lemma EmitArgsDoes(env: Env, o: Out, raw: Raw, args: Raw, newId: string)
    ensures var r := EmitArgs(env, o, raw, args, newId);
            && r.st == o.st.(calls := o.st.calls.(args := r.st.calls.args))
            && Grew(o.log, r.log, FRAGMENT_KINDS)
  {
    var known := GetS(o.st.calls.ids, JsIndex(raw));
    EmitGrew(o.log, o, ArgsDelta("fc_" + (if known == "" then newId else known), raw, args), FRAGMENT_KINDS);
  }

  lemma EmitToolCallDoes(env: Env, o: Out, tc: ToolCall)
    ensures var r := EmitToolCall(env, o, tc);
            && r.st == o.st.(calls := r.st.calls) && r.st.calls.done == o.st.calls.done
            && Grew(o.log, r.log, FRAGMENT_KINDS)
  {
    var o1 := WithCalls(o, Identify(o.st.calls, tc));
    var o2 := AnnounceCall(env, o1, CallIndexRaw(tc));
    AnnounceCallDoes(env, o1, CallIndexRaw(tc));
    EmitArgsDoes(env, o2, CallIndexRaw(tc), tc.args, tc.id.AsStr());
    GrewTwice(o.log, o2.log, EmitToolCall(env, o, tc).log, FRAGMENT_KINDS);
  }

  lemma {:induction false} EmitToolCallsDoes(env: Env, o: Out, es: seq<Option<ToolCall>>)
    ensures var r := EmitToolCalls(env, o, es);
            && r.st == o.st.(calls := r.st.calls) && r.st.calls.done == o.st.calls.done
            && Grew(o.log, r.log, FRAGMENT_KINDS)
    decreases |es|
  {
    if es != [] {
      var o1 := if es[0].Some? then EmitToolCall(env, o, es[0].value) else o;
      if es[0].Some? { EmitToolCallDoes(env, o, es[0].value); }
      EmitToolCallsDoes(env, o1, es[1..]);
      GrewTwice(o.log, o1.log, EmitToolCalls(env, o, es).log, FRAGMENT_KINDS);
    }
  }

  lemma CloseCustomDoes(o: Out, idx: int, callId: string, name: string, input: string)
    ensures var r := CloseCustom(o, idx, callId, name, input);
            r.st == o.st && Grew(o.log, r.log, {CallEnd}) && |r.log| > |o.log|
  {
    var b1 := CustomInputDelta("ctc_" + callId, Num(idx), input);
    var b2 := CustomInputDone("ctc_" + callId, Num(idx), input);
    EmitGrew(o.log, o, b1, {CallEnd});
    EmitGrew(o.log, Emit(o, b1), b2, {CallEnd});
    EmitGrew(o.log, Emit(Emit(o, b1), b2), ItemDone(Num(idx), CallItem("ctc_" + callId, true, callId, name, input)),
             {CallEnd});
  }

  lemma CloseFunctionDoes(o: Out, idx: int, callId: string, name: string, args: string)
    ensures var r := CloseFunction(o, idx, callId, name, args);
            r.st == o.st && Grew(o.log, r.log, {CallEnd}) && |r.log| > |o.log|
  {
    var b := ArgsDone("fc_" + callId, Num(idx), args);
    EmitGrew(o.log, o, b, {CallEnd});
    EmitGrew(o.log, Emit(o, b), ItemDone(Num(idx), CallItem("fc_" + callId, false, callId, name, args)), {CallEnd});
  }

  /** Slot idx is there to be closed. */
  predicate CallDue(s: St, idx: int) { GetS(s.calls.ids, idx) != "" && idx !in s.calls.done }

  lemma CloseToolCallDoes(env: Env, o: Out, idx: int)
    ensures var (c, r) := (o.st.calls, CloseToolCall(env, o, idx));
            && r.st == o.st.(calls := c.(done := if GetS(c.ids, idx) != "" then c.done + {idx} else c.done))
            && Grew(o.log, r.log, {CallEnd})
            && (if CallDue(o.st, idx) then |r.log| > |o.log| else r.log == o.log)
  {
    var c := o.st.calls;
    if CallDue(o.st, idx) {
      var (callId, name) := (GetS(c.ids, idx), GetS(c.names, idx));
      var args := if GetS(c.args, idx) == "" then "{}" else GetS(c.args, idx);
      CloseCustomDoes(o, idx, callId, name, StreamInput(env, args));
      CloseFunctionDoes(o, idx, callId, name, args);
    } else if idx in c.done {
      assert c.done + {idx} == c.done;
    }
  }

  lemma {:induction false} CloseToolCallsDoes(env: Env, o: Out, idxs: seq<int>)
    ensures var r := CloseToolCalls(env, o, idxs);
            && r.st == o.st.(calls := o.st.calls.(done := r.st.calls.done))
            && Grew(o.log, r.log, {CallEnd})
            && ((exists k :: 0 <= k < |idxs| && CallDue(o.st, idxs[k])) <==> r.log != o.log)
    decreases |idxs|
  {
    if idxs != [] {
      var (o1, r) := (CloseToolCall(env, o, idxs[0]), CloseToolCalls(env, o, idxs));
      CloseToolCallDoes(env, o, idxs[0]);
      CloseToolCallsDoes(env, o1, idxs[1..]);
      GrewTwice(o.log, o1.log, r.log, {CallEnd});
      if CallDue(o.st, idxs[0]) {
        assert |r.log| >= |o1.log| > |o.log|;
      } else {
        assert o1 == o;
        DueCons(o, idxs);
      }
    }
  }

  lemma DueCons(o: Out, idxs: seq<int>)
    requires idxs != [] && !CallDue(o.st, idxs[0])
    ensures (exists k :: 0 <= k < |idxs| && CallDue(o.st, idxs[k]))
       <==> (exists k :: 0 <= k < |idxs[1..]| && CallDue(o.st, idxs[1..][k]))
  {
    if k :| 0 <= k < |idxs| && CallDue(o.st, idxs[k]) { assert idxs[1..][k - 1] == idxs[k]; }
    if k :| 0 <= k < |idxs[1..]| && CallDue(o.st, idxs[1..][k]) { assert idxs[k + 1] == idxs[1..][k]; }
  }
}
