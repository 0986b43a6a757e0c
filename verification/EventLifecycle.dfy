/**
 What every emitted Responses stream looks like, whatever chunks arrive:
 numbering, opening and closing of items, and the texts the closing events
 carry. Inv ties the accumulator to the log of all events emitted so far.
 */
module EventLifecycle {
  import opened Basics
  import opened JsValues
  import opened ChatToResp
  import opened StepEffects

  // ---------------------------------------------------------------- reading a log

  datatype Mark =
    | MsgAdd(i: int) | MsgDone(i: int)
    | CallAdd(i: int) | CallDone(i: int)
    | ReasonAdd | ReasonDone
    | Complete

  /** The lifecycle mark an event sets, if any; items are told apart by kind and output index. */
  ghost function MarkOf(b: Body): Option<Mark> {
    match b
    case ItemAdded(raw, MessageItem(_, _)) => Some(MsgAdd(JsIndex(raw)))
    case ItemDone(raw, MessageItem(_, _)) => Some(MsgDone(JsIndex(raw)))
    case ItemAdded(raw, CallItem(_, _, _, _, _)) => Some(CallAdd(JsIndex(raw)))
    case ItemDone(raw, CallItem(_, _, _, _, _)) => Some(CallDone(JsIndex(raw)))
    case ItemAdded(_, ReasoningItem(_, _)) => Some(ReasonAdd)
    case ItemDone(_, ReasoningItem(_, _)) => Some(ReasonDone)
    case Completed(_) => Some(Complete)
    case _ => None
  }

  ghost function Occurs(log: seq<Event>, m: Mark): nat {
    if log == [] then 0
    else Occurs(log[..|log| - 1], m) + (if MarkOf(log[|log| - 1].body) == Some(m) then 1 else 0)
  }

  /** The text deltas sent for message i, concatenated. */
  ghost function TextOf(log: seq<Event>, i: int): string {
    if log == [] then ""
    else
      var b := log[|log| - 1].body;
      var before := TextOf(log[..|log| - 1], i);
      if b.TextDelta? && JsIndex(b.outIndex) == i then before + b.delta else before
  }

  /** The reasoning deltas sent, concatenated. */
  ghost function ReasonOf(log: seq<Event>): string {
    if log == [] then ""
    else
      var b := log[|log| - 1].body;
      var before := ReasonOf(log[..|log| - 1]);
      if b.ReasoningTextDelta? then before + b.delta else before
  }

  /** Every added message, announced call and opened reasoning item is done. */
  ghost predicate AllClosed(log: seq<Event>) {
    && (forall i: int :: Occurs(log, MsgDone(i)) == Occurs(log, MsgAdd(i)))
    && (forall i: int :: Occurs(log, CallDone(i)) >= Occurs(log, CallAdd(i)))
    && Occurs(log, ReasonDone) == Occurs(log, ReasonAdd)
  }

  /** What an event may claim, given everything emitted before it. */
  ghost predicate EventOk(before: seq<Event>, b: Body) {
    match b
    case ItemAdded(raw, MessageItem(_, _)) => Occurs(before, MsgAdd(JsIndex(raw))) == 0
    case ItemAdded(raw, CallItem(_, _, _, _, _)) => Occurs(before, CallAdd(JsIndex(raw))) == 0
    case ItemAdded(_, ReasoningItem(_, _)) => Occurs(before, ReasonAdd) == 0
    case ItemDone(raw, MessageItem(_, text)) =>
      && Occurs(before, MsgAdd(JsIndex(raw))) == 1 && Occurs(before, MsgDone(JsIndex(raw))) == 0
      && text == Some(TextOf(before, JsIndex(raw)))
    case ItemDone(raw, CallItem(_, _, _, name, _)) =>
      && Occurs(before, CallDone(JsIndex(raw))) == 0
      && (name != "" <==> Occurs(before, CallAdd(JsIndex(raw))) == 1)
    case ItemDone(_, ReasoningItem(_, summary)) =>
      && Occurs(before, ReasonAdd) == 1 && Occurs(before, ReasonDone) == 0
      && summary == Some(ReasonOf(before))
    case TextDelta(_, raw, _) => Occurs(before, MsgAdd(JsIndex(raw))) == 1
    case TextDone(_, raw, text) => text == TextOf(before, JsIndex(raw))
    case ContentPartDone(_, raw, text) => text == TextOf(before, JsIndex(raw))
    case ReasoningTextDone(_, _, text) => text == ReasonOf(before)
    case ReasoningPartDone(_, _, text) => text == ReasonOf(before)
    case Completed(_) => Occurs(before, Complete) == 0 && AllClosed(before)
    case _ => true
  }

  ghost predicate Ordered(log: seq<Event>) {
    log != [] ==>
      var n := |log| - 1;
      Ordered(log[..n]) && EventOk(log[..n], log[n].body)
  }

  /** Ordered speaks about every event of the log. */
  lemma {:induction false} OrderedAt(log: seq<Event>, p: nat)
    requires Ordered(log) && p < |log|
    ensures EventOk(log[..p], log[p].body)
  {
    if p < |log| - 1 {
      var n := |log| - 1;
      OrderedAt(log[..n], p);
      assert log[..n][..p] == log[..p];
    }
  }

  // ---------------------------------------------------------------- a monitor

  /** What a reader of the stream has to remember to check EventOk event by event. */
  datatype Seen = Seen(
    msgAdded: set<int>, msgDone: set<int>, callAdded: set<int>, callDone: set<int>,
    reasonAdded: bool, reasonDone: bool, completed: bool, texts: map<int, string>, reason: string)

  const NOTHING := Seen({}, {}, {}, {}, false, false, false, map[], "")

  ghost predicate Closed(m: Seen) {
    m.msgAdded <= m.msgDone && m.callAdded <= m.callDone && (m.reasonAdded ==> m.reasonDone)
  }

  /** One event; None when it breaks a promise. */
  ghost function See(m: Seen, b: Body): Option<Seen> {
    match b
    case ItemAdded(raw, MessageItem(_, _)) =>
      if JsIndex(raw) in m.msgAdded then None else Some(m.(msgAdded := m.msgAdded + {JsIndex(raw)}))
    case ItemAdded(raw, CallItem(_, _, _, _, _)) =>
      if JsIndex(raw) in m.callAdded then None else Some(m.(callAdded := m.callAdded + {JsIndex(raw)}))
    case ItemAdded(_, ReasoningItem(_, _)) =>
      if m.reasonAdded then None else Some(m.(reasonAdded := true))
    case ItemDone(raw, MessageItem(_, text)) =>
      if JsIndex(raw) in m.msgAdded && JsIndex(raw) !in m.msgDone && text == Some(GetS(m.texts, JsIndex(raw)))
      then Some(m.(msgDone := m.msgDone + {JsIndex(raw)})) else None
    case ItemDone(raw, CallItem(_, _, _, name, _)) =>
      if JsIndex(raw) !in m.callDone && (name != "" <==> JsIndex(raw) in m.callAdded)
      then Some(m.(callDone := m.callDone + {JsIndex(raw)})) else None
    case ItemDone(_, ReasoningItem(_, summary)) =>
      if m.reasonAdded && !m.reasonDone && summary == Some(m.reason) then Some(m.(reasonDone := true)) else None
    case TextDelta(_, raw, delta) =>
      if JsIndex(raw) in m.msgAdded
      then Some(m.(texts := m.texts[JsIndex(raw) := GetS(m.texts, JsIndex(raw)) + delta])) else None
    case TextDone(_, raw, text) => if text == GetS(m.texts, JsIndex(raw)) then Some(m) else None
    case ContentPartDone(_, raw, text) => if text == GetS(m.texts, JsIndex(raw)) then Some(m) else None
    case ReasoningTextDelta(_, _, delta) => Some(m.(reason := m.reason + delta))
    case ReasoningTextDone(_, _, text) => if text == m.reason then Some(m) else None
    case ReasoningPartDone(_, _, text) => if text == m.reason then Some(m) else None
    case Completed(_) => if !m.completed && Closed(m) then Some(m.(completed := true)) else None
    case _ => Some(m)
  }

  ghost function SeeAll(log: seq<Event>): Option<Seen> {
    if log == [] then Some(NOTHING)
    else
      match SeeAll(log[..|log| - 1])
      case None => None
      case Some(m) => See(m, log[|log| - 1].body)
  }

  ghost function Marked(m: Seen, mark: Mark): nat {
    match mark
    case MsgAdd(i) => if i in m.msgAdded then 1 else 0
    case MsgDone(i) => if i in m.msgDone then 1 else 0
    case CallAdd(i) => if i in m.callAdded then 1 else 0
    case CallDone(i) => if i in m.callDone then 1 else 0
    case ReasonAdd => if m.reasonAdded then 1 else 0
    case ReasonDone => if m.reasonDone then 1 else 0
    case Complete => if m.completed then 1 else 0
  }

  ghost predicate Remembers(m: Seen, log: seq<Event>) {
    && (forall mark :: Occurs(log, mark) == Marked(m, mark))
    && (forall i: int :: TextOf(log, i) == GetS(m.texts, i))
    && ReasonOf(log) == m.reason
    && m.msgDone <= m.msgAdded && (m.reasonDone ==> m.reasonAdded)
  }

  lemma SeeIsOk(m: Seen, log: seq<Event>, b: Body)
    requires Remembers(m, log) && See(m, b).Some?
    ensures EventOk(log, b)
  {
    if b.Completed? {
      forall i: int
        ensures Occurs(log, MsgDone(i)) == Occurs(log, MsgAdd(i)) && Occurs(log, CallDone(i)) >= Occurs(log, CallAdd(i))
      {
        assert Occurs(log, MsgDone(i)) == Marked(m, MsgDone(i)) && Occurs(log, MsgAdd(i)) == Marked(m, MsgAdd(i));
        assert Occurs(log, CallDone(i)) == Marked(m, CallDone(i)) && Occurs(log, CallAdd(i)) == Marked(m, CallAdd(i));
      }
      assert AllClosed(log);
    }
  }

  lemma OccursNext(log: seq<Event>, e: Event, mark: Mark)
    ensures Occurs(log + [e], mark) == Occurs(log, mark) + (if MarkOf(e.body) == Some(mark) then 1 else 0)
  {
    assert (log + [e])[..|log|] == log;
  }

  lemma SeeMarked(m: Seen, b: Body, mark: Mark)
    requires See(m, b).Some?
    ensures Marked(See(m, b).value, mark) == Marked(m, mark) + (if MarkOf(b) == Some(mark) then 1 else 0)
  {
  }

  lemma SeeMarks(m: Seen, log: seq<Event>, e: Event, mark: Mark)
    requires See(m, e.body).Some? && Occurs(log, mark) == Marked(m, mark)
    ensures Occurs(log + [e], mark) == Marked(See(m, e.body).value, mark)
  {
    OccursNext(log, e, mark);
    SeeMarked(m, e.body, mark);
  }

  lemma SeeBuffers(m: Seen, b: Body)
    requires See(m, b).Some?
    ensures See(m, b).value.texts
         == if b.TextDelta? then m.texts[JsIndex(b.outIndex) := GetS(m.texts, JsIndex(b.outIndex)) + b.delta]
            else m.texts
    ensures See(m, b).value.reason == if b.ReasoningTextDelta? then m.reason + b.delta else m.reason
  {
  }

  lemma SeeTexts(m: Seen, log: seq<Event>, e: Event, i: int)
    requires See(m, e.body).Some? && TextOf(log, i) == GetS(m.texts, i) && ReasonOf(log) == m.reason
    ensures TextOf(log + [e], i) == GetS(See(m, e.body).value.texts, i)
    ensures ReasonOf(log + [e]) == See(m, e.body).value.reason
  {
    assert (log + [e])[..|log|] == log;
    SeeBuffers(m, e.body);
  }

  lemma SeeMeansOk(m: Seen, log: seq<Event>, e: Event)
    requires Remembers(m, log) && See(m, e.body).Some?
    ensures EventOk(log, e.body) && Remembers(See(m, e.body).value, log + [e])
  {
    SeeIsOk(m, log, e.body);
    var n := See(m, e.body).value;
    forall mark ensures Occurs(log + [e], mark) == Marked(n, mark) { SeeMarks(m, log, e, mark); }
    forall i: int ensures TextOf(log + [e], i) == GetS(n.texts, i) { SeeTexts(m, log, e, i); }
    SeeTexts(m, log, e, 0);
  }

  /** A log the monitor accepts keeps every promise, and the monitor remembers it exactly. */
  lemma {:induction false} AcceptedIsOrdered(log: seq<Event>)
    requires SeeAll(log).Some?
    ensures Remembers(SeeAll(log).value, log) && Ordered(log)
  {
    if log != [] {
      var n := |log| - 1;
      AcceptedIsOrdered(log[..n]);
      SeeMeansOk(SeeAll(log[..n]).value, log[..n], log[n]);
      assert log == log[..n] + [log[n]];
    }
  }

  // ---------------------------------------------------------------- the invariant

  ghost function Abstract(s: St): Seen {
    Seen(s.msgs.added, s.msgs.done, s.calls.added, s.calls.done, s.reason.id != "", s.reason.done, s.completed,
         s.msgs.text, s.reason.buf)
  }

  ghost predicate Numbered(o: Out) {
    o.seqNo == |o.log| && forall i :: 0 <= i < |o.log| ==> o.log[i].sequence == i + 1
  }

  /** Both the id and the name of call i are known. */
  ghost predicate Known(c: Calls, i: int) { GetS(c.ids, i) != "" && GetS(c.names, i) != "" }

  /** A call is announced exactly when it is known (but for the call being worked on). */
  ghost predicate CallsShaped(c: Calls, skip: Option<int>) {
    && (forall i :: i in c.added ==> Known(c, i))
    && (forall i :: Known(c, i) && Some(i) != skip ==> i in c.added)
  }

  ghost predicate InvBut(o: Out, skip: Option<int>) {
    Numbered(o) && SeeAll(o.log) == Some(Abstract(o.st)) && CallsShaped(o.st.calls, skip)
  }

  ghost predicate Inv(o: Out) { InvBut(o, None) }

  lemma EmitSeen(o: Out, b: Body, m: Seen)
    requires Numbered(o) && SeeAll(o.log) == Some(m)
    ensures Numbered(Emit(o, b)) && SeeAll(Emit(o, b).log) == See(m, b)
  {
    assert Emit(o, b).log[..|o.log|] == o.log;
  }

  // ---------------------------------------------------------------- every step keeps it

  /** One event b, and fields as the monitor expects them after it. */
  lemma EventKeeps(o: Out, q: Out, b: Body, skip: Option<int>)
    requires InvBut(o, skip)
    requires q.seqNo == o.seqNo + 1 && q.log == o.log + [Event(o.seqNo + 1, b)]
    requires See(Abstract(o.st), b) == Some(Abstract(q.st)) && CallsShaped(q.st.calls, None)
    ensures Inv(q)
  {
    EmitSeen(o, b, Abstract(o.st));
    assert q.log == Emit(o, b).log;
  }

  /** Such an event of a message or of the reasoning. */
  lemma PlainEventKeeps(o: Out, q: Out, b: Body)
    requires Inv(o) && q.st.calls == o.st.calls
    requires q.seqNo == o.seqNo + 1 && q.log == o.log + [Event(o.seqNo + 1, b)]
    requires See(Abstract(o.st), b) == Some(Abstract(q.st))
    ensures Inv(q)
  {
    EventKeeps(o, q, b, None);
  }

  lemma StartReasoningKeeps(o: Out, raw: Raw)
    requires Inv(o)
    ensures Inv(StartReasoning(o, raw))
  {
    if o.st.reason.id == "" {
      var id := "rs_" + o.st.responseId + "_" + raw.JsString();
      assert id[0] == 'r';
      var o1 := WithReason(o, o.st.reason.(id := id, index := raw));
      var o2 := Emit(o1, ItemAdded(raw, ReasoningItem(id, None)));
      PlainEventKeeps(o, o2, ItemAdded(raw, ReasoningItem(id, None)));
      NeutralKeeps(o2, ReasoningPartAdded(id, raw));
    }
  }

  /** Fields the monitor does not see may change. */
  lemma AlikeKeeps(o: Out, r: Out)
    requires Inv(o) && r.log == o.log && r.seqNo == o.seqNo
    requires Abstract(r.st) == Abstract(o.st) && r.st.calls == o.st.calls
    ensures Inv(r)
  {
  }

  lemma EmitReasoningKeeps(o: Out, text: string)
    requires Inv(o)
    ensures Inv(EmitReasoning(o, text))
  {
    if text != "" {
      PlainEventKeeps(o, EmitReasoning(o, text), ReasoningTextDelta(o.st.reason.id, o.st.reason.index, text));
    }
  }

  lemma CloseReasoningKeeps(o: Out)
    requires Inv(o)
    ensures Inv(CloseReasoning(o))
  {
    var r := o.st.reason;
    if r.id != "" && !r.done {
      var m := Abstract(o.st);
      var o1 := WithReason(o, r.(done := true));
      EmitSeen(o1, ReasoningTextDone(r.id, r.index, r.buf), m);
      var o2 := Emit(o1, ReasoningTextDone(r.id, r.index, r.buf));
      EmitSeen(o2, ReasoningPartDone(r.id, r.index, r.buf), m);
      EmitSeen(Emit(o2, ReasoningPartDone(r.id, r.index, r.buf)),
               ItemDone(r.index, ReasoningItem(r.id, Some(r.buf))), m);
    }
  }

  lemma AnnounceMessageKeeps(o: Out, raw: Raw)
    requires Inv(o)
    ensures Inv(AnnounceMessage(o, raw)) && JsIndex(raw) in AnnounceMessage(o, raw).st.msgs.added
  {
    if JsIndex(raw) !in o.st.msgs.added {
      AnnouncementIsSeen(o.st, o.st.msgs, raw, MsgId(o.st, JsIndex(raw)));
      PlainEventKeeps(o, AnnounceMessage(o, raw), ItemAdded(raw, MessageItem(MsgId(o.st, JsIndex(raw)), None)));
    }
  }

  lemma AnnouncementIsSeen(s: St, m: Messages, raw: Raw, id: string)
    requires m == s.msgs && JsIndex(raw) !in m.added
    ensures See(Abstract(s), ItemAdded(raw, MessageItem(id, None)))
         == Some(Abstract(s.(msgs := m.(added := m.added + {JsIndex(raw)}))))
  {
  }

  lemma AnnounceContentKeeps(o: Out, raw: Raw)
    requires Inv(o)
    ensures Inv(AnnounceContent(o, raw))
    ensures Abstract(AnnounceContent(o, raw).st) == Abstract(o.st)
  {
    var o1 := WithMsgs(o, o.st.msgs.(contentAdded := o.st.msgs.contentAdded + {JsIndex(raw)}));
    AlikeKeeps(o, o1);
    NeutralKeeps(o1, ContentPartAdded(MsgId(o.st, JsIndex(raw)), raw));
  }

  lemma EmitTextKeeps(o: Out, raw: Raw, content: string)
    requires Inv(o)
    ensures Inv(EmitText(o, raw, content))
  {
    var o1 := AnnounceMessage(o, raw);
    var o2 := AnnounceContent(o1, raw);
    AnnounceMessageKeeps(o, raw);
    AnnounceContentKeeps(o1, raw);
    PlainEventKeeps(o2, EmitText(o, raw, content), TextDelta(MsgId(o.st, JsIndex(raw)), raw, content));
  }

  lemma FinishMessageKeeps(o: Out, idx: int, id: string)
    requires Inv(o) && idx in o.st.msgs.added && idx !in o.st.msgs.done
    ensures Inv(FinishMessage(o, idx, id))
  {
    var text := GetS(o.st.msgs.text, idx);
    var m := Abstract(o.st);
    var o1 := WithMsgs(o, o.st.msgs.(done := o.st.msgs.done + {idx}));
    EmitSeen(o1, TextDone(id, Num(idx), text), m);
    var o2 := Emit(o1, TextDone(id, Num(idx), text));
    EmitSeen(o2, ContentPartDone(id, Num(idx), text), m);
    EmitSeen(Emit(o2, ContentPartDone(id, Num(idx), text)), ItemDone(Num(idx), MessageItem(id, Some(text))), m);
  }

  lemma CloseMessageKeeps(o: Out, idx: int)
    requires Inv(o)
    ensures Inv(CloseMessage(o, idx))
  {
    if idx in o.st.msgs.added && idx !in o.st.msgs.done {
      FinishMessageKeeps(o, idx, MsgId(o.st, idx));
    }
  }

  lemma IdentifyShapes(c: Calls, tc: ToolCall)
    requires CallsShaped(c, None)
    ensures CallsShaped(Identify(c, tc), Some(CallSlot(tc)))
  {
    var d := Identify(c, tc);
    forall i | i != CallSlot(tc) ensures Known(d, i) == Known(c, i) {
      assert GetS(d.ids, i) == GetS(c.ids, i) && GetS(d.names, i) == GetS(c.names, i);
    }
  }

  lemma EmitToolCallKeeps(env: Env, o: Out, tc: ToolCall)
    requires Inv(o)
    ensures Inv(EmitToolCall(env, o, tc))
  {
    IdentifyShapes(o.st.calls, tc);
    var o1 := WithCalls(o, Identify(o.st.calls, tc));
    AnnounceCallKeeps(env, o1, CallIndexRaw(tc));
    EmitArgsKeeps(env, AnnounceCall(env, o1, CallIndexRaw(tc)), CallIndexRaw(tc), tc.args, tc.id.AsStr());
  }

  lemma AnnounceCallKeeps(env: Env, o: Out, raw: Raw)
    requires InvBut(o, Some(JsIndex(raw)))
    ensures Inv(AnnounceCall(env, o, raw))
  {
    var (c, idx) := (o.st.calls, JsIndex(raw));
    var (callId, name) := (GetS(c.ids, idx), GetS(c.names, idx));
    var custom := IsCustom(env, name);
    var d := c.(added := c.added + {idx});
    assert Known(c, idx) <==> callId != "" && name != "";
    assert forall i :: Known(d, i) == Known(c, i);
    if idx !in c.added && Known(c, idx) {
      var b := ItemAdded(raw, CallItem((if custom then "ctc_" else "fc_") + callId, custom, callId, name, ""));
      EventKeeps(o, AnnounceCall(env, o, raw), b, Some(idx));
    }
  }

  /** Known depends on the id and name tables only. */
  lemma ReshapeKeeps(c: Calls, d: Calls)
    requires CallsShaped(c, None) && d.ids == c.ids && d.names == c.names && d.added == c.added
    ensures CallsShaped(d, None)
  {
    assert forall i :: Known(d, i) == Known(c, i);
  }

  /** Argument buffers are nobody's concern here. */
  lemma BufferKeeps(o: Out, args: map<int, string>)
    requires Inv(o)
    ensures Inv(WithCalls(o, o.st.calls.(args := args)))
  {
    ReshapeKeeps(o.st.calls, o.st.calls.(args := args));
  }

  lemma EmitArgsKeeps(env: Env, o: Out, raw: Raw, args: Raw, newId: string)
    requires Inv(o)
    ensures Inv(EmitArgs(env, o, raw, args, newId))
  {
    if args.Truthy() {
      var (c, idx) := (o.st.calls, JsIndex(raw));
      var callId := if GetS(c.ids, idx) == "" then newId else GetS(c.ids, idx);
      var b := ArgsDelta("fc_" + callId, raw, args);
      var sent := idx in c.added && callId != "" && !IsCustom(env, GetS(c.names, idx));
      var o1 := if sent then Emit(o, b) else o;
      if sent { NeutralKeeps(o, b); }
      BufferKeeps(o1, c.args[idx := GetS(c.args, idx) + args.JsString()]);
      assert o1.st.calls == c;
    }
  }

  /** An event the monitor does not care about. */
  lemma NeutralKeeps(o: Out, b: Body)
    requires Inv(o) && See(Abstract(o.st), b) == Some(Abstract(o.st))
    ensures Inv(Emit(o, b))
  {
    EmitSeen(o, b, Abstract(o.st));
  }

  lemma {:induction false} EmitToolCallsKeeps(env: Env, o: Out, calls: seq<Option<ToolCall>>)
    requires Inv(o)
    ensures Inv(EmitToolCalls(env, o, calls))
    decreases |calls|
  {
    if calls != [] {
      var o1 := if calls[0].Some? then EmitToolCall(env, o, calls[0].value) else o;
      if calls[0].Some? { EmitToolCallKeeps(env, o, calls[0].value); }
      EmitToolCallsKeeps(env, o1, calls[1..]);
    }
  }

  /** The final event of a call: it follows its announcement exactly when the name is known. */
  lemma DoneKeeps(o: Out, idx: int, item: Item)
    requires Inv(o) && item.CallItem? && item.name == GetS(o.st.calls.names, idx)
    requires GetS(o.st.calls.ids, idx) != "" && idx !in o.st.calls.done
    ensures Inv(WithCalls(Emit(o, ItemDone(Num(idx), item)), o.st.calls.(done := o.st.calls.done + {idx})))
  {
    var c := o.st.calls;
    var d := c.(done := c.done + {idx});
    assert Known(c, idx) <==> item.name != "";
    ReshapeKeeps(c, d);
    EventKeeps(o, WithCalls(Emit(o, ItemDone(Num(idx), item)), d), ItemDone(Num(idx), item), None);
  }

  lemma CloseToolCallKeeps(env: Env, o: Out, idx: int)
    requires Inv(o)
    ensures Inv(CloseToolCall(env, o, idx))
  {
    var c := o.st.calls;
    var callId := GetS(c.ids, idx);
    if callId != "" && idx !in c.done {
      var args := if GetS(c.args, idx) == "" then "{}" else GetS(c.args, idx);
      var name := GetS(c.names, idx);
      if IsCustom(env, name) {
        var input := StreamInput(env, args);
        NeutralKeeps(o, CustomInputDelta("ctc_" + callId, Num(idx), input));
        var o1 := Emit(o, CustomInputDelta("ctc_" + callId, Num(idx), input));
        NeutralKeeps(o1, CustomInputDone("ctc_" + callId, Num(idx), input));
        DoneKeeps(Emit(o1, CustomInputDone("ctc_" + callId, Num(idx), input)), idx,
                  CallItem("ctc_" + callId, true, callId, name, input));
      } else {
        NeutralKeeps(o, ArgsDone("fc_" + callId, Num(idx), args));
        DoneKeeps(Emit(o, ArgsDone("fc_" + callId, Num(idx), args)), idx,
                  CallItem("fc_" + callId, false, callId, name, args));
      }
    }
  }

  lemma {:induction false} CloseMessagesKeeps(o: Out, idxs: seq<int>)
    requires Inv(o)
    ensures Inv(CloseMessages(o, idxs))
    decreases |idxs|
  {
    if idxs != [] {
      CloseMessageKeeps(o, idxs[0]);
      CloseMessagesKeeps(CloseMessage(o, idxs[0]), idxs[1..]);
    }
  }

  lemma {:induction false} CloseMessagesCloses(o: Out, idxs: seq<int>)
    ensures var m := CloseMessages(o, idxs).st.msgs;
            && CloseMessages(o, idxs).st == o.st.(msgs := m)
            && m == o.st.msgs.(done := m.done) && o.st.msgs.done <= m.done
            && (forall i :: i in idxs && i in m.added ==> i in m.done)
    decreases |idxs|
  {
    if idxs != [] {
      CloseMessagesCloses(CloseMessage(o, idxs[0]), idxs[1..]);
    }
  }

  lemma {:induction false} CloseToolCallsKeeps(env: Env, o: Out, idxs: seq<int>)
    requires Inv(o)
    ensures Inv(CloseToolCalls(env, o, idxs))
    decreases |idxs|
  {
    if idxs != [] {
      CloseToolCallKeeps(env, o, idxs[0]);
      CloseToolCallsKeeps(env, CloseToolCall(env, o, idxs[0]), idxs[1..]);
    }
  }

  lemma {:induction false} CloseToolCallsCloses(env: Env, o: Out, idxs: seq<int>)
    ensures var c := CloseToolCalls(env, o, idxs).st.calls;
            && CloseToolCalls(env, o, idxs).st == o.st.(calls := c)
            && c == o.st.calls.(done := c.done) && o.st.calls.done <= c.done
            && (forall i :: i in idxs && GetS(c.ids, i) != "" ==> i in c.done)
    decreases |idxs|
  {
    if idxs != [] {
      CloseToolCallsCloses(env, CloseToolCall(env, o, idxs[0]), idxs[1..]);
    }
  }

  lemma SendCompletedKeeps(o: Out)
    requires Inv(o) && Closed(Abstract(o.st))
    ensures Inv(SendCompleted(o)) && SendCompleted(o).st.completed
  {
    EmitSeen(o.(st := o.st.(completed := true)), Completed(o.st.responseId), Abstract(o.st));
  }

  /** Every added message, the opened reasoning item and every call with a known id is done. */
  ghost predicate NothingOpen(s: St) {
    && s.msgs.added <= s.msgs.done
    && (s.reason.id != "" ==> s.reason.done)
    && (forall i :: GetS(s.calls.ids, i) != "" ==> i in s.calls.done)
  }

  lemma CloseAllCloses(env: Env, o: Out)
    ensures NothingOpen(CloseAll(env, o).st)
  {
    CloseMessagesCloses(o, SortedKeys(o.st.msgs.added));
    var o1 := CloseReasoning(CloseMessages(o, SortedKeys(o.st.msgs.added)));
    CloseToolCallsCloses(env, o1, SortedKeys(o1.st.calls.ids.Keys));
  }

  lemma CloseAllKeeps(env: Env, o: Out)
    requires Inv(o)
    ensures Inv(CloseAll(env, o))
  {
    var o0 := CloseMessages(o, SortedKeys(o.st.msgs.added));
    CloseMessagesKeeps(o, SortedKeys(o.st.msgs.added));
    CloseReasoningKeeps(o0);
    CloseToolCallsKeeps(env, CloseReasoning(o0), SortedKeys(CloseReasoning(o0).st.calls.ids.Keys));
  }

  lemma NothingOpenIsClosed(s: St)
    requires NothingOpen(s) && CallsShaped(s.calls, None)
    ensures Closed(Abstract(s))
  {
    forall i | i in s.calls.added ensures i in s.calls.done { assert Known(s.calls, i); }
  }

  lemma FinishKeeps(env: Env, o: Out)
    requires Inv(o)
    ensures Inv(Finish(env, o)) && Finish(env, o).st.completed && NothingOpen(Finish(env, o).st)
  {
    CloseAllKeeps(env, o);
    CloseAllCloses(env, o);
    NothingOpenIsClosed(CloseAll(env, o).st);
    SendCompletedKeeps(CloseAll(env, o));
  }

  lemma StartKeeps(env: Env, o: Out, id: Raw)
    requires Inv(o)
    ensures Inv(Start(env, o, id))
  {
    if !o.st.started {
      var named := if id.AsStr() != "" then "resp_" + id.AsStr() else o.st.responseId;
      var responseId := if named == "" then "resp_" + env.clock else named;
      var o1 := o.(st := o.st.(started := true, responseId := responseId));
      NeutralKeeps(o1, Created(responseId));
      NeutralKeeps(Emit(o1, Created(responseId)), InProgress(responseId));
    }
  }

  lemma OpenThinkingKeeps(o: Out, raw: Raw, content: string)
    requires Inv(o)
    ensures Inv(OpenThinking(o, raw, content).0)
  {
    var o1 := o.(st := o.st.(inThinking := true));
    StartReasoningKeeps(o1, raw);
  }

  lemma EndThinkingKeeps(o: Out, lastPart: string)
    requires Inv(o)
    ensures Inv(EndThinking(o, lastPart))
  {
    EmitReasoningKeeps(o, lastPart);
    CloseReasoningKeeps(EmitReasoning(o, lastPart));
  }

  lemma CloseThinkingKeeps(o: Out, content: string)
    requires Inv(o)
    ensures Inv(CloseThinking(o, content).0)
  {
    match Find(content, CLOSE_TAG) {
      case None =>
      case Some(i) => EndThinkingKeeps(o, content[..i]);
    }
  }

  lemma ConvertContentKeeps(o: Out, raw: Raw, content: string)
    requires Inv(o)
    ensures Inv(ConvertContent(o, raw, content).0)
  {
    if content != "" {
      OpenThinkingKeeps(o, raw, content);
      var (o1, c1) := OpenThinking(o, raw, content);
      CloseThinkingKeeps(o1, c1);
      var (o2, c2) := CloseThinking(o1, c1);
      if o2.st.inThinking && c2 != "" {
        EmitReasoningKeeps(o2, c2);
      } else if c2 != "" {
        EmitTextKeeps(o2, raw, c2);
      }
    }
  }

  lemma ConvertReasoningKeeps(o: Out, raw: Raw, text: string)
    requires Inv(o)
    ensures Inv(ConvertReasoning(o, raw, text))
  {
    if text != "" {
      StartReasoningKeeps(o, raw);
      EmitReasoningKeeps(StartReasoning(o, raw), text);
    }
  }

  lemma ConvertCallsKeeps(env: Env, o: Out, idx: int, calls: Option<seq<Option<ToolCall>>>)
    requires Inv(o)
    ensures Inv(ConvertCalls(env, o, idx, calls))
  {
    if calls.Some? && calls.value != [] {
      CloseMessageKeeps(o, idx);
      EmitToolCallsKeeps(env, CloseMessage(o, idx), calls.value);
    }
  }

  lemma ConvertChoiceKeeps(env: Env, o: Out, id: Raw, c: Choice)
    requires Inv(o)
    ensures Inv(ConvertChoice(env, o, id, c))
  {
    var raw := ChoiceIndexRaw(c);
    StartKeeps(env, o, id);
    ConvertReasoningKeeps(Start(env, o, id), raw, ReasoningText(c.delta));
    var o1 := ConvertReasoning(Start(env, o, id), raw, ReasoningText(c.delta));
    ConvertContentKeeps(o1, raw, c.delta.content.AsStr());
    var (o2, early) := ConvertContent(o1, raw, c.delta.content.AsStr());
    if !early {
      ConvertCallsKeeps(env, o2, JsIndex(raw), c.delta.toolCalls);
      FinishKeeps(env, ConvertCalls(env, o2, JsIndex(raw), c.delta.toolCalls));
    }
  }

  /** One chunk, or the closing flush, keeps the invariant. */
  lemma ConvertKeeps(env: Env, o: Out, chunk: Option<Chunk>)
    requires Inv(o)
    ensures Inv(ConvertOn(env, o, chunk))
  {
    match chunk {
      case None => FinishKeeps(env, o);
      case Some(Chunk(id, choice, _)) =>
        if choice.Some? { ConvertChoiceKeeps(env, o, id, choice.value); }
    }
  }

  lemma {:induction false} RunKeeps(env: Env, o: Out, chunks: seq<Chunk>)
    requires Inv(o)
    ensures Inv(Run(env, o, chunks))
    decreases |chunks|
  {
    if chunks != [] {
      ConvertKeeps(env, o, Some(chunks[0]));
      RunKeeps(env, ConvertOn(env, o, Some(chunks[0])), chunks[1..]);
    }
  }

  // ---------------------------------------------------------------- main results

  lemma StreamKeeps(env: Env, responseId: string, chunks: seq<Chunk>)
    ensures Inv(Stream(env, responseId, chunks)) && Stream(env, responseId, chunks).st.completed
  {
    var o := Out(Fresh(responseId), 0, []);
    assert forall i :: !Known(o.st.calls, i);
    RunKeeps(env, o, chunks);
    FinishKeeps(env, Run(env, o, chunks));
  }

  /** Whatever chunks arrive, the flushed stream is numbered 1..n without a gap, completes exactly once,
      adds and finishes every item at most once, never finishes a message or reasoning item it did not add,
      and every event keeps the promises of EventOk. */
  lemma StreamLifecycle(env: Env, responseId: string, chunks: seq<Chunk>)
    ensures var log := Stream(env, responseId, chunks).log;
            && (forall i :: 0 <= i < |log| ==> log[i].sequence == i + 1)
            && Occurs(log, Complete) == 1
            && (forall m :: Occurs(log, m) <= 1)
            && (forall i: int :: Occurs(log, MsgDone(i)) <= Occurs(log, MsgAdd(i)))
            && Occurs(log, ReasonDone) <= Occurs(log, ReasonAdd)
            && (forall p :: 0 <= p < |log| ==> EventOk(log[..p], log[p].body))
  {
    StreamKeeps(env, responseId, chunks);
    var log := Stream(env, responseId, chunks).log;
    AcceptedIsOrdered(log);
    var m := SeeAll(log).value;
    assert forall mark :: Occurs(log, mark) == Marked(m, mark);
    forall p | 0 <= p < |log| ensures EventOk(log[..p], log[p].body) {
      OrderedAt(log, p);
    }
  }

  // ---------------------------------------------------------------- thinking spans

  /** Nothing of the content but one opening and then one closing tag is lost, and the order is kept. */
  lemma SplitLosesOnlyTags(inThinking: bool, content: string)
    ensures Split(inThinking, content).0 + Split(inThinking, content).1
         == RemoveFirst(RemoveFirst(content, OPEN_TAG), CLOSE_TAG)
  {
    var c := RemoveFirst(content, OPEN_TAG);
    match Find(c, CLOSE_TAG) {
      case None =>
      case Some(i) =>
    }
  }

  /** ConvertContent sends exactly the two parts of Split: the first on the reasoning channel, the second as
      message text of the chunk's index. */
  lemma ContentIsSplit(o: Out, raw: Raw, content: string)
    requires Inv(o)
    ensures var (reason, text, stays) := Split(o.st.inThinking, content);
            var r := ConvertContent(o, raw, content).0;
            && ReasonOf(r.log) == ReasonOf(o.log) + reason
            && TextOf(r.log, JsIndex(raw)) == TextOf(o.log, JsIndex(raw)) + text
            && (content != "" ==> r.st.inThinking == stays)
  {
    ConvertContentKeeps(o, raw, content);
    AcceptedIsOrdered(o.log);
    AcceptedIsOrdered(ConvertContent(o, raw, content).0.log);
    ContentDoes(o, raw, content);
    EmptySplit(o.st.inThinking);
  }

  /** The pattern first occurs in s at place i. */
  ghost predicate FirstAt(s: string, pat: string, i: nat) {
    i + |pat| <= |s| && s[i..i + |pat|] == pat && forall j :: 0 <= j < i ==> !(pat <= s[j..])
  }

  ghost predicate Absent(s: string, pat: string) { forall j :: 0 <= j <= |s| ==> !(pat <= s[j..]) }

  lemma FindExactly(s: string, pat: string)
    requires pat != ""
    ensures forall i: nat :: Find(s, pat) == Some(i) <==> FirstAt(s, pat, i)
    ensures Find(s, pat).None? <==> Absent(s, pat)
  {
    FindIsFirst(s, pat);
    if Find(s, pat).Some? { assert pat <= s[Find(s, pat).value..]; }
    forall i: nat ensures Find(s, pat) == Some(i) <==> FirstAt(s, pat, i) {
      if FirstAt(s, pat, i) { assert pat <= s[i..]; }
      if Find(s, pat) == Some(i) { assert s[i..][..|pat|] == s[i..i + |pat|]; }
    }
  }

  /** How one content is split, with the tags written out: the first opening tag goes; up to the first closing tag it is
      reasoning, and text after that; without a closing tag it is all the one or the other. rest is the content without
      its opening tag, tagged says that it had one. */
  lemma SplitExactly(inThinking: bool, content: string, tagged: bool, rest: string, i: nat, j: nat)
    requires if tagged then FirstAt(content, "<think>", i) && rest == content[..i] + content[i + 7..]
             else Absent(content, "<think>") && rest == content
    ensures FirstAt(rest, "</think>", j) ==> Split(inThinking, content) == (rest[..j], rest[j + 8..], false)
    ensures Absent(rest, "</think>") ==>
              Split(inThinking, content) == if inThinking || tagged then (rest, "", true) else ("", rest, false)
    ensures Tagged(content) == tagged && (ClosesTag(content) <==> content != "" && !Absent(rest, "</think>"))
    ensures EndsThinking(inThinking, content) <==> rest != "" && Absent(rest, "</think>") && (inThinking || tagged)
  {
    FindExactly(content, "<think>");
    FindExactly(rest, "</think>");
    assert OPEN_TAG == "<think>" && CLOSE_TAG == "</think>";
  }

  lemma {:induction false} DetailsJoin(a: seq<Detail>, b: seq<Detail>)
    ensures DetailsText(a + b) == DetailsText(a) + DetailsText(b)
  {
    if a == [] {
      assert a + b == b && "" + DetailsText(b) == DetailsText(b);
    } else {
      assert (a + b)[1..] == a[1..] + b;
      DetailsJoin(a[1..], b);
      assert (DetailText(a[0]) + DetailsText(a[1..])) + DetailsText(b)
          == DetailText(a[0]) + (DetailsText(a[1..]) + DetailsText(b));
    }
  }

  /** The reasoning of a delta is its reasoning_content, or else its reasoning, or else what its reasoning_details say
      one after the other: a text itself, an object by its text or else its content, anything else by nothing. */
  lemma ReasoningExactly(d: Delta, a: seq<Detail>, last: Detail)
    ensures d.reasoningContent.Str? && d.reasoningContent.s != "" ==> ReasoningText(d) == d.reasoningContent.s
    ensures !(d.reasoningContent.Str? && d.reasoningContent.s != "") && d.reasoning.Str? && d.reasoning.s != "" ==>
              ReasoningText(d) == d.reasoning.s
    ensures !(d.reasoningContent.Str? && d.reasoningContent.s != "") && !(d.reasoning.Str? && d.reasoning.s != "") ==>
              ReasoningText(d) == if d.details.Some? then DetailsText(d.details.value) else ""
    ensures DetailsText([]) == ""
    ensures DetailsText(a + [last])
         == DetailsText(a)
            + (match last
               case TextDetail(t) => t
               case ObjectDetail(t, c) => if t.Str? && t.s != "" then t.s else if c.Str? then c.s else ""
               case OtherDetail => "")
  {
    DetailsJoin(a, [last]);
    assert [last][1..] == [] && DetailText(last) + "" == DetailText(last);
  }
}
