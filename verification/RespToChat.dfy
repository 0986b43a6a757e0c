/**
 internal/translate/stream_resp2chat.go: the state machine that turns Responses
 events into chat completion chunks. Composite JSON values are carried by their
 JSON text here, because that is what mapKeyOf keys them by.
 */
module RespToChat {
  import opened Basics
  import opened JsValues

  const FUNCTION_CALL := "function_call"
  const CUSTOM_TOOL_CALL := "custom_tool_call"

  datatype Item = Item(kind: string, id: Raw, callId: Raw, name: string, args: Raw)

  /** One parsed event; kind is its type (or event) field, now the id that FallbackToolCallID would mint. */
  datatype Event = Event(kind: string, delta: Raw, itemId: Raw, item: Option<Item>, error: Raw, responseError: Raw,
                         now: string)

  /** The delta of a chat chunk. */
  datatype Delta =
    | Content(text: Raw)
    | Reasoning(text: Raw)
    | CallStart(index: nat, id: Raw, name: string)
    | CallArgs(at: Raw, args: Raw)
    | ErrorText(error: Raw)
    | Empty

  datatype Chunk = Chunk(delta: Delta, finish: Option<string>)

  const TOOL_CALLS := "tool_calls"
  const STOP := "stop"

  /** mapKeyOf: primitives are told apart by type and value. */
  function MapKey(v: Raw): string {
    match v
    case Str(s) => "s:" + s
    case Num(n) => "n:" + Itoa(n)
    case Bool(b) => if b then "b:true" else "b:false"
    case Null => "j:null"
    case Composite(r) => "j:" + r
  }

  /** An array's or object's JSON text starts with its bracket. */
  predicate WellFormed(v: Raw) { v.Composite? ==> v.rendering != "" && v.rendering[0] in {'[', '{'} }

  lemma MapKeyDecodes(v: Raw, w: Raw)
    requires WellFormed(v) && WellFormed(w)
    ensures MapKey(v) == MapKey(w) <==> v == w
  {
    var (a, b) := (MapKey(v), MapKey(w));
    if a == b {
      assert a[0] == b[0] && a[2..] == b[2..];
      match v {
        case Str(s) => assert a[2..] == s && w.Str? && b[2..] == w.s;
        case Num(n) => assert a[2..] == Itoa(n) && w.Num? && b[2..] == Itoa(w.n); ItoaInjective(n, w.n);
        case Bool(x) =>
          assert w.Bool? && a[2..] == (if x then "true" else "false");
          assert b[2..] == (if w.b then "true" else "false");
        case Null => assert a[2..] == "null";
        case Composite(r) => assert a[2..] == r;
      }
      if w.Null? { assert b[2..] == "null"; }
      if w.Composite? { assert b[2..] == w.rendering; }
    }
  }

  /** The accumulator: index maps an item key to its tool_calls index, emitted holds the keys of indices that were
      sent arguments. */
  datatype St = St(
    started: bool,
    calls: nat,
    current: Raw,
    index: map<string, nat>,
    emitted: set<string>,
    finishSent: bool,
    finishReason: string,
    error: Raw)

  const FRESH := St(false, 0, Null, map[], {}, false, "", Null)

  datatype Reply = Reply(st: St, chunk: Option<Chunk>)

  function Plain(st: St, delta: Delta): Reply { Reply(st, Some(Chunk(delta, None))) }

  function Silent(st: St): Reply { Reply(st, None) }

  function FinishOf(st: St): string { if st.calls > 0 || st.current != Null then TOOL_CALLS else STOP }

  function FinalChunk(st: St): Reply {
    Reply(st.(finishSent := true, finishReason := FinishOf(st)), Some(Chunk(Empty, Some(FinishOf(st)))))
  }

  function OrElse(a: Raw, b: Raw): Raw { if a.Truthy() then a else b }

  predicate IsCall(e: Event) { e.item.Some? && e.item.value.kind in {FUNCTION_CALL, CUSTOM_TOOL_CALL} }

  function CallIdOf(e: Event): Raw
    requires IsCall(e)
  {
    OrElse(e.item.value.callId, Str(e.now))
  }

  /** The key an announcement registers: the item's id, else the event's item_id, else the call id. */
  function AnnouncedKey(e: Event): Raw
    requires IsCall(e)
  {
    OrElse(OrElse(e.item.value.id, e.itemId), CallIdOf(e))
  }

  function Announce(st: St, e: Event): Reply
    requires IsCall(e)
  {
    var key := MapKey(AnnouncedKey(e));
    var known := key in st.index;
    var idx := if known then st.index[key] else st.calls;
    Plain(st.(current := CallIdOf(e), calls := if known then st.calls else st.calls + 1,
              index := if known then st.index else st.index[key := idx]),
          CallStart(idx, CallIdOf(e), e.item.value.name))
  }

  /** The latest call, for fragments that name no known item. */
  function Latest(st: St): nat { if st.calls > 0 then st.calls - 1 else 0 }

  function KnownOr(st: St, key: Raw): nat {
    if key.Truthy() && MapKey(key) in st.index then st.index[MapKey(key)] else Latest(st)
  }

  function Fragment(st: St, e: Event): Reply {
    var at := Num(KnownOr(st, e.itemId));
    Plain(st.(emitted := st.emitted + {MapKey(at)}), CallArgs(at, e.delta))
  }

  /** Where a done event's arguments would go: a falsy key that is not null is itself the index. */
  function DoneIndex(st: St, e: Event): Raw
    requires IsCall(e)
  {
    var key := OrElse(e.item.value.id, e.itemId);
    if key.Null? || key.Truthy() then Num(KnownOr(st, key)) else key
  }

  function FullArgs(st: St, e: Event): Reply
    requires IsCall(e)
  {
    var (at, args) := (DoneIndex(st, e), e.item.value.args);
    if args.AsStr() != "" && MapKey(at) !in st.emitted then
      Plain(st.(emitted := st.emitted + {MapKey(at)}), CallArgs(at, args))
    else Silent(st)
  }

  function Fail(st: St, e: Event): Reply {
    var error := OrElse(e.error, e.responseError);
    if st.finishSent || !error.Truthy() then Silent(st)
    else Reply(st.(error := error, finishSent := true), Some(Chunk(ErrorText(error), Some(STOP))))
  }

  const TEXT_DELTA := "response.output_text.delta"
  const REASONING_DELTA := "response.reasoning_summary_text.delta"
  const ITEM_ADDED := "response.output_item.added"
  const ITEM_DONE := "response.output_item.done"
  const ARGS_DELTAS := {"response.function_call_arguments.delta", "response.custom_tool_call_input.delta"}
  const COMPLETIONS := {"response.completed", "response.done"}
  const FAILURES := {"error", "response.failed"}

  function OnEvent(st: St, e: Event): Reply {
    if e.kind == TEXT_DELTA then (if e.delta.Truthy() then Plain(st, Content(e.delta)) else Silent(st))
    else if e.kind == ITEM_ADDED then (if IsCall(e) then Announce(st, e) else Silent(st))
    else if e.kind in ARGS_DELTAS then (if e.delta.Truthy() then Fragment(st, e) else Silent(st))
    else if e.kind == ITEM_DONE then (if IsCall(e) then FullArgs(st, e) else Silent(st))
    else if e.kind in COMPLETIONS then (if st.finishSent then Silent(st) else FinalChunk(st))
    else if e.kind in FAILURES then Fail(st, e)
    else if e.kind == REASONING_DELTA then (if e.delta.Truthy() then Plain(st, Reasoning(e.delta)) else Silent(st))
    else Silent(st)
  }

  function Started(st: St): St { if st.started then st else st.(started := true, calls := 0, current := Null) }

  /** Convert; None is the nil chunk that flushes. */
  function ConvertOn(st: St, e: Option<Event>): Reply {
    match e
    case None => if st.finishSent || !st.started then Silent(st) else FinalChunk(st)
    case Some(ev) => OnEvent(Started(st), ev)
  }

  // ---------------------------------------------------------------- the object

  class RespToChatState {
    var started: bool
    var toolCallIndex: nat
    var currentToolCall: Raw
    var respToolChatIndex: map<string, nat>
    var respToolArgsEmitted: set<string>
    var finishReasonSent: bool
    var finishReason: string
    var error: Raw

    ghost function View(): St
      reads this
    {
      St(started, toolCallIndex, currentToolCall, respToolChatIndex, respToolArgsEmitted, finishReasonSent,
         finishReason, error)
    }

    constructor ()
      ensures View() == FRESH
    {
      started, toolCallIndex, currentToolCall := false, 0, Null;
      respToolChatIndex, respToolArgsEmitted := map[], {};
      finishReasonSent, finishReason, error := false, "", Null;
    }

    method Final() returns (chunk: Option<Chunk>)
      modifies this
      ensures Reply(View(), chunk) == FinalChunk(old(View()))
    {
      var finish := STOP;
      if toolCallIndex > 0 || currentToolCall != Null {
        finish := TOOL_CALLS;
      }
      finishReasonSent := true;
      finishReason := finish;
      chunk := Some(Chunk(Empty, Some(finish)));
    }

    method ItemAdded(e: Event) returns (chunk: Option<Chunk>)
      modifies this
      ensures Reply(View(), chunk) == if IsCall(e) then Announce(old(View()), e) else Silent(old(View()))
    {
      if !IsCall(e) {
        return None;
      }
      var item := e.item.value;
      if item.callId.Truthy() {
        currentToolCall := item.callId;
      } else {
        currentToolCall := Str(e.now);
      }
      var key := item.id;
      if !key.Truthy() {
        key := e.itemId;
      }
      if !key.Truthy() {
        key := currentToolCall;
      }
      var idx;
      if MapKey(key) in respToolChatIndex {
        idx := respToolChatIndex[MapKey(key)];
      } else {
        idx := toolCallIndex;
        toolCallIndex := toolCallIndex + 1;
        respToolChatIndex := respToolChatIndex[MapKey(key) := idx];
      }
      chunk := Some(Chunk(CallStart(idx, currentToolCall, item.name), None));
    }

    method ArgumentsDelta(e: Event) returns (chunk: Option<Chunk>)
      modifies this
      ensures Reply(View(), chunk) == if e.delta.Truthy() then Fragment(old(View()), e) else Silent(old(View()))
    {
      if !e.delta.Truthy() {
        return None;
      }
      var idx := if toolCallIndex > 0 then toolCallIndex - 1 else 0;
      if e.itemId.Truthy() && MapKey(e.itemId) in respToolChatIndex {
        idx := respToolChatIndex[MapKey(e.itemId)];
      }
      respToolArgsEmitted := respToolArgsEmitted + {MapKey(Num(idx))};
      chunk := Some(Chunk(CallArgs(Num(idx), e.delta), None));
    }

    method ItemFinished(e: Event) returns (chunk: Option<Chunk>)
      modifies this
      ensures Reply(View(), chunk) == if IsCall(e) then FullArgs(old(View()), e) else Silent(old(View()))
    {
      if !IsCall(e) {
        return None;
      }
      var item := e.item.value;
      var key := item.id;
      if !key.Truthy() {
        key := e.itemId;
      }
      var idx := key;
      if key.Null? {
        idx := Num(if toolCallIndex > 0 then toolCallIndex - 1 else 0);
      } else if key.Truthy() {
        if MapKey(key) in respToolChatIndex {
          idx := Num(respToolChatIndex[MapKey(key)]);
        } else {
          idx := Num(if toolCallIndex > 0 then toolCallIndex - 1 else 0);
        }
      }
      chunk := None;
      if item.args.Str? && item.args.s != "" && MapKey(idx) !in respToolArgsEmitted {
        respToolArgsEmitted := respToolArgsEmitted + {MapKey(idx)};
        chunk := Some(Chunk(CallArgs(idx, item.args), None));
      }
    }

    method Failed(e: Event) returns (chunk: Option<Chunk>)
      modifies this
      ensures Reply(View(), chunk) == Fail(old(View()), e)
    {
      if finishReasonSent {
        return None;
      }
      var errVal := e.error;
      if !errVal.Truthy() {
        errVal := e.responseError;
      }
      if !errVal.Truthy() {
        return None;
      }
      error := errVal;
      finishReasonSent := true;
      chunk := Some(Chunk(ErrorText(errVal), Some(STOP)));
    }

    method Convert(e: Option<Event>) returns (chunk: Option<Chunk>)
      modifies this
      ensures Reply(View(), chunk) == ConvertOn(old(View()), e)
    {
      chunk := None;
      if e.None? {
        if !finishReasonSent && started {
          chunk := Final();
        }
        return;
      }
      if !started {
        started, toolCallIndex, currentToolCall := true, 0, Null;
      }
      var ev := e.value;
      if ev.kind == TEXT_DELTA {
        if ev.delta.Truthy() {
          chunk := Some(Chunk(Content(ev.delta), None));
        }
      } else if ev.kind == ITEM_ADDED {
        chunk := ItemAdded(ev);
      } else if ev.kind in ARGS_DELTAS {
        chunk := ArgumentsDelta(ev);
      } else if ev.kind == ITEM_DONE {
        chunk := ItemFinished(ev);
      } else if ev.kind in COMPLETIONS {
        if !finishReasonSent {
          chunk := Final();
        }
      } else if ev.kind in FAILURES {
        chunk := Failed(ev);
      } else if ev.kind == REASONING_DELTA {
        if ev.delta.Truthy() {
          chunk := Some(Chunk(Reasoning(ev.delta), None));
        }
      }
    }
  }

  /** One Convert per event, then the flush. */
  method Translate(events: seq<Event>) returns (chunks: seq<Chunk>)
    ensures chunks == Flushed(events).log
  {
    var st := new RespToChatState();
    chunks := [];
    for i := 0 to |events|
      invariant Out(st.View(), chunks) == Run(events[..i])
    {
      assert events[..i + 1][..i] == events[..i];
      var chunk := st.Convert(Some(events[i]));
      if chunk.Some? {
        chunks := chunks + [chunk.value];
      }
    }
    assert events[..|events|] == events;
    var last := st.Convert(None);
    if last.Some? {
      chunks := chunks + [last.value];
    }
  }

  // ---------------------------------------------------------------- runs

  datatype Out = Out(st: St, log: seq<Chunk>)

  function Put(o: Out, e: Option<Event>): Out {
    var r := ConvertOn(o.st, e);
    Out(r.st, o.log + (if r.chunk.Some? then [r.chunk.value] else []))
  }

  function Run(events: seq<Event>): Out {
    if events == [] then Out(FRESH, []) else Put(Run(events[..|events| - 1]), Some(events[|events| - 1]))
  }

  function Flushed(events: seq<Event>): Out { Put(Run(events), None) }

  // ---------------------------------------------------------------- call indices

  /** index is a bijection from the known item keys onto 0 .. n - 1. */
  ghost predicate Bijective(index: map<string, nat>, n: nat) {
    && (forall k :: k in index ==> index[k] < n)
    && (forall k, l :: k in index && l in index && index[k] == index[l] ==> k == l)
    && (forall i: nat :: i < n ==> Reached(index, i))
  }

  ghost predicate Reached(index: map<string, nat>, i: nat) {
    exists k :: k in index && index[k] == i
  }

  ghost predicate IndexInv(st: St) {
    && Bijective(st.index, st.calls)
    && (st.current != Null <==> st.calls > 0)
    && (!st.started ==> st.calls == 0 && st.index == map[])
  }

  lemma BijectiveNext(index: map<string, nat>, n: nat, key: string)
    requires Bijective(index, n) && key !in index
    ensures Bijective(index[key := n], n + 1)
  {
    var after := index[key := n];
    forall i: nat | i < n + 1 ensures Reached(after, i) {
      if i < n {
        assert Reached(index, i);
        var k :| k in index && index[k] == i;
        assert after[k] == i;
      } else {
        assert after[key] == i;
      }
    }
  }

  ghost predicate Extends(before: map<string, nat>, after: map<string, nat>) {
    forall k :: k in before ==> k in after && after[k] == before[k]
  }

  lemma AnnounceKeepsIndex(st: St, e: Event)
    requires IndexInv(st) && st.started && IsCall(e)
    ensures IndexInv(Announce(st, e).st)
    ensures Extends(st.index, Announce(st, e).st.index)
  {
    var key := MapKey(AnnouncedKey(e));
    if key !in st.index {
      BijectiveNext(st.index, st.calls, key);
    } else {
      assert st.index[key] < st.calls;
    }
    assert CallIdOf(e) != Null;
  }

  lemma EventKeepsIndex(st: St, e: Event)
    requires IndexInv(st) && st.started
    ensures IndexInv(OnEvent(st, e).st)
    ensures Extends(st.index, OnEvent(st, e).st.index)
    ensures OnEvent(st, e).st.started
  {
    if e.kind == ITEM_ADDED && IsCall(e) { AnnounceKeepsIndex(st, e); }
  }

  /** Over any event sequence the item keys are numbered 0, 1, 2, ... without gap or repetition. */
  lemma {:induction false} CallIndicesAreBijective(events: seq<Event>)
    ensures IndexInv(Run(events).st) && (Run(events).st.started <==> events != [])
  {
    if events != [] {
      var n := |events| - 1;
      CallIndicesAreBijective(events[..n]);
      EventKeepsIndex(Started(Run(events[..n]).st), events[n]);
    }
  }

  lemma LastKeepsIndices(events: seq<Event>)
    requires events != []
    ensures Extends(Run(events[..|events| - 1]).st.index, Run(events).st.index)
  {
    var n := |events| - 1;
    CallIndicesAreBijective(events[..n]);
    PutKeepsIndices(Run(events[..n]), events[n]);
  }

  lemma PutKeepsIndices(o: Out, e: Event)
    requires IndexInv(o.st)
    ensures Extends(o.st.index, Put(o, Some(e)).st.index)
  {
    EventKeepsIndex(Started(o.st), e);
  }

  /** A key keeps its index for good. */
  lemma {:induction false} IndicesAreStable(events: seq<Event>, n: nat)
    requires n <= |events|
    ensures Extends(Run(events[..n]).st.index, Run(events).st.index)
    decreases |events|
  {
    if n == |events| {
      assert events[..n] == events;
    } else {
      var front := events[..|events| - 1];
      assert front[..n] == events[..n];
      IndicesAreStable(front, n);
      LastKeepsIndices(events);
    }
  }

  /** The keys announced by a run's events. */
  function Announced(events: seq<Event>): set<string> {
    if events == [] then {}
    else
      var e := events[|events| - 1];
      Announced(events[..|events| - 1]) + (if e.kind == ITEM_ADDED && IsCall(e) then {MapKey(AnnouncedKey(e))} else {})
  }

  lemma EventAnnounces(st: St, e: Event)
    ensures OnEvent(st, e).st.index.Keys
         == st.index.Keys + (if e.kind == ITEM_ADDED && IsCall(e) then {MapKey(AnnouncedKey(e))} else {})
  {
  }

  /** The numbered keys are exactly the announced ones, so the count is that of the distinct keys announced. */
  lemma {:induction false} IndexedExactlyAnnounced(events: seq<Event>)
    ensures Run(events).st.index.Keys == Announced(events)
  {
    if events != [] {
      var n := |events| - 1;
      IndexedExactlyAnnounced(events[..n]);
      EventAnnounces(Started(Run(events[..n]).st), events[n]);
    }
  }

  // ---------------------------------------------------------------- arguments

  /** The indices that a log sent arguments for. */
  function ArgKeys(log: seq<Chunk>): set<string> {
    if log == [] then {}
    else
      var d := log[|log| - 1].delta;
      ArgKeys(log[..|log| - 1]) + (if d.CallArgs? then {MapKey(d.at)} else {})
  }

  lemma ArgKeysNext(log: seq<Chunk>, c: Chunk)
    ensures ArgKeys(log + [c]) == ArgKeys(log) + (if c.delta.CallArgs? then {MapKey(c.delta.at)} else {})
  {
    assert (log + [c])[..|log|] == log;
  }

  /** What a reply adds to the indices that were sent arguments. */
  function ArgKey(r: Reply): set<string> {
    if r.chunk.Some? && r.chunk.value.delta.CallArgs? then {MapKey(r.chunk.value.delta.at)} else {}
  }

  lemma FragmentEmits(st: St, e: Event)
    ensures Fragment(st, e).st.emitted == st.emitted + ArgKey(Fragment(st, e))
  {
  }

  lemma FullArgsEmits(st: St, e: Event)
    requires IsCall(e)
    ensures FullArgs(st, e).st.emitted == st.emitted + ArgKey(FullArgs(st, e))
  {
  }

  lemma EventEmits(st: St, e: Event)
    ensures OnEvent(st, e).st.emitted == st.emitted + ArgKey(OnEvent(st, e))
  {
    if e.kind in ARGS_DELTAS {
      FragmentEmits(st, e);
    } else if e.kind == ITEM_DONE && IsCall(e) {
      FullArgsEmits(st, e);
    }
  }

  /** The emitted marks are exactly the indices whose arguments are in the log. */
  lemma {:induction false} EmittedIsTheLog(events: seq<Event>)
    ensures Run(events).st.emitted == ArgKeys(Run(events).log)
  {
    if events != [] {
      var n := |events| - 1;
      var o := Run(events[..n]);
      EmittedIsTheLog(events[..n]);
      EventEmits(Started(o.st), events[n]);
      var r := ConvertOn(o.st, Some(events[n]));
      if r.chunk.Some? { ArgKeysNext(o.log, r.chunk.value); } else { assert o.log + [] == o.log; }
    }
  }

  lemma DoneSends(o: Out, e: Event)
    requires e.kind == ITEM_DONE && IsCall(e)
    ensures var (st, args) := (Started(o.st), e.item.value.args);
            Put(o, Some(e)).log == o.log + (if args.AsStr() != "" && MapKey(DoneIndex(st, e)) !in st.emitted
                                            then [Chunk(CallArgs(DoneIndex(st, e), args), None)] else [])
  {
    assert ConvertOn(o.st, Some(e)) == FullArgs(Started(o.st), e);
  }

  /** A done event sends its full arguments exactly when it has some and none went out for its index before. */
  lemma FullArgsOnlyWhenNoneSent(events: seq<Event>, e: Event)
    requires e.kind == ITEM_DONE && IsCall(e)
    ensures var (o, at) := (Run(events), DoneIndex(Started(Run(events).st), e));
            Put(o, Some(e)).log == o.log + (if e.item.value.args.AsStr() != "" && MapKey(at) !in ArgKeys(o.log)
                                            then [Chunk(CallArgs(at, e.item.value.args), None)] else [])
  {
    EmittedIsTheLog(events);
    DoneSends(Run(events), e);
  }

  // ---------------------------------------------------------------- the finish chunk

  /** What a log says of its end: how many finish chunks, whether a call was started before the first, and whether
      that first one reads as it should. */
  datatype Seen = Seen(finishes: nat, started: bool, honest: bool)

  function Watch(log: seq<Chunk>): Seen {
    if log == [] then Seen(0, false, true)
    else
      var s := Watch(log[..|log| - 1]);
      var c := log[|log| - 1];
      if c.finish.Some? then
        Seen(s.finishes + 1, s.started,
             s.honest && (if c.delta.ErrorText? then c.finish.value == STOP
                          else c.delta.Empty? && c.finish.value == (if s.started then TOOL_CALLS else STOP)))
      else s.(started := s.started || c.delta.CallStart?)
  }

  lemma WatchNext(log: seq<Chunk>, c: Chunk)
    ensures Watch(log + [c]) == (var s := Watch(log);
      if c.finish.Some? then
        Seen(s.finishes + 1, s.started,
             s.honest && (if c.delta.ErrorText? then c.finish.value == STOP
                          else c.delta.Empty? && c.finish.value == (if s.started then TOOL_CALLS else STOP)))
      else s.(started := s.started || c.delta.CallStart?))
  {
    assert (log + [c])[..|log|] == log;
  }

  ghost predicate FinishInv(o: Out) {
    var s := Watch(o.log);
    && s.honest && s.finishes == (if o.st.finishSent then 1 else 0)
    && (s.started <==> o.st.current != Null)
  }

  lemma EventKeepsFinish(o: Out, e: Event)
    requires FinishInv(o) && IndexInv(o.st) && o.st.started
    ensures FinishInv(Put(o, Some(e)))
  {
    var r := ConvertOn(o.st, Some(e));
    if r.chunk.Some? {
      WatchNext(o.log, r.chunk.value);
      if r.chunk.value.delta.CallStart? { assert CallIdOf(e) != Null; }
    } else {
      assert o.log + [] == o.log;
    }
  }

  lemma {:induction false} RunKeepsFinish(events: seq<Event>)
    ensures FinishInv(Run(events))
  {
    if events != [] {
      var n := |events| - 1;
      var o := Run(events[..n]);
      RunKeepsFinish(events[..n]);
      CallIndicesAreBijective(events[..n]);
      EventKeepsFinish(Out(Started(o.st), o.log), events[n]);
    }
  }

  /** Every non-empty run ended by a flush has exactly one chunk with a finish reason; unless it is the error chunk it
      reads "tool_calls" exactly when a call was started before it. An empty run has no chunk at all. */
  lemma ExactlyOneFinish(events: seq<Event>)
    ensures Watch(Flushed(events).log).honest
    ensures Watch(Flushed(events).log).finishes == if events == [] then 0 else 1
    ensures events == [] ==> Flushed(events).log == []
  {
    RunKeepsFinish(events);
    CallIndicesAreBijective(events);
    var o := Run(events);
    var r := ConvertOn(o.st, None);
    if r.chunk.Some? { WatchNext(o.log, r.chunk.value); } else { assert o.log + [] == o.log; }
  }

  // ---------------------------------------------------------------- text

  function TextsSent(log: seq<Chunk>): seq<Raw> {
    if log == [] then []
    else TextsSent(log[..|log| - 1]) + (if log[|log| - 1].delta.Content? then [log[|log| - 1].delta.text] else [])
  }

  function TextsIn(events: seq<Event>): seq<Raw> {
    if events == [] then []
    else
      var e := events[|events| - 1];
      TextsIn(events[..|events| - 1]) + (if e.kind == TEXT_DELTA && e.delta.Truthy() then [e.delta] else [])
  }

  lemma EventText(o: Out, e: Event)
    ensures TextsSent(Put(o, Some(e)).log)
         == TextsSent(o.log) + (if e.kind == TEXT_DELTA && e.delta.Truthy() then [e.delta] else [])
  {
    var r := ConvertOn(o.st, Some(e));
    if r.chunk.Some? {
      assert (o.log + [r.chunk.value])[..|o.log|] == o.log;
    } else {
      assert o.log + [] == o.log;
    }
  }

  /** Every non-empty text delta goes out once, in order, and nothing else goes out as content. */
  lemma {:induction false} TextPassesThrough(events: seq<Event>)
    ensures TextsSent(Run(events).log) == TextsIn(events)
  {
    if events != [] {
      var n := |events| - 1;
      TextPassesThrough(events[..n]);
      EventText(Run(events[..n]), events[n]);
    }
  }
}
