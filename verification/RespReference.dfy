/**
 The opposite translator read off its events alone: Replay says, for each event
 and those before it, which chunk goes out, without any state. The translator's
 log is proved to be that replay, for every sequence of events.
 */
module RespReference {
  import opened Basics
  import opened JsValues
  import opened RespToChat

  // ---------------------------------------------------------------- reading events

  predicate Announces(e: Event) {
    e.kind == "response.output_item.added" && e.item.Some? && e.item.value.kind in {"function_call", "custom_tool_call"}
  }

  predicate Finishes(e: Event) {
    && e.kind == "response.output_item.done"
    && e.item.Some? && e.item.value.kind in {"function_call", "custom_tool_call"}
  }

  predicate Fragments(e: Event) {
    && e.kind in {"response.function_call_arguments.delta", "response.custom_tool_call_input.delta"}
    && e.delta.Truthy()
  }

  /** The id a call is given: its own, or else one minted now. */
  function IdOf(e: Event): Raw
    requires e.item.Some?
  {
    if e.item.value.callId.Truthy() then e.item.value.callId else Str(e.now)
  }

  /** The name an announced item goes by: its id, the event's item_id or its call's id, whichever comes first. */
  function NameOf(e: Event): Raw
    requires e.item.Some?
  {
    if e.item.value.id.Truthy() then e.item.value.id
    else if e.itemId.Truthy() then e.itemId
    else IdOf(e)
  }

  /** What ends the stream: a completion, or a failure that says what is wrong. */
  predicate Ends(e: Event) {
    || e.kind in {"response.completed", "response.done"}
    || (e.kind in {"error", "response.failed"} && (e.error.Truthy() || e.responseError.Truthy()))
  }

  predicate Ended(events: seq<Event>) {
    exists n :: 0 <= n < |events| && Ends(events[n])
  }

  /** The items announced so far, each once, in the order of their first announcement. */
  function Items(events: seq<Event>): seq<Raw> {
    if events == [] then []
    else
      var (before, e) := (Items(events[..|events| - 1]), events[|events| - 1]);
      if Announces(e) && NameOf(e) !in before then before + [NameOf(e)] else before
  }

  /** The place of v among distinct values, None when it is not there. */
  function Place(items: seq<Raw>, v: Raw): Option<nat> {
    if items == [] then None
    else if items[|items| - 1] == v then Some(|items| - 1)
    else Place(items[..|items| - 1], v)
  }

  /** The number of an announced item. */
  function Number(items: seq<Raw>, v: Raw): nat { match Place(items, v) case Some(i) => i case None => 0 }

  /** Where a fragment for v goes: to the item of that name, or else to the latest one, or to 0 when there is none. */
  function Target(items: seq<Raw>, v: Raw): nat {
    if v.Truthy() && Place(items, v).Some? then Place(items, v).value
    else if items == [] then 0 else |items| - 1
  }

  /** Where full arguments go; a falsy name that is not null is itself the place. */
  function FinalTarget(items: seq<Raw>, e: Event): Raw
    requires e.item.Some?
  {
    var v := if e.item.value.id.Truthy() then e.item.value.id else e.itemId;
    if v.Truthy() || v == Null then Num(Target(items, v)) else v
  }

  /** Some arguments were sent to this place. */
  predicate Filled(log: seq<Chunk>, at: Raw) {
    exists p :: 0 <= p < |log| && log[p].delta.CallArgs? && log[p].delta.at == at
  }

  // ---------------------------------------------------------------- the replay

  /** What event e makes of a stream that saw the events before and sent log. */
  function Says(before: seq<Event>, log: seq<Chunk>, e: Event): seq<Chunk> {
    if e.kind == "response.output_text.delta" && e.delta.Truthy() then [Chunk(Content(e.delta), None)]
    else if e.kind == "response.reasoning_summary_text.delta" && e.delta.Truthy() then [Chunk(Reasoning(e.delta), None)]
    else if Announces(e) then
      [Chunk(CallStart(Number(Items(before + [e]), NameOf(e)), IdOf(e), e.item.value.name), None)]
    else if Fragments(e) then [Chunk(CallArgs(Num(Target(Items(before), e.itemId)), e.delta), None)]
    else if Finishes(e) then
      var (at, args) := (FinalTarget(Items(before), e), e.item.value.args);
      if args.Str? && args.s != "" && !Filled(log, at) then [Chunk(CallArgs(at, args), None)] else []
    else if Ends(e) && !Ended(before) then [Ending(before, e)]
    else []
  }

  function Ending(before: seq<Event>, e: Event): Chunk {
    if e.kind in {"response.completed", "response.done"} then Completing(before)
    else Chunk(ErrorText(if e.error.Truthy() then e.error else e.responseError), Some("stop"))
  }

  function Completing(before: seq<Event>): Chunk {
    Chunk(Empty, Some(if Items(before) == [] then "stop" else "tool_calls"))
  }

  function Replay(events: seq<Event>): seq<Chunk> {
    if events == [] then []
    else
      var (before, e) := (events[..|events| - 1], events[|events| - 1]);
      Replay(before) + Says(before, Replay(before), e)
  }

  /** A stream that nothing ended is completed by the flush. */
  function ReplayAll(events: seq<Event>): seq<Chunk> {
    Replay(events) + (if events != [] && !Ended(events) then [Completing(events)] else [])
  }

  // ---------------------------------------------------------------- the translator follows it

  ghost predicate Sound(e: Event) {
    WellFormed(e.itemId) && (e.item.Some? ==> WellFormed(e.item.value.id) && WellFormed(e.item.value.callId))
  }

  /** Composite values are carried by their JSON text. */
  ghost predicate AllSound(events: seq<Event>) { forall n :: 0 <= n < |events| ==> Sound(events[n]) }

  /** The index table numbers the items. */
  ghost predicate Numbers(index: map<string, nat>, items: seq<Raw>) {
    && (forall i :: 0 <= i < |items| ==> WellFormed(items[i]))
    && (forall v: Raw :: WellFormed(v) ==>
          match Place(items, v)
          case None => MapKey(v) !in index
          case Some(i) => MapKey(v) in index && index[MapKey(v)] == i)
  }

  lemma NumbersNext(index: map<string, nat>, items: seq<Raw>, v: Raw)
    requires Numbers(index, items) && WellFormed(v) && Place(items, v).None?
    ensures Numbers(index[MapKey(v) := |items|], items + [v])
  {
    var (after, more) := (index[MapKey(v) := |items|], items + [v]);
    assert more[..|items|] == items;
    forall w: Raw | WellFormed(w)
      ensures match Place(more, w)
              case None => MapKey(w) !in after
              case Some(i) => MapKey(w) in after && after[MapKey(w)] == i
    {
      MapKeyDecodes(v, w);
    }
  }

  lemma {:induction false} PlaceMeans(items: seq<Raw>, v: Raw)
    ensures Place(items, v).None? <==> v !in items
    ensures Place(items, v).Some? ==> Place(items, v).value < |items| && items[Place(items, v).value] == v
  {
    if items != [] {
      PlaceMeans(items[..|items| - 1], v);
      assert items == items[..|items| - 1] + [items[|items| - 1]];
    }
  }

  lemma ItemsNext(events: seq<Event>, e: Event)
    ensures Items(events + [e])
         == if Announces(e) && NameOf(e) !in Items(events) then Items(events) + [NameOf(e)] else Items(events)
    ensures Ended(events + [e]) <==> Ended(events) || Ends(e)
    ensures Replay(events + [e]) == Replay(events) + Says(events, Replay(events), e)
  {
    var more := events + [e];
    assert more[..|events|] == events;
    if Ended(events) {
      var n :| 0 <= n < |events| && Ends(events[n]);
      assert Ends(more[n]);
    }
    if Ends(e) { assert Ends(more[|events|]); }
  }

  ghost predicate Tracks(o: Out, events: seq<Event>) {
    && Numbers(o.st.index, Items(events)) && o.st.calls == |Items(events)|
    && (o.st.current != Null <==> Items(events) != [])
    && (o.st.finishSent <==> Ended(events))
    && o.st.emitted == ArgKeys(o.log) && o.log == Replay(events) && PlacesSound(o.log)
  }

  ghost predicate PlacesSound(log: seq<Chunk>) {
    forall p :: 0 <= p < |log| && log[p].delta.CallArgs? ==> WellFormed(log[p].delta.at)
  }

  lemma TargetIsKnownOr(st: St, items: seq<Raw>, v: Raw)
    requires Numbers(st.index, items) && st.calls == |items| && WellFormed(v)
    ensures KnownOr(st, v) == Target(items, v)
  {
  }

  lemma {:induction false} FilledIsMarked(log: seq<Chunk>, at: Raw)
    requires PlacesSound(log) && WellFormed(at)
    ensures Filled(log, at) <==> MapKey(at) in ArgKeys(log)
  {
    if log != [] {
      var (front, d) := (log[..|log| - 1], log[|log| - 1].delta);
      FilledIsMarked(front, at);
      assert forall p :: 0 <= p < |front| ==> front[p] == log[p];
      if d.CallArgs? { MapKeyDecodes(d.at, at); }
      if p :| 0 <= p < |front| && front[p].delta.CallArgs? && front[p].delta.at == at {
        assert log[p].delta.CallArgs? && log[p].delta.at == at;
      }
    }
  }

  /** An announcement numbers its item, a new one next. */
  ghost predicate NumberedBy(st: St, r: Reply, items: seq<Raw>, e: Event)
    requires e.item.Some?
  {
    && r.chunk == Some(Chunk(CallStart(Number(items, NameOf(e)), IdOf(e), e.item.value.name), None))
    && Numbers(r.st.index, items) && r.st.calls == |items| && r.st.current != Null && (st.started ==> r.st.started)
  }

  lemma FirstAnnouncement(st: St, items: seq<Raw>, e: Event)
    requires Numbers(st.index, items) && st.calls == |items| && Announces(e) && Sound(e) && NameOf(e) !in items
    ensures NumberedBy(st, Announce(st, e), items + [NameOf(e)], e)
  {
    PlaceMeans(items, NameOf(e));
    NumbersNext(st.index, items, NameOf(e));
    assert AnnouncedKey(e) == NameOf(e) && CallIdOf(e) == IdOf(e);
  }

  lemma RepeatedAnnouncement(st: St, items: seq<Raw>, e: Event)
    requires Numbers(st.index, items) && st.calls == |items| && Announces(e) && Sound(e) && NameOf(e) in items
    ensures NumberedBy(st, Announce(st, e), items, e)
  {
    PlaceMeans(items, NameOf(e));
    assert AnnouncedKey(e) == NameOf(e) && CallIdOf(e) == IdOf(e);
  }

  lemma AnnounceSays(st: St, before: seq<Event>, e: Event)
    requires Numbers(st.index, Items(before)) && st.calls == |Items(before)| && Announces(e) && Sound(e)
    ensures NumberedBy(st, Announce(st, e), Items(before + [e]), e) && Items(before + [e]) != []
  {
    ItemsNext(before, e);
    if NameOf(e) in Items(before) {
      RepeatedAnnouncement(st, Items(before), e);
    } else {
      FirstAnnouncement(st, Items(before), e);
    }
  }

  /** A reply says what the replay says, and leaves a state for the events up to e. */
  ghost predicate Agrees(r: Reply, before: seq<Event>, log: seq<Chunk>, e: Event) {
    && Says(before, log, e) == (if r.chunk.Some? then [r.chunk.value] else [])
    && Numbers(r.st.index, Items(before + [e])) && r.st.calls == |Items(before + [e])|
    && (r.st.current != Null <==> Items(before + [e]) != [])
    && (r.st.finishSent <==> Ended(before + [e])) && r.st.started
  }

  /** Events that announce nothing and end nothing. */
  lemma PlainAgrees(st: St, r: Reply, before: seq<Event>, log: seq<Chunk>, e: Event)
    requires Tracks(Out(st, log), before) && !Announces(e) && !Ends(e) && st.started
    requires r.st == st.(emitted := r.st.emitted)
    requires Says(before, log, e) == (if r.chunk.Some? then [r.chunk.value] else [])
    ensures Agrees(r, before, log, e)
  {
    ItemsNext(before, e);
  }

  lemma TextAgrees(st: St, before: seq<Event>, log: seq<Chunk>, e: Event)
    requires Tracks(Out(st, log), before) && st.started && e.kind in {TEXT_DELTA, REASONING_DELTA}
    ensures Agrees(OnEvent(st, e), before, log, e)
  {
    PlainAgrees(st, OnEvent(st, e), before, log, e);
  }

  lemma AddedAgrees(st: St, before: seq<Event>, log: seq<Chunk>, e: Event)
    requires Tracks(Out(st, log), before) && st.started && Sound(e) && e.kind == ITEM_ADDED
    ensures Agrees(OnEvent(st, e), before, log, e)
  {
    if IsCall(e) {
      ItemsNext(before, e);
      AnnounceSays(st, before, e);
    } else {
      PlainAgrees(st, OnEvent(st, e), before, log, e);
    }
  }

  lemma FragmentAgrees(st: St, before: seq<Event>, log: seq<Chunk>, e: Event)
    requires Tracks(Out(st, log), before) && st.started && Sound(e) && e.kind in ARGS_DELTAS
    ensures Agrees(OnEvent(st, e), before, log, e)
  {
    TargetIsKnownOr(st, Items(before), e.itemId);
    PlainAgrees(st, OnEvent(st, e), before, log, e);
  }

  lemma DoneAgrees(st: St, before: seq<Event>, log: seq<Chunk>, e: Event)
    requires Tracks(Out(st, log), before) && st.started && Sound(e) && e.kind == ITEM_DONE
    ensures Agrees(OnEvent(st, e), before, log, e)
  {
    if IsCall(e) {
      var v := if e.item.value.id.Truthy() then e.item.value.id else e.itemId;
      TargetIsKnownOr(st, Items(before), v);
      FilledIsMarked(log, FinalTarget(Items(before), e));
      assert DoneIndex(st, e) == FinalTarget(Items(before), e);
    }
    PlainAgrees(st, OnEvent(st, e), before, log, e);
  }

  lemma EndSays(before: seq<Event>, log: seq<Chunk>, e: Event)
    requires e.kind in COMPLETIONS + FAILURES
    ensures Says(before, log, e) == (if Ends(e) && !Ended(before) then [Ending(before, e)] else [])
    ensures !Announces(e) && (e.kind in COMPLETIONS ==> Ends(e))
  {
  }

  lemma EndReply(st: St, e: Event)
    requires e.kind in COMPLETIONS + FAILURES
    ensures OnEvent(st, e) == if e.kind in COMPLETIONS then (if st.finishSent then Silent(st) else FinalChunk(st))
                              else Fail(st, e)
  {
  }

  /** The end of the stream, if this event is one and the first. */
  lemma EndingAgrees(st: St, r: Reply, before: seq<Event>, log: seq<Chunk>, e: Event)
    requires Tracks(Out(st, log), before) && !Announces(e)
    requires Says(before, log, e) == (if Ends(e) && !st.finishSent then [Ending(before, e)] else [])
    requires if Ends(e) && !st.finishSent then r.chunk == Some(Ending(before, e)) && r.st.finishSent
             else r == Silent(st)
    requires r.st.index == st.index && r.st.calls == st.calls && r.st.current == st.current && r.st.started
    ensures Agrees(r, before, log, e)
  {
    ItemsNext(before, e);
  }

  lemma CompletionAgrees(st: St, before: seq<Event>, log: seq<Chunk>, e: Event)
    requires Tracks(Out(st, log), before) && st.started && e.kind in COMPLETIONS
    ensures Agrees(OnEvent(st, e), before, log, e)
  {
    EndSays(before, log, e);
    EndReply(st, e);
    assert FinishOf(st) == if Items(before) == [] then "stop" else "tool_calls";
    EndingAgrees(st, if st.finishSent then Silent(st) else FinalChunk(st), before, log, e);
  }

  lemma FailureAgrees(st: St, before: seq<Event>, log: seq<Chunk>, e: Event)
    requires Tracks(Out(st, log), before) && st.started && e.kind in FAILURES
    ensures Agrees(OnEvent(st, e), before, log, e)
  {
    EndSays(before, log, e);
    EndReply(st, e);
    EndingAgrees(st, Fail(st, e), before, log, e);
  }

  lemma OtherAgrees(st: St, before: seq<Event>, log: seq<Chunk>, e: Event)
    requires Tracks(Out(st, log), before) && st.started
    requires e.kind !in {TEXT_DELTA, REASONING_DELTA, ITEM_ADDED, ITEM_DONE} + ARGS_DELTAS + COMPLETIONS + FAILURES
    ensures Agrees(OnEvent(st, e), before, log, e)
  {
    PlainAgrees(st, OnEvent(st, e), before, log, e);
  }

  lemma EventAgrees(st: St, before: seq<Event>, log: seq<Chunk>, e: Event)
    requires Tracks(Out(st, log), before) && st.started && Sound(e)
    ensures Agrees(OnEvent(st, e), before, log, e)
  {
    if e.kind in {TEXT_DELTA, REASONING_DELTA} {
      TextAgrees(st, before, log, e);
    } else if e.kind == ITEM_ADDED {
      AddedAgrees(st, before, log, e);
    } else if e.kind in ARGS_DELTAS {
      FragmentAgrees(st, before, log, e);
    } else if e.kind == ITEM_DONE {
      DoneAgrees(st, before, log, e);
    } else if e.kind in COMPLETIONS {
      CompletionAgrees(st, before, log, e);
    } else if e.kind in FAILURES {
      FailureAgrees(st, before, log, e);
    } else {
      OtherAgrees(st, before, log, e);
    }
  }

  // ---------------------------------------------------------------- runs

  lemma StartedTracks(o: Out, events: seq<Event>)
    requires Tracks(o, events) && (o.st.started <==> events != [])
    ensures Tracks(Out(Started(o.st), o.log), events)
  {
  }

  lemma ReplyTracks(o: Out, q: Reply, r: Out, events: seq<Event>, e: Event)
    requires Tracks(o, events) && Sound(e) && Agrees(q, events, o.log, e)
    requires r == Out(q.st, o.log + (if q.chunk.Some? then [q.chunk.value] else [])) && r.st.emitted == ArgKeys(r.log)
    ensures Tracks(r, events + [e])
  {
    ItemsNext(events, e);
    if q.chunk.Some? && q.chunk.value.delta.CallArgs? { SaysPlaced(events, o.log, e, q.chunk.value); }
  }

  lemma PutTracks(o: Out, events: seq<Event>, e: Event)
    requires Tracks(o, events) && (o.st.started <==> events != []) && Sound(e)
    requires Put(o, Some(e)).st.emitted == ArgKeys(Put(o, Some(e)).log)
    ensures Tracks(Put(o, Some(e)), events + [e]) && Put(o, Some(e)).st.started
  {
    StartedTracks(o, events);
    EventAgrees(Started(o.st), events, o.log, e);
    ReplyTracks(o, OnEvent(Started(o.st), e), Put(o, Some(e)), events, e);
  }

  /** Where the replay sends arguments to is well formed. */
  lemma SaysPlaced(before: seq<Event>, log: seq<Chunk>, e: Event, c: Chunk)
    requires Sound(e) && Says(before, log, e) == [c] && c.delta.CallArgs?
    ensures WellFormed(c.delta.at)
  {
    if Finishes(e) && !Fragments(e) { FinalTargetPlaced(Items(before), e); }
  }

  lemma FinalTargetPlaced(items: seq<Raw>, e: Event)
    requires e.item.Some? && Sound(e)
    ensures WellFormed(FinalTarget(items, e))
  {
  }

  lemma NothingTracks()
    ensures Tracks(Run([]), []) && !Run([]).st.started
  {
    assert Items([]) == [] && !Ended([]);
  }

  /** The translator after these events. */
  ghost predicate Stands(o: Out, events: seq<Event>) { Tracks(o, events) && (o.st.started <==> events != []) }

  lemma {:induction false} RunTracks(events: seq<Event>)
    requires AllSound(events)
    ensures Stands(Run(events), events)
  {
    if events == [] {
      NothingTracks();
    } else {
      var (before, e) := (events[..|events| - 1], events[|events| - 1]);
      FrontIsSound(events);
      RunTracks(before);
      EmittedIsTheLog(events);
      RunOnTracks(Run(before), Run(events), before, e, events);
    }
  }

  lemma FrontIsSound(events: seq<Event>)
    requires AllSound(events) && events != []
    ensures AllSound(events[..|events| - 1]) && Sound(events[|events| - 1])
  {
    assert forall n :: 0 <= n < |events| - 1 ==> events[..|events| - 1][n] == events[n];
  }

  lemma RunOnTracks(o: Out, r: Out, before: seq<Event>, e: Event, events: seq<Event>)
    requires Stands(o, before) && Sound(e) && |events| == |before| + 1
    requires before == events[..|before|] && e == events[|before|]
    requires r == Put(o, Some(e)) && r.st.emitted == ArgKeys(r.log)
    ensures Stands(r, events)
  {
    PutTracks(o, before, e);
    assert events == before + [e];
  }

  /** The translator's log is the replay of its events: every chunk is what one event says after those before it, and
      the flush completes what nothing ended. */
  lemma LogIsReplay(events: seq<Event>)
    requires AllSound(events)
    ensures Run(events).log == Replay(events) && Flushed(events).log == ReplayAll(events)
  {
    RunTracks(events);
    var (o, r) := (Run(events), ConvertOn(Run(events).st, None));
    assert FinishOf(o.st) == if Items(events) == [] then "stop" else "tool_calls";
    if r.chunk.None? { assert o.log + [] == o.log; }
  }

  // ---------------------------------------------------------------- parallel calls

  lemma {:induction false} ReplayGrows(events: seq<Event>, n: nat)
    requires n <= |events|
    ensures Replay(events[..n]) <= Replay(events) && Items(events[..n]) <= Items(events)
    decreases |events|
  {
    if n == |events| {
      assert events[..n] == events;
    } else {
      assert events[..|events| - 1][..n] == events[..n];
      ReplayGrows(events[..|events| - 1], n);
    }
  }

  lemma {:induction false} ItemsDiffer(events: seq<Event>)
    ensures forall i, j :: 0 <= i < j < |Items(events)| ==> Items(events)[i] != Items(events)[j]
  {
    if events != [] { ItemsDiffer(events[..|events| - 1]); }
  }

  /** An item keeps its number while others are announced. */
  lemma NumberStays(few: seq<Raw>, many: seq<Raw>, v: Raw)
    requires few <= many && v in few && forall i, j :: 0 <= i < j < |many| ==> many[i] != many[j]
    ensures Place(few, v).Some? && Place(many, v) == Place(few, v)
  {
    PlaceMeans(few, v);
    PlaceMeans(many, v);
    assert v in many;
  }

  /** Event n, if it says something, says it at this place of the log. */
  lemma SaidAt(events: seq<Event>, n: nat, c: Chunk)
    requires AllSound(events) && n < |events|
    requires Says(events[..n], Replay(events[..n]), events[n]) == [c]
    ensures var p := |Replay(events[..n])|; p < |Flushed(events).log| && Flushed(events).log[p] == c
    ensures Replay(events[..n + 1]) == Replay(events[..n]) + [c]
  {
    assert events[..n + 1] == events[..n] + [events[n]];
    ItemsNext(events[..n], events[n]);
    ReplayGrows(events, n + 1);
    LogIsReplay(events);
  }

  lemma FragmentSays(before: seq<Event>, log: seq<Chunk>, e: Event)
    requires Fragments(e)
    ensures Says(before, log, e) == [Chunk(CallArgs(Num(Target(Items(before), e.itemId)), e.delta), None)]
  {
  }

  lemma AnnouncementSays(before: seq<Event>, log: seq<Chunk>, e: Event)
    requires Announces(e)
    ensures Says(before, log, e)
         == [Chunk(CallStart(Number(Items(before + [e]), NameOf(e)), IdOf(e), e.item.value.name), None)]
  {
  }

  lemma AnnouncedIsItem(events: seq<Event>, m: nat)
    requires m < |events| && Announces(events[m])
    ensures NameOf(events[m]) in Items(events[..m + 1])
  {
    assert events[..m + 1] == events[..m] + [events[m]];
    ItemsNext(events[..m], events[m]);
  }

  lemma StartGoesOut(events: seq<Event>, m: nat)
    requires AllSound(events) && m < |events| && Announces(events[m])
    ensures var (log, q, e) := (Flushed(events).log, |Replay(events[..m])|, events[m]);
            && q < |log| && q < |Replay(events[..m + 1])|
            && log[q] == Chunk(CallStart(Number(Items(events[..m + 1]), NameOf(e)), IdOf(e), e.item.value.name), None)
  {
    var e := events[m];
    assert events[..m + 1] == events[..m] + [e];
    AnnouncementSays(events[..m], Replay(events[..m]), e);
    SaidAt(events, m, Chunk(CallStart(Number(Items(events[..m + 1]), NameOf(e)), IdOf(e), e.item.value.name), None));
  }

  lemma FragmentGoesOut(events: seq<Event>, n: nat)
    requires AllSound(events) && n < |events| && Fragments(events[n])
    ensures var (log, p, e) := (Flushed(events).log, |Replay(events[..n])|, events[n]);
            p < |log| && log[p] == Chunk(CallArgs(Num(Target(Items(events[..n]), e.itemId)), e.delta), None)
  {
    FragmentSays(events[..n], Replay(events[..n]), events[n]);
    SaidAt(events, n, Chunk(CallArgs(Num(Target(Items(events[..n]), events[n].itemId)), events[n].delta), None));
  }

  lemma TargetIsNumber(events: seq<Event>, m: nat, n: nat)
    requires m < n <= |events| && Announces(events[m]) && NameOf(events[m]).Truthy()
    ensures Target(Items(events[..n]), NameOf(events[m])) == Number(Items(events[..m + 1]), NameOf(events[m]))
    ensures Replay(events[..m + 1]) <= Replay(events[..n])
  {
    assert events[..n][..m + 1] == events[..m + 1];
    ReplayGrows(events[..n], m + 1);
    AnnouncedIsItem(events, m);
    ItemsDiffer(events[..n]);
    NumberStays(Items(events[..m + 1]), Items(events[..n]), NameOf(events[m]));
  }

  /** Parallel calls stay apart in the log: arguments that name an item announced before go out once, as they are, at
      the index of the chunk that started its call. */
  lemma ArgumentsReachTheirCall(events: seq<Event>, m: nat, n: nat)
    requires AllSound(events) && m < n < |events| && Announces(events[m]) && Fragments(events[n])
    requires events[n].itemId == NameOf(events[m]) && events[n].itemId.Truthy()
    ensures var (log, q, p) := (Flushed(events).log, |Replay(events[..m])|, |Replay(events[..n])|);
            && q < p < |log| && log[q].delta.CallStart? && log[q].delta.id == IdOf(events[m])
            && log[q].delta.name == events[m].item.value.name
            && log[p] == Chunk(CallArgs(Num(log[q].delta.index), events[n].delta), None)
  {
    StartGoesOut(events, m);
    FragmentGoesOut(events, n);
    TargetIsNumber(events, m, n);
  }

  /** So two fragments that name announced items go to one index exactly when they name the same item, however far
      apart they arrive. */
  lemma ParallelCallsStayApart(events: seq<Event>, n: nat, k: nat)
    requires AllSound(events) && n < k < |events| && Fragments(events[n]) && Fragments(events[k])
    requires events[n].itemId.Truthy() && events[n].itemId in Items(events[..n])
    requires events[k].itemId.Truthy() && events[k].itemId in Items(events[..k])
    ensures var (log, p, q) := (Flushed(events).log, |Replay(events[..n])|, |Replay(events[..k])|);
            && p < |log| && q < |log| && log[p].delta.CallArgs? && log[q].delta.CallArgs?
            && (log[p].delta.at == log[q].delta.at <==> events[n].itemId == events[k].itemId)
  {
    var (v, w, few, many) := (events[n].itemId, events[k].itemId, Items(events[..n]), Items(events[..k]));
    FragmentGoesOut(events, n);
    FragmentGoesOut(events, k);
    assert events[..k][..n] == events[..n];
    ReplayGrows(events[..k], n);
    ItemsDiffer(events[..k]);
    NumberStays(few, many, v);
    PlaceMeans(many, v);
    PlaceMeans(many, w);
  }

  /** Arguments that name no announced item go out once, as they are, to the latest of the calls announced so far, or
      to index 0 when there is none. */
  lemma StrayArgumentsReachTheLatest(events: seq<Event>, n: nat)
    requires AllSound(events) && n < |events| && Fragments(events[n])
    requires !events[n].itemId.Truthy() || events[n].itemId !in Items(events[..n])
    ensures var (log, p, count) := (Flushed(events).log, |Replay(events[..n])|, |Items(events[..n])|);
            && p < |log|
            && log[p] == Chunk(CallArgs(Num(if count == 0 then 0 else count - 1), events[n].delta), None)
  {
    PlaceMeans(Items(events[..n]), events[n].itemId);
    FragmentGoesOut(events, n);
  }

  // ---------------------------------------------------------------- what is remembered of the end

  /** The error a log reported, Null for none. */
  function ErrorIn(log: seq<Chunk>): Raw {
    if log == [] then Null
    else if log[|log| - 1].delta.ErrorText? then log[|log| - 1].delta.error else ErrorIn(log[..|log| - 1])
  }

  /** The finish reason of the completion in a log, "" for none. */
  function ReasonIn(log: seq<Chunk>): string {
    if log == [] then ""
    else
      var c := log[|log| - 1];
      if c.delta.Empty? && c.finish.Some? then c.finish.value else ReasonIn(log[..|log| - 1])
  }

  lemma EventRemembers(o: Out, e: Event)
    requires o.st.error == ErrorIn(o.log) && o.st.finishReason == ReasonIn(o.log)
    ensures var r := Put(o, Some(e)); r.st.error == ErrorIn(r.log) && r.st.finishReason == ReasonIn(r.log)
  {
    var r := OnEvent(Started(o.st), e);
    if r.chunk.Some? {
      assert (o.log + [r.chunk.value])[..|o.log|] == o.log;
    } else {
      assert o.log + [] == o.log;
    }
  }

  /** The error and the finish reason kept for the caller are those that went out. */
  lemma {:induction false} EndIsRemembered(events: seq<Event>)
    ensures Run(events).st.error == ErrorIn(Run(events).log)
    ensures Run(events).st.finishReason == ReasonIn(Run(events).log)
  {
    if events != [] {
      EndIsRemembered(events[..|events| - 1]);
      EventRemembers(Run(events[..|events| - 1]), events[|events| - 1]);
    }
  }
}
