/**
 Message text and reasoning of a stream: when each item is closed, what its done
 event then carries, and what comes too late for it, all read off the chunks
 alone, with inputs on which text and reasoning are lost.
 */
module LostTexts {
  import opened Basics
  import opened JsValues
  import opened ChatToResp
  import opened StepEffects
  import opened Agreement
  import opened CallArguments
  import EventLifecycle

  // ---------------------------------------------------------------- what was sent

  function IndexOf(c: Chunk): int { if c.choice.Some? then JsIndex(ChoiceIndexRaw(c.choice.value)) else 0 }

  /** The part of a chunk that goes out as message text. */
  function TextPart(inThinking: bool, c: Chunk): string { Split(inThinking, ChunkText(c)).1 }

  /** The part that goes out as reasoning: its own reasoning, then what of its content belongs to a thinking span. */
  function ReasonPart(inThinking: bool, c: Chunk): string {
    if c.choice.None? then "" else ReasoningText(c.choice.value.delta) + Split(inThinking, ChunkText(c)).0
  }

  function TextFor(inThinking: bool, c: Chunk, i: int): string {
    if c.choice.Some? && IndexOf(c) == i then TextPart(inThinking, c) else ""
  }

  /** All text sent for message i. */
  function TextSent(chunks: seq<Chunk>, i: int): string {
    if chunks == [] then ""
    else TextSent(chunks[..|chunks| - 1], i) + TextFor(Thinking(chunks[..|chunks| - 1]), chunks[|chunks| - 1], i)
  }

  /** All reasoning sent. */
  function ReasonSent(chunks: seq<Chunk>): string {
    if chunks == [] then ""
    else ReasonSent(chunks[..|chunks| - 1]) + ReasonPart(Thinking(chunks[..|chunks| - 1]), chunks[|chunks| - 1])
  }

  /** The chunk opens the reasoning item, if it is not open yet. */
  predicate Opens(c: Chunk) {
    c.choice.Some? && (ReasoningText(c.choice.value.delta) != "" || Tagged(ChunkText(c)))
  }

  predicate OpenedBy(chunks: seq<Chunk>) {
    chunks != [] && (OpenedBy(chunks[..|chunks| - 1]) || Opens(chunks[|chunks| - 1]))
  }

  // ---------------------------------------------------------------- when items are closed

  predicate BringsCalls(c: Chunk) { c.choice.Some? && HasCalls(c.choice.value) }

  /** The chunk closes message i, if that has begun: it brings tool calls of its choice, or finishes the response. */
  predicate ClosesText(inThinking: bool, c: Chunk, i: int) {
    (!EndsThinking(inThinking, ChunkText(c)) && BringsCalls(c) && IndexOf(c) == i) || Finishes(inThinking, c)
  }

  /** The text of message i when it is closed. */
  function ClosedText(chunks: seq<Chunk>, i: int): Option<string> {
    if chunks == [] then None
    else
      var (front, last) := (chunks[..|chunks| - 1], chunks[|chunks| - 1]);
      if ClosedText(front, i).Some? then ClosedText(front, i)
      else if ClosesText(Thinking(front), last, i) && TextSent(chunks, i) != "" then Some(TextSent(chunks, i))
      else None
  }

  /** Likewise for the flushed stream. */
  function ReportedText(chunks: seq<Chunk>, i: int): Option<string> {
    if ClosedText(chunks, i).Some? then ClosedText(chunks, i)
    else if !AnyFinish(chunks) && TextSent(chunks, i) != "" then Some(TextSent(chunks, i))
    else None
  }

  /** The chunk closes the reasoning item, if that is open: by a closing tag, or by finishing the response. */
  predicate ClosesReason(inThinking: bool, c: Chunk) {
    (c.choice.Some? && ClosesTag(ChunkText(c))) || Finishes(inThinking, c)
  }

  function ClosedReason(chunks: seq<Chunk>): Option<string> {
    if chunks == [] then None
    else
      var (front, last) := (chunks[..|chunks| - 1], chunks[|chunks| - 1]);
      if ClosedReason(front).Some? then ClosedReason(front)
      else if ClosesReason(Thinking(front), last) && OpenedBy(chunks) then Some(ReasonSent(chunks))
      else None
  }

  function ReportedReason(chunks: seq<Chunk>): Option<string> {
    if ClosedReason(chunks).Some? then ClosedReason(chunks)
    else if !AnyFinish(chunks) && OpenedBy(chunks) then Some(ReasonSent(chunks))
    else None
  }

  /** The text of message i that comes after its close. */
  function MissedText(chunks: seq<Chunk>, i: int): string {
    if chunks == [] then ""
    else
      var (front, last) := (chunks[..|chunks| - 1], chunks[|chunks| - 1]);
      MissedText(front, i) + (if ClosedText(front, i).Some? then TextFor(Thinking(front), last, i) else "")
  }

  function MissedReason(chunks: seq<Chunk>): string {
    if chunks == [] then ""
    else
      var (front, last) := (chunks[..|chunks| - 1], chunks[|chunks| - 1]);
      MissedReason(front) + (if ClosedReason(front).Some? then ReasonPart(Thinking(front), last) else "")
  }

  lemma TextSnoc(chunks: seq<Chunk>, c: Chunk, i: int)
    ensures TextSent(chunks + [c], i) == TextSent(chunks, i) + TextFor(Thinking(chunks), c, i)
    ensures ClosedText(chunks + [c], i)
         == if ClosedText(chunks, i).Some? then ClosedText(chunks, i)
            else if ClosesText(Thinking(chunks), c, i) && TextSent(chunks + [c], i) != ""
            then Some(TextSent(chunks + [c], i)) else None
  {
    assert (chunks + [c])[..|chunks|] == chunks;
  }

  lemma ReasonSnoc(chunks: seq<Chunk>, c: Chunk)
    ensures ReasonSent(chunks + [c]) == ReasonSent(chunks) + ReasonPart(Thinking(chunks), c)
    ensures OpenedBy(chunks + [c]) <==> OpenedBy(chunks) || Opens(c)
    ensures ClosedReason(chunks + [c])
         == if ClosedReason(chunks).Some? then ClosedReason(chunks)
            else if ClosesReason(Thinking(chunks), c) && OpenedBy(chunks + [c])
            then Some(ReasonSent(chunks + [c])) else None
  {
    assert (chunks + [c])[..|chunks|] == chunks;
  }

  // ---------------------------------------------------------------- the books

  function OneReport(text: Option<string>): seq<string> { if text.Some? then [text.value] else [] }

  ghost predicate TextBook(o: Out, sent: string, closed: Option<string>, i: int) {
    && GetS(o.st.msgs.text, i) == sent && (i in o.st.msgs.added <==> sent != "")
    && (i in o.st.msgs.done <==> closed.Some?) && DoneTexts(o.log, i) == OneReport(closed)
  }

  ghost predicate ReasonBook(o: Out, sent: string, begun: bool, closed: Option<string>) {
    && o.st.reason.buf == sent && (Opened(o.st) <==> begun)
    && (o.st.reason.done <==> closed.Some?) && DoneReasons(o.log) == OneReport(closed)
  }

  ghost predicate Booked(o: Out, chunks: seq<Chunk>) {
    && o.st.inThinking == Thinking(chunks) && (o.st.completed <==> AnyFinish(chunks))
    && (o.st.completed ==> o.st.started)
    && (forall i: int :: TextBook(o, TextSent(chunks, i), ClosedText(chunks, i), i))
    && ReasonBook(o, ReasonSent(chunks), OpenedBy(chunks), ClosedReason(chunks))
  }

  /** A close books the text there is, unless one did before. */
  function CloseWith(closed: Option<string>, closes: bool, sent: string): Option<string> {
    if closed.Some? || !closes then closed else Some(sent)
  }

  lemma CloseMessageBooks(o: Out, idx: int, sent: string, closed: Option<string>, i: int)
    requires TextBook(o, sent, closed, i)
    ensures TextBook(CloseMessage(o, idx), sent, CloseWith(closed, i == idx && sent != "", sent), i)
  {
    CloseMessageDoes(o, idx);
    assert DoneTexts(o.log, i) + [] == DoneTexts(o.log, i);
  }

  lemma OtherStepsBook(o: Out, r: Out, kinds: set<Kind>, sent: string, closed: Option<string>, i: int)
    requires TextBook(o, sent, closed, i) && r.st.msgs == o.st.msgs
    requires Grew(o.log, r.log, kinds) && TextEnd !in kinds
    ensures TextBook(r, sent, closed, i)
  {
    SameTexts(o.log, r.log, kinds, i);
  }

  lemma SendCompletedDoes(o: Out)
    ensures var r := SendCompleted(o);
            r.st == o.st.(completed := true) && Grew(o.log, r.log, {Completion}) && (o.st.completed ==> r.log == o.log)
  {
    if !o.st.completed {
      EmitGrew(o.log, o.(st := o.st.(completed := true)), Completed(o.st.responseId), {Completion});
    }
  }

  /** A finish by way of o1, where its messages are closed, and o2, where its reasoning is, too. */
  ghost predicate Finished(o: Out, o1: Out, o2: Out, r: Out) {
    && o1.st == o.st.(msgs := o.st.msgs.(done := o1.st.msgs.done))
    && Grew(o.log, o1.log, {TextEnd})
    && o2.st == o1.st.(reason := o.st.reason.(done := o.st.reason.done || Opened(o.st)))
    && Grew(o1.log, o2.log, {ReasonEnd})
    && DoneReasons(o2.log) == DoneReasons(o1.log) + (if ReasonDue(o.st) then [o.st.reason.buf] else [])
    && r.st == o2.st.(calls := o.st.calls.(done := r.st.calls.done), completed := true)
    && Grew(o2.log, r.log, {CallEnd, Completion})
  }

  lemma FinishDoes(env: Env, o: Out) returns (o1: Out, o2: Out)
    ensures o1 == CloseMessages(o, SortedKeys(o.st.msgs.added)) && Finished(o, o1, o2, Finish(env, o))
  {
    o1 := CloseMessages(o, SortedKeys(o.st.msgs.added));
    o2 := CloseReasoning(o1);
    var (o3, kinds) := (CloseAll(env, o), {CallEnd, Completion});
    CloseMessagesDoes(o, SortedKeys(o.st.msgs.added));
    CloseReasoningDoes(o1);
    CloseToolCallsDoes(env, o2, SortedKeys(o2.st.calls.ids.Keys));
    SendCompletedDoes(o3);
    GrewMore(o2.log, o3.log, {CallEnd}, kinds);
    GrewMore(o3.log, Finish(env, o).log, {Completion}, kinds);
    GrewTwice(o2.log, o3.log, Finish(env, o).log, kinds);
  }

  lemma FinishBooksText(env: Env, o: Out, sent: string, closed: Option<string>, i: int)
    requires TextBook(o, sent, closed, i)
    ensures TextBook(Finish(env, o), sent, CloseWith(closed, sent != "", sent), i)
  {
    var o1, o2 := FinishDoes(env, o);
    CloseMessagesReport(o, SortedKeys(o.st.msgs.added), i);
    assert i in SortedKeys(o.st.msgs.added) <==> i in o.st.msgs.added;
    FinishedBooksText(o, o1, o2, Finish(env, o), sent, closed, i);
  }

  lemma FinishedBooksText(o: Out, o1: Out, o2: Out, r: Out, sent: string, closed: Option<string>, i: int)
    requires TextBook(o, sent, closed, i) && Finished(o, o1, o2, r)
    requires DoneTexts(o1.log, i) == DoneTexts(o.log, i) + TextReport(o, i, i in o.st.msgs.added)
    requires i in o1.st.msgs.done <==> i in o.st.msgs.done || i in o.st.msgs.added
    ensures TextBook(r, sent, CloseWith(closed, sent != "", sent), i)
  {
    SameTexts(o1.log, o2.log, {ReasonEnd}, i);
    SameTexts(o2.log, r.log, {CallEnd, Completion}, i);
    assert DoneTexts(o.log, i) + [] == DoneTexts(o.log, i);
  }

  lemma FinishBooksReason(env: Env, o: Out, sent: string, begun: bool, closed: Option<string>)
    requires ReasonBook(o, sent, begun, closed)
    ensures ReasonBook(Finish(env, o), sent, begun, CloseWith(closed, begun, sent))
  {
    var o1, o2 := FinishDoes(env, o);
    FinishedBooksReason(o, o1, o2, Finish(env, o), sent, begun, closed);
  }

  lemma FinishedBooksReason(o: Out, o1: Out, o2: Out, r: Out, sent: string, begun: bool, closed: Option<string>)
    requires ReasonBook(o, sent, begun, closed) && Finished(o, o1, o2, r)
    ensures ReasonBook(r, sent, begun, CloseWith(closed, begun, sent))
  {
    SameReasons(o.log, o1.log, {TextEnd});
    SameReasons(o2.log, r.log, {CallEnd, Completion});
    assert DoneReasons(o.log) + [] == DoneReasons(o.log);
  }

  // ---------------------------------------------------------------- one chunk

  /** The translator after a chunk's reasoning and content. */
  function Spoken(env: Env, o: Out, c: Chunk): (Out, bool)
    requires c.choice.Some?
  {
    BeforeCalls(env, o, c.id, c.choice.value)
  }

  const BEFORE_KINDS := {Framing, Opening, ReasonPiece}

  /** The translator after a chunk's own reasoning. */
  ghost predicate Begun(o: Out, r: Out, reason: string) {
    && r.st == o.st.(started := true, responseId := r.st.responseId, reason := r.st.reason)
    && (Opened(r.st) <==> Opened(o.st) || reason != "")
    && r.st.reason.buf == o.st.reason.buf + reason && r.st.reason.done == o.st.reason.done
    && Grew(o.log, r.log, BEFORE_KINDS)
    && (reason != "" ==> |r.log| > |o.log|) && (reason == "" && o.st.started ==> r == o)
  }

  lemma SpokenDoes(env: Env, o: Out, c: Chunk) returns (mid: Out)
    requires c.choice.Some?
    ensures var (r, early) := Spoken(env, o, c);
            && Begun(o, mid, ReasoningText(c.choice.value.delta)) && ContentDone(mid, r, IndexOf(c), ChunkText(c))
            && (early <==> EndsThinking(o.st.inThinking, ChunkText(c)))
  {
    var ch := c.choice.value;
    var (raw, text) := (ChoiceIndexRaw(ch), ReasoningText(ch.delta));
    var o1 := Start(env, o, c.id);
    mid := ConvertReasoning(o1, raw, text);
    StartDoes(env, o, c.id);
    ConvertReasoningDoes(o1, raw, text);
    ContentDoes(mid, raw, ch.delta.content.AsStr());
    GrewMore(o.log, o1.log, {Framing}, BEFORE_KINDS);
    GrewMore(o1.log, mid.log, {Opening, ReasonPiece}, BEFORE_KINDS);
    GrewTwice(o.log, o1.log, mid.log, BEFORE_KINDS);
  }

  lemma ContentBooksText(o: Out, r: Out, idx: int, content: string, sent: string, closed: Option<string>, i: int)
    requires TextBook(o, sent, closed, i) && ContentDone(o, r, idx, content)
    ensures TextBook(r, sent + (if i == idx then Split(o.st.inThinking, content).1 else ""), closed, i)
  {
    SameTexts(o.log, r.log, CONTENT_KINDS, i);
    assert sent + "" == sent;
  }

  lemma SpokenBooksText(env: Env, o: Out, c: Chunk, sent: string, closed: Option<string>, i: int)
    requires c.choice.Some? && TextBook(o, sent, closed, i)
    ensures TextBook(Spoken(env, o, c).0, sent + TextFor(o.st.inThinking, c, i), closed, i)
  {
    var mid := SpokenDoes(env, o, c);
    SpeechBooksText(o, mid, Spoken(env, o, c).0, c, sent, closed, i);
  }

  lemma SpeechBooksText(o: Out, mid: Out, r: Out, c: Chunk, sent: string, closed: Option<string>, i: int)
    requires c.choice.Some? && TextBook(o, sent, closed, i)
    requires Begun(o, mid, ReasoningText(c.choice.value.delta)) && ContentDone(mid, r, IndexOf(c), ChunkText(c))
    ensures TextBook(r, sent + TextFor(o.st.inThinking, c, i), closed, i)
  {
    OtherStepsBook(o, mid, BEFORE_KINDS, sent, closed, i);
    ContentBooksText(mid, r, IndexOf(c), ChunkText(c), sent, closed, i);
  }

  lemma ContentBooksReason(o: Out, r: Out, idx: int, content: string, sent: string, begun: bool, closed: Option<string>)
    requires ReasonBook(o, sent, begun, closed) && ContentDone(o, r, idx, content)
    ensures var (all, now) := (sent + Split(o.st.inThinking, content).0, begun || Tagged(content));
            ReasonBook(r, all, now, CloseWith(closed, ClosesTag(content) && now, all))
  {
    assert DoneReasons(o.log) + [] == DoneReasons(o.log);
  }

  lemma SpokenBooksReason(env: Env, o: Out, c: Chunk, sent: string, begun: bool, closed: Option<string>)
    requires c.choice.Some? && ReasonBook(o, sent, begun, closed)
    ensures var all := sent + ReasonPart(o.st.inThinking, c);
            ReasonBook(Spoken(env, o, c).0, all, begun || Opens(c),
                       CloseWith(closed, ClosesTag(ChunkText(c)) && (begun || Opens(c)), all))
  {
    var mid := SpokenDoes(env, o, c);
    SpeechBooksReason(o, mid, Spoken(env, o, c).0, c, sent, begun, closed);
  }

  lemma SpeechBooksReason(o: Out, mid: Out, r: Out, c: Chunk, sent: string, begun: bool, closed: Option<string>)
    requires c.choice.Some? && ReasonBook(o, sent, begun, closed)
    requires Begun(o, mid, ReasoningText(c.choice.value.delta)) && ContentDone(mid, r, IndexOf(c), ChunkText(c))
    ensures var all := sent + ReasonPart(o.st.inThinking, c);
            ReasonBook(r, all, begun || Opens(c),
                       CloseWith(closed, ClosesTag(ChunkText(c)) && (begun || Opens(c)), all))
  {
    var text := ReasoningText(c.choice.value.delta);
    SameReasons(o.log, mid.log, BEFORE_KINDS);
    assert ReasonBook(mid, sent + text, begun || text != "", closed);
    ContentBooksReason(mid, r, IndexOf(c), ChunkText(c), sent + text, begun || text != "", closed);
    Assoc(sent, text, Split(o.st.inThinking, ChunkText(c)).0);
  }

  /** The translator after a chunk's tool calls. */
  function Called(env: Env, o: Out, c: Chunk): Out
    requires c.choice.Some?
  {
    ConvertCalls(env, o, IndexOf(c), c.choice.value.delta.toolCalls)
  }

  lemma CalledBooksText(env: Env, o: Out, c: Chunk, sent: string, closed: Option<string>, i: int)
    requires c.choice.Some? && TextBook(o, sent, closed, i)
    ensures var closes := BringsCalls(c) && IndexOf(c) == i && sent != "";
            TextBook(Called(env, o, c), sent, CloseWith(closed, closes, sent), i)
  {
    if BringsCalls(c) {
      var o1 := CloseMessage(o, IndexOf(c));
      CloseMessageBooks(o, IndexOf(c), sent, closed, i);
      EmitToolCallsDoes(env, o1, c.choice.value.delta.toolCalls.value);
      OtherStepsBook(o1, Called(env, o, c), FRAGMENT_KINDS, sent,
                     CloseWith(closed, i == IndexOf(c) && sent != "", sent), i);
    }
  }

  lemma CalledDoes(env: Env, o: Out, c: Chunk)
    requires c.choice.Some?
    ensures var r := Called(env, o, c).st;
            r.reason == o.st.reason && r.completed == o.st.completed && r.inThinking == o.st.inThinking
            && r.started == o.st.started
    ensures Grew(o.log, Called(env, o, c).log, {TextEnd, Opening, CallPiece})
  {
    if BringsCalls(c) {
      var (o1, kinds) := (CloseMessage(o, IndexOf(c)), {TextEnd, Opening, CallPiece});
      CloseMessageDoes(o, IndexOf(c));
      EmitToolCallsDoes(env, o1, c.choice.value.delta.toolCalls.value);
      GrewMore(o.log, o1.log, {TextEnd}, kinds);
      GrewMore(o1.log, Called(env, o, c).log, FRAGMENT_KINDS, kinds);
      GrewTwice(o.log, o1.log, Called(env, o, c).log, kinds);
    }
  }

  /** A chunk in these stages: speech, then unless that ends inside a thinking span the tool calls and the finish. */
  lemma ChunkStages(env: Env, o: Out, c: Chunk)
    requires c.choice.Some?
    ensures var (o3, early) := Spoken(env, o, c);
            ConvertOn(env, o, Some(c))
            == if early then o3
               else if c.choice.value.finish.Truthy() then Finish(env, Called(env, o3, c)) else Called(env, o3, c)
  {
  }

  lemma ChunkBooksText(env: Env, o: Out, chunks: seq<Chunk>, c: Chunk, i: int)
    requires c.choice.Some? && Booked(o, chunks)
    ensures TextBook(ConvertOn(env, o, Some(c)), TextSent(chunks + [c], i), ClosedText(chunks + [c], i), i)
  {
    var (sent, closed) := (TextSent(chunks, i), ClosedText(chunks, i));
    var all := sent + TextFor(o.st.inThinking, c, i);
    var (o3, early) := Spoken(env, o, c);
    TextSnoc(chunks, c, i);
    ChunkStages(env, o, c);
    var mid := SpokenDoes(env, o, c);
    SpokenBooksText(env, o, c, sent, closed, i);
    if !early {
      var called := CloseWith(closed, BringsCalls(c) && IndexOf(c) == i && all != "", all);
      CalledBooksText(env, o3, c, all, closed, i);
      if c.choice.value.finish.Truthy() { FinishBooksText(env, Called(env, o3, c), all, called, i); }
    }
  }

  lemma CloseTwice(closed: Option<string>, a: bool, b: bool, sent: string)
    ensures CloseWith(CloseWith(closed, a, sent), b, sent) == CloseWith(closed, a || b, sent)
  {
  }

  lemma CalledBooksReason(env: Env, o: Out, c: Chunk, sent: string, begun: bool, closed: Option<string>)
    requires c.choice.Some? && ReasonBook(o, sent, begun, closed)
    ensures ReasonBook(Called(env, o, c), sent, begun, closed)
  {
    CalledDoes(env, o, c);
    SameReasons(o.log, Called(env, o, c).log, {TextEnd, Opening, CallPiece});
  }

  lemma ChunkBooksReason(env: Env, o: Out, chunks: seq<Chunk>, c: Chunk)
    requires c.choice.Some? && Booked(o, chunks)
    ensures ReasonBook(ConvertOn(env, o, Some(c)), ReasonSent(chunks + [c]), OpenedBy(chunks + [c]),
                       ClosedReason(chunks + [c]))
  {
    var (closed, begun) := (ClosedReason(chunks), OpenedBy(chunks) || Opens(c));
    var all := ReasonSent(chunks) + ReasonPart(o.st.inThinking, c);
    var tagged := ClosesTag(ChunkText(c)) && begun;
    var (o3, early) := Spoken(env, o, c);
    ReasonSnoc(chunks, c);
    ChunkStages(env, o, c);
    assert early <==> EndsThinking(o.st.inThinking, ChunkText(c)) by { var mid := SpokenDoes(env, o, c); }
    SpokenBooksReason(env, o, c, ReasonSent(chunks), OpenedBy(chunks), closed);
    if !early {
      CalledBooksReason(env, o3, c, all, begun, CloseWith(closed, tagged, all));
      if c.choice.value.finish.Truthy() {
        FinishBooksReason(env, Called(env, o3, c), all, begun, CloseWith(closed, tagged, all));
        CloseTwice(closed, tagged, begun, all);
      }
    }
  }

  lemma FinishFlags(env: Env, o: Out)
    ensures var r := Finish(env, o).st; r.completed && r.inThinking == o.st.inThinking && r.started == o.st.started
  {
    var o1, o2 := FinishDoes(env, o);
  }

  lemma ChunkFlags(env: Env, o: Out, chunks: seq<Chunk>, c: Chunk)
    requires c.choice.Some? && Booked(o, chunks)
    ensures var r := ConvertOn(env, o, Some(c)).st;
            && r.inThinking == Thinking(chunks + [c]) && (r.completed <==> AnyFinish(chunks + [c])) && r.started
  {
    var o3 := Spoken(env, o, c).0;
    TakenSnoc(chunks, c);
    ChunkStages(env, o, c);
    var mid := SpokenDoes(env, o, c);
    CalledDoes(env, o3, c);
    FinishFlags(env, Called(env, o3, c));
  }

  /** A chunk without a choice changes nothing. */
  lemma EmptyChunkBooks(env: Env, o: Out, chunks: seq<Chunk>, c: Chunk)
    requires c.choice.None? && Booked(o, chunks)
    ensures Booked(ConvertOn(env, o, Some(c)), chunks + [c])
  {
    TakenSnoc(chunks, c);
    EmptySplit(Thinking(chunks));
    ReasonSnoc(chunks, c);
    assert ReasonSent(chunks) + "" == ReasonSent(chunks);
    forall i: int ensures TextBook(o, TextSent(chunks + [c], i), ClosedText(chunks + [c], i), i) {
      TextSnoc(chunks, c, i);
      assert TextSent(chunks, i) + "" == TextSent(chunks, i);
      assert TextBook(o, TextSent(chunks, i), ClosedText(chunks, i), i);
    }
  }

  lemma ChunkBooks(env: Env, o: Out, chunks: seq<Chunk>, c: Chunk)
    requires Booked(o, chunks)
    ensures Booked(ConvertOn(env, o, Some(c)), chunks + [c])
  {
    if c.choice.None? {
      EmptyChunkBooks(env, o, chunks, c);
    } else {
      ChunkFlags(env, o, chunks, c);
      ChunkBooksReason(env, o, chunks, c);
      forall i: int
        ensures TextBook(ConvertOn(env, o, Some(c)), TextSent(chunks + [c], i), ClosedText(chunks + [c], i), i)
      {
        ChunkBooksText(env, o, chunks, c, i);
      }
    }
  }

  // ---------------------------------------------------------------- the stream

  lemma BeginBooks(responseId: string)
    ensures Booked(Begin(responseId), [])
  {
  }

  lemma {:induction false} RunBooks(env: Env, responseId: string, chunks: seq<Chunk>, k: nat)
    requires k <= |chunks|
    ensures Booked(Upto(env, responseId, chunks, k), chunks[..k])
    decreases k
  {
    if k == 0 {
      assert chunks[..0] == [];
      BeginBooks(responseId);
    } else {
      RunBooks(env, responseId, chunks, k - 1);
      UptoNext(env, responseId, chunks, k);
      ChunkBooks(env, Upto(env, responseId, chunks, k - 1), chunks[..k - 1], chunks[k - 1]);
    }
  }

  /** Message i of a flushed stream has one done event, with all text sent for it up to the first chunk that closes it
      (or the flush of an unfinished stream), and none if nothing closes it. */
  lemma TextReportedExactly(env: Env, responseId: string, chunks: seq<Chunk>, i: int)
    ensures DoneTexts(Stream(env, responseId, chunks).log, i) == OneReport(ReportedText(chunks, i))
  {
    var o := Upto(env, responseId, chunks, |chunks|);
    assert chunks[..|chunks|] == chunks;
    RunBooks(env, responseId, chunks, |chunks|);
    assert TextBook(o, TextSent(chunks, i), ClosedText(chunks, i), i);
    FinishBooksText(env, o, TextSent(chunks, i), ClosedText(chunks, i), i);
  }

  /** Likewise the reasoning item. */
  lemma ReasonReportedExactly(env: Env, responseId: string, chunks: seq<Chunk>)
    ensures DoneReasons(Stream(env, responseId, chunks).log) == OneReport(ReportedReason(chunks))
  {
    var o := Upto(env, responseId, chunks, |chunks|);
    assert chunks[..|chunks|] == chunks;
    RunBooks(env, responseId, chunks, |chunks|);
    FinishBooksReason(env, o, ReasonSent(chunks), OpenedBy(chunks), ClosedReason(chunks));
  }

  /** What is sent for a closed message is what its close carries and what misses it. */
  lemma {:induction false} TextAddsUp(chunks: seq<Chunk>, i: int)
    ensures TextSent(chunks, i)
         == (if ClosedText(chunks, i).Some? then ClosedText(chunks, i).value else TextSent(chunks, i))
            + MissedText(chunks, i)
  {
    if chunks == [] {
      assert TextSent(chunks, i) + "" == TextSent(chunks, i);
    } else {
      var (front, last) := (chunks[..|chunks| - 1], chunks[|chunks| - 1]);
      TextAddsUp(front, i);
      MissedOnlyAfterClose(front, i);
      if ClosedText(front, i).Some? {
        Assoc(ClosedText(front, i).value, MissedText(front, i), TextFor(Thinking(front), last, i));
      } else {
        assert TextSent(chunks, i) + "" == TextSent(chunks, i);
      }
    }
  }

  lemma {:induction false} MissedOnlyAfterClose(chunks: seq<Chunk>, i: int)
    ensures ClosedText(chunks, i).None? ==> MissedText(chunks, i) == ""
  {
    if chunks != [] { MissedOnlyAfterClose(chunks[..|chunks| - 1], i); }
  }

  lemma {:induction false} ReasonAddsUp(chunks: seq<Chunk>)
    ensures ClosedReason(chunks).None? ==> MissedReason(chunks) == ""
    ensures ReasonSent(chunks)
         == (if ClosedReason(chunks).Some? then ClosedReason(chunks).value else ReasonSent(chunks))
            + MissedReason(chunks)
  {
    if chunks == [] {
      assert ReasonSent(chunks) + "" == ReasonSent(chunks);
    } else {
      var (front, last) := (chunks[..|chunks| - 1], chunks[|chunks| - 1]);
      ReasonAddsUp(front);
      if ClosedReason(front).Some? {
        Assoc(ClosedReason(front).value, MissedReason(front), ReasonPart(Thinking(front), last));
      } else {
        assert ReasonSent(chunks) + "" == ReasonSent(chunks);
      }
    }
  }

  /** One report of what was sent, if that is owed, exactly when there is a report and nothing misses it. */
  lemma WholeExactly(sent: string, owed: bool, reported: Option<string>, missed: string)
    requires reported.Some? ==> owed && sent == reported.value + missed
    requires reported.None? ==> missed == "" || owed
    ensures OneReport(reported) == (if owed then [sent] else []) <==> (owed ==> reported.Some?) && missed == ""
  {
    if reported.Some? {
      assert |sent| == |reported.value| + |missed|;
      assert reported.value + "" == reported.value;
    }
  }

  lemma ReportedTextAddsUp(chunks: seq<Chunk>, i: int)
    ensures ReportedText(chunks, i).Some? ==>
              TextSent(chunks, i) != "" && TextSent(chunks, i) == ReportedText(chunks, i).value + MissedText(chunks, i)
    ensures ReportedText(chunks, i).None? ==> MissedText(chunks, i) == ""
  {
    TextAddsUp(chunks, i);
    MissedOnlyAfterClose(chunks, i);
    ClosedHasText(chunks, i);
    if ClosedText(chunks, i).Some? {
      assert |TextSent(chunks, i)| == |ClosedText(chunks, i).value| + |MissedText(chunks, i)|;
    }
  }

  /** The done text of message i is all text sent for it, exactly when something closes the message once it has begun
      and no text of it comes after that. */
  lemma TextWholeExactly(env: Env, responseId: string, chunks: seq<Chunk>, i: int)
    ensures var sent := TextSent(chunks, i);
            DoneTexts(Stream(env, responseId, chunks).log, i) == (if sent != "" then [sent] else [])
            <==> (sent != "" ==> ReportedText(chunks, i).Some?) && MissedText(chunks, i) == ""
  {
    TextReportedExactly(env, responseId, chunks, i);
    ReportedTextAddsUp(chunks, i);
    WholeExactly(TextSent(chunks, i), TextSent(chunks, i) != "", ReportedText(chunks, i), MissedText(chunks, i));
  }

  lemma {:induction false} ClosedHasText(chunks: seq<Chunk>, i: int)
    ensures ClosedText(chunks, i).Some? ==> ClosedText(chunks, i).value != ""
  {
    if chunks != [] { ClosedHasText(chunks[..|chunks| - 1], i); }
  }

  /** The done reasoning is all reasoning sent, exactly when there is an open reasoning item that something closes, or
      nothing was sent, and no reasoning comes after the close. */
  lemma ReasonWholeExactly(env: Env, responseId: string, chunks: seq<Chunk>)
    ensures var (sent, owed) := (ReasonSent(chunks), OpenedBy(chunks) || ReasonSent(chunks) != "");
            DoneReasons(Stream(env, responseId, chunks).log) == (if owed then [sent] else [])
            <==> (owed ==> ReportedReason(chunks).Some?) && MissedReason(chunks) == ""
  {
    ReasonReportedExactly(env, responseId, chunks);
    ReasonAddsUp(chunks);
    ReportedIsOpened(chunks);
    WholeExactly(ReasonSent(chunks), OpenedBy(chunks) || ReasonSent(chunks) != "", ReportedReason(chunks),
                 MissedReason(chunks));
  }

  lemma {:induction false} ReportedIsOpened(chunks: seq<Chunk>)
    ensures ClosedReason(chunks).Some? ==> OpenedBy(chunks)
  {
    if chunks != [] { ReportedIsOpened(chunks[..|chunks| - 1]); }
  }

  /** All text and all reasoning that is sent goes out as deltas, whether or not a done event still carries it. */
  lemma AllGoesOut(env: Env, responseId: string, chunks: seq<Chunk>, i: int)
    ensures EventLifecycle.TextOf(Stream(env, responseId, chunks).log, i) == TextSent(chunks, i)
    ensures EventLifecycle.ReasonOf(Stream(env, responseId, chunks).log) == ReasonSent(chunks)
  {
    var (o, r) := (Upto(env, responseId, chunks, |chunks|), Stream(env, responseId, chunks));
    assert chunks[..|chunks|] == chunks;
    RunBooks(env, responseId, chunks, |chunks|);
    assert TextBook(o, TextSent(chunks, i), ClosedText(chunks, i), i);
    FinishBooksText(env, o, TextSent(chunks, i), ClosedText(chunks, i), i);
    FinishBooksReason(env, o, ReasonSent(chunks), OpenedBy(chunks), ClosedReason(chunks));
    LogHolds(env, responseId, chunks, r, i);
  }

  lemma LogHolds(env: Env, responseId: string, chunks: seq<Chunk>, r: Out, i: int)
    requires r == Stream(env, responseId, chunks)
    ensures EventLifecycle.TextOf(r.log, i) == GetS(r.st.msgs.text, i)
    ensures EventLifecycle.ReasonOf(r.log) == r.st.reason.buf
  {
    EventLifecycle.StreamKeeps(env, responseId, chunks);
    EventLifecycle.AcceptedIsOrdered(r.log);
  }

  // ---------------------------------------------------------------- witnesses

  /** A piece of text without thinking tags. */
  predicate Bare(text: string) { text != "" && Find(text, OPEN_TAG).None? && Find(text, CLOSE_TAG).None? }

  function TextChunk(text: string, finish: Raw): Chunk {
    Chunk(Null, Some(Choice(Num(0), Delta(Null, Null, None, Str(text), None), finish)), Null)
  }

  function ReasonChunk(text: string, finish: Raw): Chunk {
    Chunk(Null, Some(Choice(Num(0), Delta(Str(text), Null, None, Null, None), finish)), Null)
  }

  function CallChunk(tc: ToolCall): Chunk {
    Chunk(Null, Some(Choice(Num(0), Delta(Null, Null, None, Null, Some([Some(tc)])), Null)), Null)
  }

  lemma TextChunkReads(chunks: seq<Chunk>, text: string, finish: Raw)
    requires Bare(text) && !Thinking(chunks)
    ensures var c := TextChunk(text, finish);
            && TextFor(false, c, 0) == text && !Thinking(chunks + [c]) && !BringsCalls(c)
            && (Finishes(false, c) <==> finish.Truthy())
  {
    assert Split(false, text) == ("", text, false);
    TakenSnoc(chunks, TextChunk(text, finish));
  }

  lemma ReasonChunkReads(chunks: seq<Chunk>, text: string, finish: Raw)
    requires text != "" && !Thinking(chunks)
    ensures var c := ReasonChunk(text, finish);
            && ReasonPart(false, c) == text && Opens(c) && !Thinking(chunks + [c])
            && (Finishes(false, c) <==> finish.Truthy())
  {
    EmptySplit(false);
    assert text + "" == text;
    TakenSnoc(chunks, ReasonChunk(text, finish));
  }

  lemma CallChunkReads(chunks: seq<Chunk>, tc: ToolCall)
    requires !Thinking(chunks)
    ensures var c := CallChunk(tc);
            TextFor(false, c, 0) == "" && ClosesText(false, c, 0) && !Thinking(chunks + [c])
  {
    EmptySplit(false);
    TakenSnoc(chunks, CallChunk(tc));
  }

  /** Lost after the finish: text that follows goes out as deltas, and the message's done event is without it. */
  lemma LateTextIsLost(env: Env, responseId: string, a: string, b: string, finish: Raw)
    requires Bare(a) && Bare(b) && finish.Truthy()
    ensures var chunks := [TextChunk(a, finish), TextChunk(b, Null)];
            && TextSent(chunks, 0) == a + b && EventLifecycle.TextOf(Stream(env, responseId, chunks).log, 0) == a + b
            && DoneTexts(Stream(env, responseId, chunks).log, 0) == [a]
  {
    var (c, d) := (TextChunk(a, finish), TextChunk(b, Null));
    TextChunkReads([], a, finish);
    TextChunkReads([c], b, Null);
    TextSnoc([], c, 0);
    TextSnoc([c], d, 0);
    assert [] + [c] == [c] && [c] + [d] == [c, d] && "" + a == a;
    TextReportedExactly(env, responseId, [c, d], 0);
    AllGoesOut(env, responseId, [c, d], 0);
  }

  /** Lost after a tool call, in a stream that never finishes: the call closes the message, and the flush comes too
      late for what follows. */
  lemma TextAfterCallIsLost(env: Env, responseId: string, a: string, tc: ToolCall, b: string)
    requires Bare(a) && Bare(b)
    ensures var chunks := [TextChunk(a, Null), CallChunk(tc), TextChunk(b, Null)];
            && TextSent(chunks, 0) == a + b && EventLifecycle.TextOf(Stream(env, responseId, chunks).log, 0) == a + b
            && DoneTexts(Stream(env, responseId, chunks).log, 0) == [a]
  {
    var (c, d, e) := (TextChunk(a, Null), CallChunk(tc), TextChunk(b, Null));
    TextChunkReads([], a, Null);
    CallChunkReads([c], tc);
    TextChunkReads([c, d], b, Null);
    TextSnoc([], c, 0);
    TextSnoc([c], d, 0);
    TextSnoc([c, d], e, 0);
    assert [] + [c] == [c] && [c] + [d] == [c, d] && [c, d] + [e] == [c, d, e];
    assert "" + a == a && a + "" == a;
    TextReportedExactly(env, responseId, [c, d, e], 0);
    AllGoesOut(env, responseId, [c, d, e], 0);
  }

  /** Reasoning behaves alike. */
  lemma LateReasoningIsLost(env: Env, responseId: string, a: string, b: string, finish: Raw)
    requires a != "" && b != "" && finish.Truthy()
    ensures var chunks := [ReasonChunk(a, finish), ReasonChunk(b, Null)];
            && ReasonSent(chunks) == a + b && EventLifecycle.ReasonOf(Stream(env, responseId, chunks).log) == a + b
            && DoneReasons(Stream(env, responseId, chunks).log) == [a]
  {
    var (c, d) := (ReasonChunk(a, finish), ReasonChunk(b, Null));
    ReasonChunkReads([], a, finish);
    ReasonChunkReads([c], b, Null);
    ReasonSnoc([], c);
    ReasonSnoc([c], d);
    assert [] + [c] == [c] && [c] + [d] == [c, d] && "" + a == a;
    ReasonReportedExactly(env, responseId, [c, d]);
    AllGoesOut(env, responseId, [c, d], 0);
  }
}
