/**
 The message text and the reasoning that the streaming and the folding client of
 one stream are shown, and exactly when they are the same, think tags, other
 shapes of reasoning and parts that come too late included.
 */
module TextAgreement {
  import opened Basics
  import opened JsValues
  import opened ChatToResp
  import opened StepEffects
  import opened NonStream
  import opened Agreement
  import opened CallArguments
  import opened LostTexts

  /** All chunks are of choice 0. */
  predicate OneChoice(chunks: seq<Chunk>) { forall k :: 0 <= k < |chunks| ==> IndexOf(chunks[k]) == 0 }

  predicate Tagless(c: Chunk) { Find(ChunkText(c), OPEN_TAG).None? && Find(ChunkText(c), CLOSE_TAG).None? }

  /** No content has a thinking tag. */
  predicate NoTags(chunks: seq<Chunk>) { forall k :: 0 <= k < |chunks| ==> Tagless(chunks[k]) }

  // ---------------------------------------------------------------- reading the stream's log

  lemma {:induction false} TextsJoin(a: seq<Done>, b: seq<Done>)
    ensures Texts(a + b) == Texts(a) + Texts(b)
  {
    if a == [] {
      assert a + b == b;
    } else {
      assert (a + b)[1..] == a[1..] + b;
      TextsJoin(a[1..], b);
    }
  }

  lemma {:induction false} ReasonsJoin(a: seq<Done>, b: seq<Done>)
    ensures Reasons(a + b) == Reasons(a) + Reasons(b)
  {
    if a == [] {
      assert a + b == b;
    } else {
      assert (a + b)[1..] == a[1..] + b;
      ReasonsJoin(a[1..], b);
    }
  }

  lemma DonePartReads(b: Body)
    ensures Reasons(DonePart(b)) == DoneReasonBy(b)
    ensures b.ItemDone? && b.item.MessageItem? && b.item.text.Some? ==>
              Texts(DonePart(b)) == DoneTextBy(b, JsIndex(b.outIndex))
    ensures !(b.ItemDone? && b.item.MessageItem? && b.item.text.Some?) ==>
              Texts(DonePart(b)) == [] && forall i: int :: DoneTextBy(b, i) == []
  {
    if DonePart(b) != [] { assert DonePart(b)[1..] == []; }
  }

  lemma {:induction false} ReasonsAreDone(log: seq<Event>)
    ensures Reasons(Dones(log)) == DoneReasons(log)
  {
    if log != [] {
      var n := |log| - 1;
      ReasonsAreDone(log[..n]);
      ReasonsJoin(Dones(log[..n]), DonePart(log[n].body));
      DonePartReads(log[n].body);
    }
  }

  lemma {:induction false} TextsAreDone(log: seq<Event>)
    requires forall i: int :: i != 0 ==> DoneTexts(log, i) == []
    ensures Texts(Dones(log)) == DoneTexts(log, 0)
  {
    if log != [] {
      var (n, b) := (|log| - 1, log[|log| - 1].body);
      forall i: int | i != 0 ensures DoneTexts(log[..n], i) == [] && DoneTextBy(b, i) == [] {
        assert DoneTexts(log, i) == [];
      }
      TextsAreDone(log[..n]);
      TextsJoin(Dones(log[..n]), DonePart(b));
      DonePartReads(b);
    }
  }

  lemma {:induction false} OtherMessagesEmpty(chunks: seq<Chunk>, i: int)
    requires OneChoice(chunks) && i != 0
    ensures TextSent(chunks, i) == ""
  {
    if chunks != [] { OtherMessagesEmpty(chunks[..|chunks| - 1], i); }
  }

  lemma StreamedTexts(env: Env, responseId: string, chunks: seq<Chunk>)
    requires OneChoice(chunks)
    ensures Texts(Streamed(env, responseId, chunks)) == OneReport(ReportedText(chunks, 0))
  {
    var log := Stream(env, responseId, chunks).log;
    forall i: int | i != 0 ensures DoneTexts(log, i) == [] {
      OtherMessagesEmpty(chunks, i);
      ReportedTextAddsUp(chunks, i);
      TextReportedExactly(env, responseId, chunks, i);
    }
    TextReportedExactly(env, responseId, chunks, 0);
    TextsAreDone(log);
  }

  lemma StreamedReasons(env: Env, responseId: string, chunks: seq<Chunk>)
    ensures Reasons(Streamed(env, responseId, chunks)) == OneReport(ReportedReason(chunks))
  {
    ReasonReportedExactly(env, responseId, chunks);
    ReasonsAreDone(Stream(env, responseId, chunks).log);
  }

  // ---------------------------------------------------------------- what is sent and what is joined

  lemma {:induction false} TextNext(chunks: seq<Chunk>, c: Chunk)
    ensures Text(chunks + [c]) == Text(chunks) + ChunkText(c)
    ensures Reason(chunks + [c]) == Reason(chunks) + ChunkReason(c)
    decreases |chunks|
  {
    if chunks == [] {
      assert chunks + [c] == [c] && [c][1..] == [];
      assert "" + ChunkText(c) == ChunkText(c) == ChunkText(c) + "";
      assert "" + ChunkReason(c) == ChunkReason(c) == ChunkReason(c) + "";
    } else {
      assert (chunks + [c])[1..] == chunks[1..] + [c];
      TextNext(chunks[1..], c);
      Assoc(ChunkText(chunks[0]), Text(chunks[1..]), ChunkText(c));
      Assoc(ChunkReason(chunks[0]), Reason(chunks[1..]), ChunkReason(c));
    }
  }

  /** A content goes out as text whole, or in part. */
  lemma TextPartWhole(inThinking: bool, c: Chunk)
    ensures |TextPart(inThinking, c)| <= |ChunkText(c)|
    ensures !inThinking ==> (|TextPart(inThinking, c)| == |ChunkText(c)| <==> Tagless(c))
    ensures !inThinking && Tagless(c) ==>
              TextPart(inThinking, c) == ChunkText(c) && !ThinkingAfter(inThinking, ChunkText(c))
  {
  }

  lemma {:induction false} TextSentWhole(chunks: seq<Chunk>)
    requires OneChoice(chunks)
    ensures |TextSent(chunks, 0)| <= |Text(chunks)|
    ensures |TextSent(chunks, 0)| == |Text(chunks)| <==> NoTags(chunks)
    ensures NoTags(chunks) ==> TextSent(chunks, 0) == Text(chunks) && !Thinking(chunks)
  {
    if chunks != [] {
      var (front, last) := (chunks[..|chunks| - 1], chunks[|chunks| - 1]);
      assert chunks == front + [last];
      TextSentWhole(front);
      TextNext(front, last);
      TextPartWhole(Thinking(front), last);
      NoTagsNext(front, last);
      assert last.choice.None? ==> Tagless(last) by { EmptySplit(false); }
    }
  }

  lemma NoTagsNext(chunks: seq<Chunk>, c: Chunk)
    ensures NoTags(chunks + [c]) <==> NoTags(chunks) && Tagless(c)
  {
    assert forall k :: 0 <= k < |chunks| ==> (chunks + [c])[k] == chunks[k];
    if NoTags(chunks + [c]) {
      assert Tagless((chunks + [c])[|chunks|]);
      forall k | 0 <= k < |chunks| ensures Tagless(chunks[k]) { assert Tagless((chunks + [c])[k]); }
    }
  }

  /** Reasoning goes out at least as reasoning_content has it. */
  lemma ReasonPartExtends(inThinking: bool, c: Chunk)
    ensures |ReasonPart(inThinking, c)| >= |ChunkReason(c)|
    ensures |ReasonPart(inThinking, c)| == |ChunkReason(c)| <==> ReasonPart(inThinking, c) == ChunkReason(c)
  {
    if c.choice.Some? {
      var reason := ReasoningText(c.choice.value.delta);
      assert reason + "" == reason;
    }
  }

  /** The reasoning of every chunk is its reasoning_content alone. */
  predicate PlainReasons(chunks: seq<Chunk>) {
    chunks == []
    || (PlainReasons(chunks[..|chunks| - 1])
        && ReasonPart(Thinking(chunks[..|chunks| - 1]), chunks[|chunks| - 1]) == ChunkReason(chunks[|chunks| - 1]))
  }

  lemma {:induction false} ReasonSentExtends(chunks: seq<Chunk>)
    ensures |ReasonSent(chunks)| >= |Reason(chunks)|
    ensures |ReasonSent(chunks)| == |Reason(chunks)| <==> PlainReasons(chunks)
    ensures PlainReasons(chunks) ==> ReasonSent(chunks) == Reason(chunks)
  {
    if chunks != [] {
      var (front, last) := (chunks[..|chunks| - 1], chunks[|chunks| - 1]);
      assert chunks == front + [last];
      ReasonSentExtends(front);
      TextNext(front, last);
      ReasonPartExtends(Thinking(front), last);
    }
  }

  // ---------------------------------------------------------------- agreement

  lemma {:induction false} ErrorIsFound(chunks: seq<Chunk>)
    ensures LastError(chunks).Truthy() <==> exists k :: 0 <= k < |chunks| && chunks[k].error.Truthy()
  {
    if chunks != [] {
      var front := chunks[..|chunks| - 1];
      ErrorIsFound(front);
      assert forall k :: 0 <= k < |front| ==> front[k] == chunks[k];
      if k :| 0 <= k < |front| && front[k].error.Truthy() { assert chunks[k].error.Truthy(); }
    }
  }

  /** The folding client is given a completion exactly for a non-empty stream without an error, and then the fold. */
  lemma FoldedExactlyWithoutError(chunks: seq<Chunk>)
    ensures Parse(chunks) == Parsed.Completion(FoldAll(EMPTY_FOLD, chunks))
       <==> chunks != [] && forall k :: 0 <= k < |chunks| ==> !chunks[k].error.Truthy()
  {
    ErrorIsFound(chunks);
  }

  /** Both clients of a stream of one choice read the same message text, exactly when no content has a thinking tag,
      and the message, once it has text, is closed with nothing of it to come. */
  lemma TextsAgreeExactly(env: Env, responseId: string, chunks: seq<Chunk>)
    requires OneChoice(chunks)
    ensures Texts(Streamed(env, responseId, chunks)) == Texts(Folded(env, chunks))
       <==> NoTags(chunks) && MissedText(chunks, 0) == "" && (Text(chunks) != "" ==> ReportedText(chunks, 0).Some?)
  {
    StreamedTexts(env, responseId, chunks);
    FoldSide(env, chunks);
    TextSentWhole(chunks);
    ReportedTextAddsUp(chunks, 0);
    SameText(ReportedText(chunks, 0), MissedText(chunks, 0), TextSent(chunks, 0), Text(chunks), NoTags(chunks));
  }

  lemma SameText(reported: Option<string>, missed: string, sent: string, all: string, whole: bool)
    requires |sent| <= |all| && (|sent| == |all| <==> whole) && (whole ==> sent == all)
    requires reported.Some? ==> sent != "" && sent == reported.value + missed
    requires reported.None? ==> missed == ""
    ensures OneReport(reported) == (if all == "" then [] else [all])
       <==> whole && missed == "" && (all != "" ==> reported.Some?)
  {
    if reported.Some? {
      assert |sent| == |reported.value| + |missed|;
      assert reported.value + "" == reported.value;
    }
  }

  /** They read the same reasoning, whatever the choices, exactly when what the stream reports is the joined
      reasoning_content; the two can only be compared, since vendor shapes and think tags add to the one what a late
      part may take away. */
  lemma ReasonsAgreeExactly(env: Env, responseId: string, chunks: seq<Chunk>)
    ensures Reasons(Streamed(env, responseId, chunks)) == Reasons(Folded(env, chunks))
       <==> ReportedReason(chunks) == if Reason(chunks) == "" then None else Some(Reason(chunks))
  {
    StreamedReasons(env, responseId, chunks);
    FoldSide(env, chunks);
  }

  /** Where none of the reasoning is lost, they do exactly when it all came as reasoning_content, and some did if the
      item was opened. */
  lemma WholeReasonsAgreeExactly(env: Env, responseId: string, chunks: seq<Chunk>)
    requires OpenedBy(chunks) || ReasonSent(chunks) != "" ==> ReportedReason(chunks).Some?
    requires MissedReason(chunks) == ""
    ensures Reasons(Streamed(env, responseId, chunks)) == Reasons(Folded(env, chunks))
       <==> PlainReasons(chunks) && (OpenedBy(chunks) ==> Reason(chunks) != "")
  {
    ReasonsAgreeExactly(env, responseId, chunks);
    ReasonSentExtends(chunks);
    ReasonAddsUp(chunks);
    ReportedIsOpened(chunks);
    if ReportedReason(chunks).Some? { Nothing(ReportedReason(chunks).value); }
  }

  lemma Nothing(s: string)
    ensures s + "" == s
  {
  }

  // ---------------------------------------------------------------- where they differ

  /** A tag in any content: the stream keeps it out of the text, the fold does not. */
  lemma TaggedTextDiffers(env: Env, responseId: string, chunks: seq<Chunk>, k: nat)
    requires OneChoice(chunks) && k < |chunks| && !Tagless(chunks[k])
    ensures Texts(Streamed(env, responseId, chunks)) != Texts(Folded(env, chunks))
  {
    TextsAgreeExactly(env, responseId, chunks);
  }

  /** Text after the finish: the stream reports the first piece only, the fold both. */
  lemma LateTextDiffers(env: Env, responseId: string, a: string, b: string, finish: Raw)
    requires Bare(a) && Bare(b) && finish.Truthy()
    ensures var chunks := [TextChunk(a, finish), TextChunk(b, Null)];
            && Texts(Streamed(env, responseId, chunks)) == [a] && Texts(Folded(env, chunks)) == [a + b]
  {
    var (c, d) := (TextChunk(a, finish), TextChunk(b, Null));
    LateTextIsLost(env, responseId, a, b, finish);
    StreamedTexts(env, responseId, [c, d]);
    TextReportedExactly(env, responseId, [c, d], 0);
    TwoTexts(c, d);
    FoldSide(env, [c, d]);
  }

  lemma TwoTexts(c: Chunk, d: Chunk)
    ensures Text([c, d]) == ChunkText(c) + ChunkText(d)
  {
    TextNext([], c);
    TextNext([c], d);
    assert [] + [c] == [c] && [c] + [d] == [c, d] && "" + ChunkText(c) == ChunkText(c);
  }

  /** Reasoning of another vendor shape: the stream reports it, the fold knows only reasoning_content. */
  lemma VendorReasoningDiffers(env: Env, responseId: string, text: string)
    requires text != ""
    ensures var c := Chunk(Null, Some(Choice(Num(0), Delta(Null, Str(text), None, Null, None), Null)), Null);
            && Reasons(Streamed(env, responseId, [c])) == [text] && Reasons(Folded(env, [c])) == []
  {
    var c := Chunk(Null, Some(Choice(Num(0), Delta(Null, Str(text), None, Null, None), Null)), Null);
    EmptySplit(false);
    ReasonSnoc([], c);
    TakenSnoc([], c);
    TextNext([], c);
    assert [] + [c] == [c] && "" + (text + "") == text;
    StreamedReasons(env, responseId, [c]);
    FoldSide(env, [c]);
  }
}
