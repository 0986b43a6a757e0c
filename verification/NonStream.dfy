/**
 internal/relay/nonstream.go: the non-streaming client's path. The chunks of a
 chat stream are folded into one completion, and the completion is turned into
 Responses output items.
 */
module NonStream {
  import opened Basics
  import opened JsValues
  import opened ChatToResp

  datatype FoldCall = FoldCall(id: Raw, name: string, args: string)

  datatype Fold = Fold(content: string, reasoning: string, calls: map<int, FoldCall>, finish: Raw)

  const EMPTY_FOLD := Fold("", "", map[], Str("stop"))

  datatype Parsed = NoChunks | ErrorChunk(error: Raw) | Completion(fold: Fold)

  /** A tool call folds onto its numeric index; anything else onto 0. */
  function FoldSlot(tc: ToolCall): int { if tc.index.Num? then tc.index.n else 0 }

  function FoldOne(calls: map<int, FoldCall>, tc: ToolCall): map<int, FoldCall> {
    var c := if FoldSlot(tc) in calls then calls[FoldSlot(tc)] else FoldCall(Str(""), "", "");
    calls[FoldSlot(tc) := FoldCall(
      if tc.id.Truthy() then tc.id else c.id,
      if tc.name.Truthy() then c.name + tc.name.JsString() else c.name,
      if tc.args.Truthy() then c.args + tc.args.JsString() else c.args)]
  }

  function FoldElements(calls: map<int, FoldCall>, elements: seq<Option<ToolCall>>): map<int, FoldCall>
    decreases |elements|
  {
    if elements == [] then calls
    else FoldElements(if elements[0].Some? then FoldOne(calls, elements[0].value) else calls, elements[1..])
  }

  function FoldChunk(f: Fold, chunk: Chunk): Fold {
    match chunk.choice
    case None => f
    case Some(c) =>
      Fold(f.content + c.delta.content.AsStr(),
           f.reasoning + c.delta.reasoningContent.AsStr(),
           match c.delta.toolCalls case None => f.calls case Some(es) => FoldElements(f.calls, es),
           if c.finish.Truthy() then c.finish else f.finish)
  }

  function FoldAll(f: Fold, chunks: seq<Chunk>): Fold
    decreases |chunks|
  {
    if chunks == [] then f else FoldAll(FoldChunk(f, chunks[0]), chunks[1..])
  }

  /** The last error a chunk carries, Null when none does. */
  function LastError(chunks: seq<Chunk>): Raw {
    if chunks == [] then Null
    else
      var c := chunks[|chunks| - 1];
      if c.error.Truthy() then c.error else LastError(chunks[..|chunks| - 1])
  }

  function Parse(chunks: seq<Chunk>): Parsed {
    if LastError(chunks).Truthy() then ErrorChunk(LastError(chunks))
    else if chunks == [] then NoChunks
    else Completion(FoldAll(EMPTY_FOLD, chunks))
  }

  // ---------------------------------------------------------------- output items

  datatype OutputItem =
    | OutReasoning(text: string)
    | OutMessage(text: string)
    | OutCall(id: string, custom: bool, callId: Raw, name: string, payload: string)

  /** extractCustomToolInput of internal/relay: it unmarshals the text as it is. */
  function FoldInput(env: Env, args: string): string {
    match env.unwrap(args) case Some(input) => input case None => args
  }

  function CallOutput(env: Env, c: FoldCall): OutputItem {
    var custom := c.name in env.customNames;
    OutCall((if custom then "ctc_" else "fc_") + (if c.id.Truthy() then c.id.JsString() else ""),
            custom, if c.id.Truthy() then c.id else Str(""), c.name,
            if custom then FoldInput(env, c.args) else c.args)
  }

  function CallOutputs(env: Env, calls: map<int, FoldCall>, idxs: seq<int>): seq<OutputItem>
    requires forall k :: 0 <= k < |idxs| ==> idxs[k] in calls
    decreases |idxs|
  {
    if idxs == [] then [] else [CallOutput(env, calls[idxs[0]])] + CallOutputs(env, calls, idxs[1..])
  }

  /** The folded slots, ascending. */
  function Slots(f: Fold): (idxs: seq<int>)
    ensures forall k :: 0 <= k < |idxs| ==> idxs[k] in f.calls
  {
    var idxs := SortedKeys(f.calls.Keys);
    assert forall k :: 0 <= k < |idxs| ==> idxs[k] in idxs;
    idxs
  }

  function ToResponses(env: Env, f: Fold): seq<OutputItem> {
    (if f.reasoning != "" then [OutReasoning(f.reasoning)] else [])
    + (if f.content != "" then [OutMessage(f.content)] else [])
    + CallOutputs(env, f.calls, Slots(f))
  }

  // ---------------------------------------------------------------- the loops

  /** ParseSSEToOpenAIResponse on already decoded chunks: errors first, then one pass that joins the parts. */
  method ParseChatStream(chunks: seq<Chunk>) returns (r: Parsed)
    ensures r == Parse(chunks)
  {
    var errBody := Null;
    for i := 0 to |chunks|
      invariant errBody == LastError(chunks[..i])
    {
      assert chunks[..i + 1][..i] == chunks[..i];
      if chunks[i].error.Truthy() {
        errBody := chunks[i].error;
      }
    }
    assert chunks[..|chunks|] == chunks;
    if errBody.Truthy() {
      return ErrorChunk(errBody);
    }
    if |chunks| == 0 {
      return NoChunks;
    }
    var content, reasoning, finish := "", "", Str("stop");
    var calls: map<int, FoldCall> := map[];
    for i := 0 to |chunks|
      invariant FoldAll(Fold(content, reasoning, calls, finish), chunks[i..]) == FoldAll(EMPTY_FOLD, chunks)
    {
      assert chunks[i..][0] == chunks[i] && chunks[i..][1..] == chunks[i + 1..];
      if chunks[i].choice.Some? {
        var c := chunks[i].choice.value;
        content := content + c.delta.content.AsStr();
        reasoning := reasoning + c.delta.reasoningContent.AsStr();
        if c.finish.Truthy() {
          finish := c.finish;
        }
        if c.delta.toolCalls.Some? {
          calls := JoinCalls(calls, c.delta.toolCalls.value);
        }
      }
    }
    r := Completion(Fold(content, reasoning, calls, finish));
  }

  method JoinCalls(start: map<int, FoldCall>, elements: seq<Option<ToolCall>>) returns (calls: map<int, FoldCall>)
    ensures calls == FoldElements(start, elements)
  {
    calls := start;
    for j := 0 to |elements|
      invariant FoldElements(calls, elements[j..]) == FoldElements(start, elements)
    {
      assert elements[j..][0] == elements[j] && elements[j..][1..] == elements[j + 1..];
      if elements[j].Some? {
        var tc := elements[j].value;
        var idx := FoldSlot(tc);
        var existing := if idx in calls then calls[idx] else FoldCall(Str(""), "", "");
        if tc.id.Truthy() {
          existing := existing.(id := tc.id);
        }
        if tc.name.Truthy() {
          existing := existing.(name := existing.name + tc.name.JsString());
        }
        if tc.args.Truthy() {
          existing := existing.(args := existing.args + tc.args.JsString());
        }
        calls := calls[idx := existing];
      }
    }
  }

  /** ChatCompletionToResponses */
  method CompletionToResponses(env: Env, f: Fold) returns (output: seq<OutputItem>)
    ensures output == ToResponses(env, f)
  {
    var reasonings, messages := [], [];
    if f.reasoning != "" {
      reasonings := [OutReasoning(f.reasoning)];
    }
    if f.content != "" {
      messages := [OutMessage(f.content)];
    }
    var calls := CallItems(env, f.calls, Slots(f));
    output := reasonings + messages + calls;
  }

  method CallItems(env: Env, calls: map<int, FoldCall>, idxs: seq<int>) returns (items: seq<OutputItem>)
    requires forall k :: 0 <= k < |idxs| ==> idxs[k] in calls
    ensures items == CallOutputs(env, calls, idxs)
  {
    items := [];
    for k := 0 to |idxs|
      invariant |items| == k && forall n :: 0 <= n < k ==> items[n] == CallOutput(env, calls[idxs[n]])
    {
      items := items + [CallOutput(env, calls[idxs[k]])];
    }
    SameOutputs(env, calls, idxs, items);
  }

  lemma {:induction false} SameOutputs(env: Env, calls: map<int, FoldCall>, idxs: seq<int>, items: seq<OutputItem>)
    requires forall n :: 0 <= n < |idxs| ==> idxs[n] in calls
    requires |items| == |idxs| && forall n :: 0 <= n < |idxs| ==> items[n] == CallOutput(env, calls[idxs[n]])
    ensures items == CallOutputs(env, calls, idxs)
    decreases |idxs|
  {
    if idxs != [] {
      assert forall n :: 0 <= n < |idxs| - 1 ==> items[1..][n] == items[n + 1] && idxs[1..][n] == idxs[n + 1];
      SameOutputs(env, calls, idxs[1..], items[1..]);
      assert items == [items[0]] + items[1..];
    }
  }

  // ---------------------------------------------------------------- what a parse comes to

  /** Chunk k carries an error, and none after it does. */
  predicate LastFault(chunks: seq<Chunk>, k: nat) {
    && k < |chunks| && chunks[k].error.Truthy()
    && forall m :: k < m < |chunks| ==> !chunks[m].error.Truthy()
  }

  lemma {:induction false} LastErrorMeans(chunks: seq<Chunk>)
    ensures LastError(chunks) == Null <==> forall k :: 0 <= k < |chunks| ==> !chunks[k].error.Truthy()
    ensures forall k: nat :: LastFault(chunks, k) ==> LastError(chunks) == chunks[k].error
    ensures LastError(chunks).Truthy() <==> LastError(chunks) != Null
  {
    if chunks != [] {
      var front := chunks[..|chunks| - 1];
      LastErrorMeans(front);
      assert forall k :: 0 <= k < |front| ==> front[k] == chunks[k];
      forall k: nat | LastFault(chunks, k) ensures LastError(chunks) == chunks[k].error {
        if k < |front| { assert LastFault(front, k) && !chunks[|front|].error.Truthy(); }
      }
    }
  }

  /** A stream with an error parses to the last one, whatever else it carries; one without chunks to nothing; and any
      other to the fold of its chunks. */
  lemma ParseExactly(chunks: seq<Chunk>, k: nat)
    ensures LastFault(chunks, k) ==> Parse(chunks) == ErrorChunk(chunks[k].error)
    ensures (forall m :: 0 <= m < |chunks| ==> !chunks[m].error.Truthy()) ==>
              Parse(chunks) == if chunks == [] then NoChunks else Completion(FoldAll(EMPTY_FOLD, chunks))
  {
    LastErrorMeans(chunks);
  }

  /** The last finish reason a chunk gives. */
  function LastFinish(chunks: seq<Chunk>, default: Raw): Raw {
    if chunks == [] then default
    else
      var c := chunks[|chunks| - 1].choice;
      if c.Some? && c.value.finish.Truthy() then c.value.finish else LastFinish(chunks[..|chunks| - 1], default)
  }

  lemma {:induction false} LastFinishNext(c: Chunk, chunks: seq<Chunk>, default: Raw)
    ensures LastFinish([c] + chunks, default)
         == LastFinish(chunks, if c.choice.Some? && c.choice.value.finish.Truthy() then c.choice.value.finish
                               else default)
    decreases |chunks|
  {
    if chunks == [] {
      assert [c] + chunks == [c] && [c][..0] == [];
    } else {
      var n := |chunks| - 1;
      assert ([c] + chunks)[..n + 1] == [c] + chunks[..n];
      LastFinishNext(c, chunks[..n], default);
    }
  }

  lemma {:induction false} FinishFolds(f: Fold, chunks: seq<Chunk>)
    ensures FoldAll(f, chunks).finish == LastFinish(chunks, f.finish)
    decreases |chunks|
  {
    if chunks != [] {
      FinishFolds(FoldChunk(f, chunks[0]), chunks[1..]);
      LastFinishNext(chunks[0], chunks[1..], f.finish);
      assert [chunks[0]] + chunks[1..] == chunks;
    }
  }

  /** The completion's finish reason is the last one given, "stop" without any. */
  lemma FinishIsLast(chunks: seq<Chunk>)
    ensures FoldAll(EMPTY_FOLD, chunks).finish == LastFinish(chunks, Str("stop"))
  {
    FinishFolds(EMPTY_FOLD, chunks);
  }

  lemma {:induction false} CallOutputsAt(env: Env, calls: map<int, FoldCall>, idxs: seq<int>, k: nat)
    requires (forall n :: 0 <= n < |idxs| ==> idxs[n] in calls) && k < |idxs|
    ensures |CallOutputs(env, calls, idxs)| == |idxs|
    ensures CallOutputs(env, calls, idxs)[k] == CallOutput(env, calls[idxs[k]])
    decreases |idxs|
  {
    if k > 0 {
      CallOutputsAt(env, calls, idxs[1..], k - 1);
    } else if |idxs| > 1 {
      CallOutputsAt(env, calls, idxs[1..], 0);
    }
  }

  /** How a call reads in the output: under the id that its kind and its call's id give it. */
  lemma CallReads(env: Env, c: FoldCall)
    ensures var (custom, id) := (c.name in env.customNames, if c.id.Truthy() then c.id.JsString() else "");
            CallOutput(env, c)
            == OutCall((if custom then "ctc_" else "fc_") + id, custom, if c.id.Truthy() then c.id else Str(""), c.name,
                       if !custom then c.args else match env.unwrap(c.args) case Some(s) => s case None => c.args)
  {
  }

  lemma BehindHead(head: seq<OutputItem>, calls: seq<OutputItem>, k: nat)
    requires k < |calls|
    ensures (head + calls)[|head| + k] == calls[k]
  {
  }

  /** The output, item by item: the reasoning if there is any, the message if it has text, and then the calls in slot
      order. */
  lemma OutputExactly(env: Env, f: Fold, k: nat, head: seq<OutputItem>)
    requires k < |Slots(f)|
    requires head == (if f.reasoning != "" then [OutReasoning(f.reasoning)] else [])
                     + (if f.content != "" then [OutMessage(f.content)] else [])
    ensures |ToResponses(env, f)| == |head| + |Slots(f)| && head <= ToResponses(env, f)
    ensures ToResponses(env, f)[|head| + k] == CallOutput(env, f.calls[Slots(f)[k]])
  {
    var calls := CallOutputs(env, f.calls, Slots(f));
    CallOutputsAt(env, f.calls, Slots(f), k);
    BehindHead(head, calls, k);
    assert ToResponses(env, f) == head + calls;
  }
}
