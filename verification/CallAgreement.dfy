/**
 The tool calls that the streaming and the folding client of one calm stream are
 shown: the two lists slot by slot, and exactly when they are the same.
 */
module CallAgreement {
  import opened Basics
  import opened JsValues
  import opened ChatToResp
  import opened NonStream
  import opened Agreement

  /** What the fold says of slot i. */
  function FoldView(env: Env, fs: seq<ToolCall>, i: int): CallView {
    var (name, args) := (JoinedNames(fs, i), JoinedArgs(fs, i));
    CallView(LastId(fs, i), name in env.customNames, name,
             if name in env.customNames then FoldInput(env, args) else args)
  }

  /** A plain call whose empty arguments read "{}", as the stream writes them. */
  function PlainBraced(v: CallView): CallView { if v.custom then v else v.(args := Braced(v.args)) }

  function BracePlain(vs: seq<CallView>): (r: seq<CallView>)
    ensures |r| == |vs|
  {
    seq(|vs|, k requires 0 <= k < |vs| => PlainBraced(vs[k]))
  }

  /** The fold's view, with braces for empty plain arguments or as it is. */
  function FoldSaid(env: Env, fs: seq<ToolCall>, i: int, brace: bool): CallView {
    if brace then PlainBraced(FoldView(env, fs, i)) else FoldView(env, fs, i)
  }

  // ---------------------------------------------------------------- the condition

  /** How many fragments name slot i. */
  function NameCount(fs: seq<ToolCall>, i: int): nat {
    if fs == [] then 0
    else
      var f := fs[|fs| - 1];
      NameCount(fs[..|fs| - 1], i) + (if CallSlot(f) == i && f.name.AsStr() != "" then 1 else 0)
  }

  lemma {:induction false} UnnamedIsEmpty(fs: seq<ToolCall>, i: int)
    ensures NameCount(fs, i) == 0 <==> JoinedNames(fs, i) == ""
    ensures NameCount(fs, i) == 0 ==> LastName(fs, i) == ""
  {
    if fs != [] { UnnamedIsEmpty(fs[..|fs| - 1], i); }
  }

  /** The joined names are the last one exactly when the name came in at most one piece. */
  lemma {:induction false} NamedInOnePiece(fs: seq<ToolCall>, i: int)
    ensures JoinedNames(fs, i) == LastName(fs, i) <==> NameCount(fs, i) <= 1
  {
    if fs != [] {
      var (front, f) := (fs[..|fs| - 1], fs[|fs| - 1]);
      NamedInOnePiece(front, i);
      UnnamedIsEmpty(front, i);
      if CallSlot(f) == i && f.name.AsStr() != "" {
        LongerThanItsEnd(JoinedNames(front, i), f.name.AsStr());
      } else {
        assert JoinedNames(front, i) + "" == JoinedNames(front, i);
      }
    }
  }

  lemma LongerThanItsEnd(a: string, b: string)
    ensures a + b == b <==> a == ""
  {
    assert |a + b| == |a| + |b|;
    assert "" + b == b;
  }

  /** Every call has an id, and its name in at most one piece. */
  ghost predicate Identified(fs: seq<ToolCall>) {
    forall i: int :: Mentions(fs, i) ==> LastId(fs, i) != "" && NameCount(fs, i) <= 1
  }

  /** Unwrapping the arguments of slot i gives the same input on both sides, when its tool is custom; otherwise the
      arguments are not empty or the braces are overlooked. */
  predicate SamePayload(env: Env, fs: seq<ToolCall>, i: int, brace: bool) {
    var args := JoinedArgs(fs, i);
    if LastName(fs, i) in env.customNames then StreamInput(env, Braced(args)) == FoldInput(env, args)
    else brace || args != ""
  }

  ghost predicate SamePayloads(env: Env, fs: seq<ToolCall>, brace: bool) {
    forall i: int :: Mentions(fs, i) ==> SamePayload(env, fs, i, brace)
  }

  /** Slot by slot the condition says exactly that both sides say the same. */
  lemma SameSaid(env: Env, fs: seq<ToolCall>, i: int, brace: bool)
    requires "" !in env.customNames
    ensures StreamView(env, fs, i) == FoldSaid(env, fs, i, brace)
       <==> NameCount(fs, i) <= 1 && SamePayload(env, fs, i, brace)
  {
    NamedInOnePiece(fs, i);
  }

  // ---------------------------------------------------------------- the two lists

  ghost predicate ListsStream(env: Env, fs: seq<ToolCall>, vs: seq<CallView>, idxs: seq<int>) {
    |vs| == |idxs| && forall k :: 0 <= k < |idxs| ==> vs[k] == StreamView(env, fs, idxs[k])
  }

  ghost predicate ListsFold(env: Env, fs: seq<ToolCall>, ws: seq<CallView>, idxs: seq<int>, brace: bool) {
    |ws| == |idxs| && forall k :: 0 <= k < |idxs| ==> ws[k] == FoldSaid(env, fs, idxs[k], brace)
  }

  lemma FoldViewAt(env: Env, c: FoldCall, fs: seq<ToolCall>, i: int)
    requires c == Joined(fs, i)
    ensures ItemView(CallOutput(env, c)) == DoneCall(FoldView(env, fs, i))
  {
  }

  lemma StreamCalls(env: Env, c: Calls, fs: seq<ToolCall>, idxs: seq<int>)
    requires CallsTrack(c, fs)
    ensures ListsStream(env, fs, CallsIn(CallDones(env, c, idxs)), idxs)
  {
    CallDonesAt(env, c, idxs);
    OnlyCallsProjects(CallDones(env, c, idxs));
    forall k | 0 <= k < |idxs| ensures CallsIn(CallDones(env, c, idxs))[k] == StreamView(env, fs, idxs[k]) {
      StreamViewAt(env, c, fs, idxs[k]);
    }
  }

  lemma FoldCalls(env: Env, calls: map<int, FoldCall>, fs: seq<ToolCall>, idxs: seq<int>)
    requires FoldTracks(calls, fs) && forall k :: 0 <= k < |idxs| ==> idxs[k] in calls
    ensures ListsFold(env, fs, CallsIn(Views(CallOutputs(env, calls, idxs))), idxs, false)
  {
    CallOutputViews(env, calls, idxs);
    var ds := Views(CallOutputs(env, calls, idxs));
    OnlyCallsProjects(ds);
    forall k | 0 <= k < |idxs| ensures CallsIn(ds)[k] == FoldView(env, fs, idxs[k]) {
      assert calls[idxs[k]] == Joined(fs, idxs[k]);
      FoldViewAt(env, calls[idxs[k]], fs, idxs[k]);
    }
  }

  lemma BracedList(env: Env, fs: seq<ToolCall>, ws: seq<CallView>, idxs: seq<int>)
    requires ListsFold(env, fs, ws, idxs, false)
    ensures ListsFold(env, fs, BracePlain(ws), idxs, true)
  {
  }

  /** The slots the stream closes: those with an id. */
  ghost predicate StreamSlots(fs: seq<ToolCall>, idxs: seq<int>) {
    forall i: int :: i in idxs <==> LastId(fs, i) != ""
  }

  ghost predicate FoldSlots(fs: seq<ToolCall>, idxs: seq<int>) {
    forall i: int :: i in idxs <==> Mentions(fs, i)
  }

  lemma TracksStreamSlots(c: Calls, fs: seq<ToolCall>)
    requires CallsTrack(c, fs)
    ensures StreamSlots(fs, SortedKeys(c.ids.Keys))
  {
    forall i: int ensures i in SortedKeys(c.ids.Keys) <==> LastId(fs, i) != "" {
      assert GetS(c.ids, i) == LastId(fs, i);
    }
  }

  lemma EqualListsIdentify(env: Env, fs: seq<ToolCall>, vs: seq<CallView>, a: seq<int>, b: seq<int>, brace: bool)
    requires ListsStream(env, fs, vs, a) && ListsFold(env, fs, vs, b, brace)
    requires StreamSlots(fs, a) && FoldSlots(fs, b)
    ensures forall i: int :: Mentions(fs, i) ==> LastId(fs, i) != ""
  {
    forall i: int | Mentions(fs, i) ensures LastId(fs, i) != "" {
      assert i in b;
      var k :| 0 <= k < |b| && b[k] == i;
      assert vs[k].callId == LastId(fs, i);
      assert a[k] in a;
    }
  }

  lemma EqualListsSay(env: Env, fs: seq<ToolCall>, vs: seq<CallView>, idxs: seq<int>, brace: bool)
    requires "" !in env.customNames && FoldSlots(fs, idxs)
    requires ListsStream(env, fs, vs, idxs) && ListsFold(env, fs, vs, idxs, brace)
    ensures forall i: int :: Mentions(fs, i) ==> NameCount(fs, i) <= 1 && SamePayload(env, fs, i, brace)
  {
    forall i: int | Mentions(fs, i) ensures NameCount(fs, i) <= 1 && SamePayload(env, fs, i, brace) {
      assert i in idxs;
      var k :| 0 <= k < |idxs| && idxs[k] == i;
      assert vs[k] == StreamView(env, fs, i) == FoldSaid(env, fs, i, brace);
      SameSaid(env, fs, i, brace);
    }
  }

  lemma SlotsCoincide(fs: seq<ToolCall>, a: set<int>, b: set<int>)
    requires StreamSlots(fs, SortedKeys(a)) && FoldSlots(fs, SortedKeys(b))
    requires forall i: int :: Mentions(fs, i) ==> LastId(fs, i) != ""
    ensures a == b
  {
    forall i: int ensures i in a <==> i in b {
      assert i in SortedKeys(a) <==> i in a;
      assert i in SortedKeys(b) <==> i in b;
      if !Mentions(fs, i) { UnmentionedIsEmpty(fs, i); }
    }
  }

  lemma SayingTheSame(env: Env, fs: seq<ToolCall>, vs: seq<CallView>, ws: seq<CallView>, idxs: seq<int>, brace: bool)
    requires "" !in env.customNames
    requires ListsStream(env, fs, vs, idxs) && ListsFold(env, fs, ws, idxs, brace)
    requires FoldSlots(fs, idxs) && Identified(fs) && SamePayloads(env, fs, brace)
    ensures vs == ws
  {
    forall k | 0 <= k < |idxs| ensures vs[k] == ws[k] {
      assert idxs[k] in idxs;
      assert Mentions(fs, idxs[k]);
      SameSaid(env, fs, idxs[k], brace);
    }
  }

  lemma EqualExactlyWhenSame(env: Env, fs: seq<ToolCall>, vs: seq<CallView>, ws: seq<CallView>,
                             a: set<int>, b: set<int>, brace: bool)
    requires "" !in env.customNames
    requires StreamSlots(fs, SortedKeys(a)) && FoldSlots(fs, SortedKeys(b))
    requires ListsStream(env, fs, vs, SortedKeys(a)) && ListsFold(env, fs, ws, SortedKeys(b), brace)
    ensures vs == ws <==> Identified(fs) && SamePayloads(env, fs, brace)
  {
    if vs == ws {
      EqualListsIdentify(env, fs, vs, SortedKeys(a), SortedKeys(b), brace);
      SlotsCoincide(fs, a, b);
      EqualListsSay(env, fs, vs, SortedKeys(b), brace);
    }
    if Identified(fs) && SamePayloads(env, fs, brace) {
      SlotsCoincide(fs, a, b);
      SayingTheSame(env, fs, vs, ws, SortedKeys(b), brace);
    }
  }

  lemma StreamList(env: Env, responseId: string, chunks: seq<Chunk>) returns (a: set<int>)
    requires Calm(env, chunks, false)
    ensures StreamSlots(Fragments(chunks), SortedKeys(a))
    ensures ListsStream(env, Fragments(chunks), CallsIn(Streamed(env, responseId, chunks)), SortedKeys(a))
  {
    var c := StreamSide(env, responseId, chunks);
    a := c.ids.Keys;
    TracksStreamSlots(c, Fragments(chunks));
    StreamCalls(env, c, Fragments(chunks), SortedKeys(a));
  }

  lemma FoldedTracks(env: Env, chunks: seq<Chunk>)
    requires CalmCalls(env, Fragments(chunks))
    ensures FoldTracks(FoldAll(EMPTY_FOLD, chunks).calls, Fragments(chunks))
  {
    FoldedParts(chunks);
    FoldFragmentsTrack(env, map[], [], Fragments(chunks));
    assert [] + Fragments(chunks) == Fragments(chunks);
  }

  lemma FoldListOf(env: Env, f: Fold, fs: seq<ToolCall>)
    requires FoldTracks(f.calls, fs)
    ensures FoldSlots(fs, SortedKeys(f.calls.Keys))
    ensures ListsFold(env, fs, CallsIn(Views(ToResponses(env, f))), SortedKeys(f.calls.Keys), false)
  {
    ItemsProject(env, f);
    assert Slots(f) == SortedKeys(f.calls.Keys);
    FoldCalls(env, f.calls, fs, Slots(f));
  }

  lemma FoldList(env: Env, chunks: seq<Chunk>) returns (b: set<int>)
    requires CalmCalls(env, Fragments(chunks))
    ensures FoldSlots(Fragments(chunks), SortedKeys(b))
    ensures ListsFold(env, Fragments(chunks), CallsIn(Folded(env, chunks)), SortedKeys(b), false)
  {
    FoldedTracks(env, chunks);
    FoldListOf(env, FoldAll(EMPTY_FOLD, chunks), Fragments(chunks));
    b := FoldAll(EMPTY_FOLD, chunks).calls.Keys;
  }

  // ---------------------------------------------------------------- agreement

  /** The two clients of a calm stream are shown the same calls, in the same order, but for "{}" in place of empty
      plain arguments, exactly when every call was given an id and its name in at most one piece, and the two
      packages unwrap the arguments of every custom call alike. */
  lemma CallsAgree(env: Env, responseId: string, chunks: seq<Chunk>)
    requires Calm(env, chunks, false) && CalmCalls(env, Fragments(chunks)) && "" !in env.customNames
    ensures CallsIn(Streamed(env, responseId, chunks)) == BracePlain(CallsIn(Folded(env, chunks)))
       <==> Identified(Fragments(chunks)) && SamePayloads(env, Fragments(chunks), true)
  {
    var a := StreamList(env, responseId, chunks);
    var b := FoldList(env, chunks);
    var (fs, vs, ws) := (Fragments(chunks), CallsIn(Streamed(env, responseId, chunks)), CallsIn(Folded(env, chunks)));
    BracedList(env, fs, ws, SortedKeys(b));
    EqualExactlyWhenSame(env, fs, vs, BracePlain(ws), a, b, true);
  }

  /** They are shown the very same lists exactly when, besides, every plain call has arguments. */
  lemma CallsAgreeVerbatim(env: Env, responseId: string, chunks: seq<Chunk>)
    requires Calm(env, chunks, false) && CalmCalls(env, Fragments(chunks)) && "" !in env.customNames
    ensures CallsIn(Streamed(env, responseId, chunks)) == CallsIn(Folded(env, chunks))
       <==> Identified(Fragments(chunks)) && SamePayloads(env, Fragments(chunks), false)
  {
    var a := StreamList(env, responseId, chunks);
    var b := FoldList(env, chunks);
    EqualExactlyWhenSame(env, Fragments(chunks), CallsIn(Streamed(env, responseId, chunks)),
                         CallsIn(Folded(env, chunks)), a, b, false);
  }

  // ---------------------------------------------------------------- where they differ

  function CallChunk(calls: seq<ToolCall>, finish: Raw): Chunk {
    Chunk(Null, Some(Choice(Null, Delta(Null, Null, None, Null, Some(Present(calls))), finish)), Null)
  }

  function Present(calls: seq<ToolCall>): seq<Option<ToolCall>> {
    if calls == [] then [] else [Some(calls[0])] + Present(calls[1..])
  }

  lemma {:induction false} PresentFragments(calls: seq<ToolCall>)
    ensures FragmentsOf(Present(calls)) == calls
    decreases |calls|
  {
    if calls != [] {
      PresentFragments(calls[1..]);
      assert Present(calls)[1..] == Present(calls[1..]);
    }
  }

  lemma CallChunkIsCalm(env: Env, calls: seq<ToolCall>, finish: Raw)
    ensures Calm(env, [CallChunk(calls, finish)], false) && Fragments([CallChunk(calls, finish)]) == calls
  {
    var chunks := [CallChunk(calls, finish)];
    assert chunks[1..] == [];
    assert Find("", OPEN_TAG).None? && Find("", CLOSE_TAG).None?;
    PresentFragments(calls);
    assert calls + [] == calls;
  }

  const GET := ToolCall(Num(0), Str("call_1"), Str("get_"), Null)
  const WEATHER := ToolCall(Num(0), Null, Str("weather"), Null)

  lemma SplitNameReads()
    ensures LastName([GET, WEATHER], 0) == "weather" && JoinedNames([GET, WEATHER], 0) == "get_weather"
    ensures NameCount([GET, WEATHER], 0) == 2 && Mentions([GET, WEATHER], 0)
  {
    var fs := [GET, WEATHER];
    assert fs[..1] == [GET] && [GET][..0] == [];
    assert JoinedNames([GET], 0) == "" + "get_" == "get_";
    assert NameCount([GET], 0) == 1;
    assert CallSlot(fs[0]) == 0;
  }

  /** A name in two pieces: the stream keeps the last, the fold joins them, so the lists differ. */
  lemma SplitNameDiffers(env: Env, responseId: string)
    requires "" !in env.customNames
    ensures var chunks := [CallChunk([GET, WEATHER], Str("tool_calls"))];
            && Calm(env, chunks, false) && CalmCalls(env, Fragments(chunks)) && Fragments(chunks) == [GET, WEATHER]
            && CallsIn(Streamed(env, responseId, chunks)) != BracePlain(CallsIn(Folded(env, chunks)))
  {
    CallChunkIsCalm(env, [GET, WEATHER], Str("tool_calls"));
    SplitNameReads();
    CallsAgree(env, responseId, [CallChunk([GET, WEATHER], Str("tool_calls"))]);
  }

  /** A call without id: the fold shows it, the stream does not. */
  lemma UnidentifiedCallDiffers(env: Env, responseId: string)
    requires "" !in env.customNames
    ensures var calls := [ToolCall(Num(0), Null, Str("get_weather"), Str("{}"))];
            var chunks := [CallChunk(calls, Str("tool_calls"))];
            && Calm(env, chunks, false) && CalmCalls(env, Fragments(chunks))
            && CallsIn(Streamed(env, responseId, chunks)) != BracePlain(CallsIn(Folded(env, chunks)))
  {
    var f := ToolCall(Num(0), Null, Str("get_weather"), Str("{}"));
    CallChunkIsCalm(env, [f], Str("tool_calls"));
    assert [f][..0] == [];
    assert LastId([f], 0) == "";
    assert CallSlot([f][0]) == 0;
    assert Mentions([f], 0);
    CallsAgree(env, responseId, [CallChunk([f], Str("tool_calls"))]);
  }

  /** White space that JSON does not allow before a text: the stream trims it and unwraps, the fold does not. */
  lemma PaddedInputs(env: Env, text: string, input: string)
    requires text != "" && !IsSpace(text[0]) && !IsSpace(text[|text| - 1])
    requires env.unwrap(text) == Some(input) && env.unwrap(NBSP + text) == None
    ensures StreamInput(env, NBSP + text) == input && FoldInput(env, NBSP + text) == NBSP + text
  {
    assert (NBSP + text)[1..] == text;
    assert TrimLeft(NBSP + text) == TrimLeft(text) == text;
  }

  const NBSP := "\U{00A0}"

  lemma OneCallReads(f: ToolCall)
    requires CallSlot(f) == 0 && f.args.Str? && f.args.s != "" && f.name.AsStr() != ""
    ensures LastName([f], 0) == f.name.AsStr() && JoinedArgs([f], 0) == f.args.s && Mentions([f], 0)
  {
    assert [f][..0] == [] && "" + f.args.s == f.args.s;
    assert CallSlot([f][0]) == 0;
  }

  /** So one identified call of a custom tool, with a no-break space before its arguments, differs on the two sides:
      the stream shows its input and the fold the whole text. */
  lemma WhiteSpaceDiffers(env: Env, responseId: string, tool: string, text: string, input: string)
    requires "" !in env.customNames && tool in env.customNames
    requires text != "" && !IsSpace(text[0]) && !IsSpace(text[|text| - 1])
    requires env.unwrap(text) == Some(input) && env.unwrap(NBSP + text) == None && input != NBSP + text
    ensures var calls := [ToolCall(Num(0), Str("call_1"), Str(tool), Str(NBSP + text))];
            var chunks := [CallChunk(calls, Str("tool_calls"))];
            && Calm(env, chunks, false) && CalmCalls(env, Fragments(chunks)) && Fragments(chunks) == calls
            && Identified(calls)
            && CallsIn(Streamed(env, responseId, chunks)) != BracePlain(CallsIn(Folded(env, chunks)))
  {
    var f := ToolCall(Num(0), Str("call_1"), Str(tool), Str(NBSP + text));
    CallChunkIsCalm(env, [f], Str("tool_calls"));
    PaddedInputs(env, text, input);
    OneCallReads(f);
    CallsAgree(env, responseId, [CallChunk([f], Str("tool_calls"))]);
  }
}
