/**
 Announced calls and the pieces of their arguments in a stream, whatever the
 chunks: which fragment makes each of them go out, and under whose id and name.
 */
module CallPieces {
  import opened Basics
  import opened JsValues
  import opened ChatToResp
  import opened StepEffects
  import opened Agreement
  import opened CallArguments
  import opened LostTexts
  import opened ChatReference

  /** Announces a call, or carries some of its arguments. */
  predicate IsCallPiece(b: Body) { b.ArgsDelta? || (b.ItemAdded? && b.item.CallItem?) }

  /** A call piece as the last of the fragments fs makes it: of the slot of that fragment, under the last id and the
      last name that fs gives the slot, custom exactly when the request declared the name so. */
  predicate RightPiece(env: Env, fs: seq<ToolCall>, b: Body)
    requires fs != []
  {
    var f := fs[|fs| - 1];
    var (id, name, place) := (LastId(fs, CallSlot(f)), LastName(fs, CallSlot(f)),
                              if f.index == Null then Num(0) else f.index);
    && id != "" && name != ""
    && match b
       case ItemAdded(raw, CallItem(itemId, custom, callId, called, payload)) =>
         && raw == place && callId == id && called == name && payload == ""
         && (custom <==> name in env.customNames) && itemId == (if custom then "ctc_" else "fc_") + id
       case ArgsDelta(itemId, raw, args) =>
         && raw == place && itemId == "fc_" + id && args == f.args && name !in env.customNames
       case _ => false
  }

  /** Fragment m of all, taken in after the ones before it, makes this call piece. */
  ghost predicate MadeBy(env: Env, all: seq<ToolCall>, m: nat, b: Body) {
    m < |all| && RightPiece(env, all[..m + 1], b)
  }

  /** Every call piece among these is made by some fragment of all. */
  ghost predicate Justified(env: Env, all: seq<ToolCall>, bs: seq<Body>) {
    forall b :: b in bs && IsCallPiece(b) ==> exists m: nat :: MadeBy(env, all, m, b)
  }

  lemma JustifiedJoin(env: Env, all: seq<ToolCall>, a: seq<Body>, b: seq<Body>)
    requires Justified(env, all, a) && Justified(env, all, b)
    ensures Justified(env, all, a + b)
  {
  }

  lemma JustifiedFour(env: Env, all: seq<ToolCall>, a: seq<Body>, b: seq<Body>, c: seq<Body>, d: seq<Body>)
    requires Justified(env, all, a) && Justified(env, all, b) && Justified(env, all, c) && Justified(env, all, d)
    ensures Justified(env, all, a + b + c + d) && Justified(env, all, a + b + (c + d))
  {
    JustifiedJoin(env, all, a, b);
    JustifiedJoin(env, all, a + b, c);
    JustifiedJoin(env, all, a + b + c, d);
    JustifiedJoin(env, all, c, d);
    JustifiedJoin(env, all, a + b, c + d);
  }

  lemma NoPieces(env: Env, all: seq<ToolCall>, bs: seq<Body>)
    requires forall k :: 0 <= k < |bs| ==> !IsCallPiece(bs[k])
    ensures Justified(env, all, bs)
  {
  }

  lemma JustifiedLater(env: Env, few: seq<ToolCall>, all: seq<ToolCall>, bs: seq<Body>)
    requires few <= all && Justified(env, few, bs)
    ensures Justified(env, all, bs)
  {
    forall b | b in bs && IsCallPiece(b) ensures exists m: nat :: MadeBy(env, all, m, b) {
      var m: nat :| MadeBy(env, few, m, b);
      assert all[..m + 1] == few[..m + 1];
      assert MadeBy(env, all, m, b);
    }
  }

  lemma FragmentJustified(env: Env, fs: seq<ToolCall>, f: ToolCall, all: seq<ToolCall>)
    requires fs + [f] <= all
    ensures Justified(env, all, SayFragment(env, fs, f))
  {
    var (i, m) := (CallSlot(f), |fs|);
    var (id, name, place) := (LastId(fs + [f], i), LastName(fs + [f], i), if f.index == Null then Num(0) else f.index);
    var custom := CustomTool(env, name);
    var (a, b) := (ItemAdded(place, CallItem((if custom then "ctc_" else "fc_") + id, custom, id, name, "")),
                   ArgsDelta("fc_" + id, place, f.args));
    assert all[..m + 1] == fs + [f];
    if id != "" && name != "" {
      assert MadeBy(env, all, m, a);
      if !custom { assert MadeBy(env, all, m, b); }
    }
    forall x | x in SayFragment(env, fs, f) ensures exists n: nat :: MadeBy(env, all, n, x) {
      assert x == a || x == b;
      assert MadeBy(env, all, m, x);
    }
  }

  lemma {:induction false} FragmentsJustified(env: Env, fs: seq<ToolCall>, gs: seq<ToolCall>, all: seq<ToolCall>)
    requires fs + gs == all
    ensures Justified(env, all, SayFragments(env, fs, gs))
    decreases |gs|
  {
    if gs != [] {
      var more := fs + [gs[0]];
      assert more + gs[1..] == all;
      FragmentsJustified(env, more, gs[1..], all);
      FragmentJustified(env, fs, gs[0], all);
      JustifiedJoin(env, all, SayFragment(env, fs, gs[0]), SayFragments(env, more, gs[1..]));
    }
  }

  lemma ReasonPieces(env: Env, all: seq<ToolCall>, n: Named, opens: bool, text: string)
    ensures Justified(env, all, (if opens then OpenReason(n) else []) + SayReason(n, text))
    ensures Justified(env, all, if opens then OpenReason(n) else []) && Justified(env, all, SayReason(n, text))
  {
    NoPieces(env, all, if opens then OpenReason(n) else []);
    NoPieces(env, all, SayReason(n, text));
    JustifiedJoin(env, all, if opens then OpenReason(n) else [], SayReason(n, text));
  }

  lemma RestPieces(env: Env, all: seq<ToolCall>, n: Named, text: string, closes: bool, whole: string, id: string,
                   place: Raw, first: bool, said: string)
    ensures Justified(env, all, SayReason(n, text) + (if closes then EndReason(n, whole) else [])
                                + SayText(id, place, first, said))
  {
    NoPieces(env, all, SayReason(n, text));
    NoPieces(env, all, if closes then EndReason(n, whole) else []);
    NoPieces(env, all, SayText(id, place, first, said));
    JustifiedJoin(env, all, SayReason(n, text), if closes then EndReason(n, whole) else []);
    JustifiedJoin(env, all, SayReason(n, text) + (if closes then EndReason(n, whole) else []),
                  SayText(id, place, first, said));
  }

  /** The parts of a chunk's speech. */
  lemma SpeechPartsJustified(env: Env, frame: seq<Body>, name: Named, opens: bool, own: string, tagged: bool,
                             rest: seq<Body>, all: seq<ToolCall>)
    requires Justified(env, all, frame) && Justified(env, all, rest)
    ensures Justified(env, all, frame + ((if opens then OpenReason(name) else []) + SayReason(name, own))
                                + ((if tagged then OpenReason(name) else []) + rest))
  {
    ReasonPieces(env, all, name, opens, own);
    ReasonPieces(env, all, name, tagged, "");
    JustifiedFour(env, all, frame, (if opens then OpenReason(name) else []) + SayReason(name, own),
                  if tagged then OpenReason(name) else [], rest);
  }

  lemma SpeechJustified(env: Env, given: string, front: seq<Chunk>, c: Chunk, all: seq<ToolCall>)
    requires c.choice.Some?
    ensures Justified(env, all, SaySpeech(env, given, front, c))
  {
    var (chunks, own, content) := (front + [c], ReasoningText(c.choice.value.delta), ChunkText(c));
    var (reason, text, _) := Split(Thinking(front), content);
    var (name, message) := (ReasonName(env, given, chunks), MessageName(env, given, chunks, IndexOf(c)));
    var (closes, first) := (ClosesTag(content) && OpenedBy(chunks) && ClosedReason(front).None?,
                            TextSent(front, IndexOf(c)) == "");
    var (frame, rest) := (SayStart(env, given, front, chunks),
                          SayReason(name, reason) + (if closes then EndReason(name, ReasonSent(chunks)) else [])
                          + SayText(message, PlaceOf(c), first, text));
    NoPieces(env, all, frame);
    RestPieces(env, all, name, reason, closes, ReasonSent(chunks), message, PlaceOf(c), first, text);
    SpeechPartsJustified(env, frame, name, !OpenedBy(front) && own != "", own,
                         !OpenedBy(front) && own == "" && Tagged(content), rest, all);
  }

  lemma {:induction false} MessageEndsJustified(env: Env, given: string, front: seq<Chunk>, chunks: seq<Chunk>,
                                                shut: Option<int>, idxs: seq<int>, all: seq<ToolCall>)
    ensures Justified(env, all, EndMessages(env, given, front, chunks, shut, idxs))
    decreases |idxs|
  {
    if idxs != [] {
      var head := if ClosedText(front, idxs[0]).None? && shut != Some(idxs[0])
                  then EndMessage(MessageName(env, given, chunks, idxs[0]), idxs[0], TextSent(chunks, idxs[0])) else [];
      NoPieces(env, all, head);
      MessageEndsJustified(env, given, front, chunks, shut, idxs[1..], all);
      JustifiedJoin(env, all, head, EndMessages(env, given, front, chunks, shut, idxs[1..]));
    }
  }

  lemma {:induction false} CallEndsJustified(env: Env, front: seq<Chunk>, fs: seq<ToolCall>, idxs: seq<int>,
                                             all: seq<ToolCall>)
    ensures Justified(env, all, EndCalls(env, front, fs, idxs))
    decreases |idxs|
  {
    if idxs != [] {
      NoPieces(env, all, EndCall(env, fs, idxs[0]));
      NoPieces(env, all, []);
      CallEndsJustified(env, front, fs, idxs[1..], all);
      JustifiedJoin(env, all, if Closed(front, idxs[0]).None? then EndCall(env, fs, idxs[0]) else [],
                    EndCalls(env, front, fs, idxs[1..]));
    }
  }

  lemma ClosesJustified(env: Env, given: string, front: seq<Chunk>, chunks: seq<Chunk>, shut: Option<int>,
                        messages: seq<int>, reason: seq<Body>, fs: seq<ToolCall>, slots: seq<int>, end: seq<Body>,
                        all: seq<ToolCall>)
    requires Justified(env, all, reason) && Justified(env, all, end)
    ensures Justified(env, all, EndMessages(env, given, front, chunks, shut, messages) + reason
                                + EndCalls(env, front, fs, slots) + end)
  {
    MessageEndsJustified(env, given, front, chunks, shut, messages, all);
    CallEndsJustified(env, front, fs, slots, all);
    JustifiedFour(env, all, EndMessages(env, given, front, chunks, shut, messages), reason,
                  EndCalls(env, front, fs, slots), end);
  }

  lemma FinishJustified(env: Env, given: string, front: seq<Chunk>, chunks: seq<Chunk>, shut: Option<int>, ended: bool,
                        all: seq<ToolCall>)
    ensures Justified(env, all, SayFinish(env, given, front, chunks, shut, ended))
  {
    var reason := if OpenedBy(chunks) && ClosedReason(front).None? && !ended
                  then EndReason(ReasonName(env, given, chunks), ReasonSent(chunks)) else [];
    var end := if AnyFinish(front) then [] else [Completed(ResponseName(env, given, chunks))];
    NoPieces(env, all, reason);
    NoPieces(env, all, end);
    ClosesJustified(env, given, front, chunks, shut, SortedKeys(MessagesOf(chunks)), reason, Taken(chunks),
                    SortedKeys(Identified(Taken(chunks))), end, all);
  }

  lemma CallsJustified(env: Env, given: string, front: seq<Chunk>, c: Chunk, all: seq<ToolCall>)
    requires all == Taken(front) + ChunkFragments(c)
    ensures Justified(env, all, SayCalls(env, given, front, c))
  {
    if BringsCalls(c) {
      var (chunks, i) := (front + [c], IndexOf(c));
      var a := if TextSent(chunks, i) != "" && ClosedText(front, i).None?
               then EndMessage(MessageName(env, given, chunks, i), i, TextSent(chunks, i)) else [];
      NoPieces(env, all, a);
      FragmentsJustified(env, Taken(front), ChunkFragments(c), all);
      JustifiedJoin(env, all, a, SayFragments(env, Taken(front), ChunkFragments(c)));
    }
  }

  lemma TailJustified(env: Env, given: string, front: seq<Chunk>, c: Chunk, all: seq<ToolCall>)
    requires c.choice.Some? && all == Taken(front) + ChunkFragments(c)
    ensures Justified(env, all, SayTail(env, given, front, c))
  {
    var shut := if BringsCalls(c) then Some(IndexOf(c)) else None;
    CallsJustified(env, given, front, c, all);
    FinishJustified(env, given, front, front + [c], shut, ClosesTag(ChunkText(c)), all);
    NoPieces(env, all, []);
    JustifiedJoin(env, all, SayCalls(env, given, front, c),
                  if c.choice.value.finish.Truthy()
                  then SayFinish(env, given, front, front + [c], shut, ClosesTag(ChunkText(c))) else []);
  }

  lemma ChunkJustified(env: Env, given: string, front: seq<Chunk>, c: Chunk)
    ensures Justified(env, Taken(front + [c]), Says(env, given, front, c))
  {
    var all := Taken(front + [c]);
    TakenSnoc(front, c);
    if c.choice.Some? {
      SpeechJustified(env, given, front, c, all);
      if EndsThinking(Thinking(front), ChunkText(c)) {
        assert SaySpeech(env, given, front, c) + [] == SaySpeech(env, given, front, c);
      } else {
        TailJustified(env, given, front, c, all);
        JustifiedJoin(env, all, SaySpeech(env, given, front, c), SayTail(env, given, front, c));
      }
    }
  }

  lemma ScriptGrows(env: Env, given: string, front: seq<Chunk>, c: Chunk, all: seq<ToolCall>)
    requires Taken(front + [c]) <= all && Justified(env, all, Script(env, given, front))
    ensures Justified(env, all, Script(env, given, front) + Says(env, given, front, c))
  {
    ChunkJustified(env, given, front, c);
    JustifiedLater(env, Taken(front + [c]), all, Says(env, given, front, c));
    JustifiedJoin(env, all, Script(env, given, front), Says(env, given, front, c));
  }

  lemma LastApart<T>(s: seq<T>)
    requires s != []
    ensures s == s[..|s| - 1] + [s[|s| - 1]]
  {
  }

  lemma TakenGrows(front: seq<Chunk>, c: Chunk)
    ensures Taken(front) <= Taken(front + [c])
  {
    TakenSnoc(front, c);
  }

  lemma {:induction false} ScriptJustified(env: Env, given: string, chunks: seq<Chunk>, all: seq<ToolCall>)
    requires Taken(chunks) <= all
    ensures Justified(env, all, Script(env, given, chunks))
  {
    if chunks != [] {
      var (front, last) := (chunks[..|chunks| - 1], chunks[|chunks| - 1]);
      LastApart(chunks);
      TakenGrows(front, last);
      ScriptJustified(env, given, front, all);
      ScriptGrows(env, given, front, last, all);
    }
  }

  lemma FullScriptJustified(env: Env, given: string, chunks: seq<Chunk>)
    ensures Justified(env, Taken(chunks), FullScript(env, given, chunks))
  {
    ScriptJustified(env, given, chunks, Taken(chunks));
    FinishJustified(env, given, chunks, chunks, None, false, Taken(chunks));
    NoPieces(env, Taken(chunks), []);
    JustifiedJoin(env, Taken(chunks), Script(env, given, chunks),
                  if AnyFinish(chunks) then [] else SayFinish(env, given, chunks, chunks, None, false));
  }

  /** Every announcement of a call in a stream and every piece of its arguments is made by one of the fragments taken
      in, under the last id and the last name that its slot was given by then, and says what that fragment brought. */
  lemma CallPiecesAreTheirs(env: Env, given: string, chunks: seq<Chunk>, p: nat)
    requires p < |Stream(env, given, chunks).log| && IsCallPiece(Stream(env, given, chunks).log[p].body)
    ensures exists m: nat :: MadeBy(env, Taken(chunks), m, Stream(env, given, chunks).log[p].body)
  {
    StreamIsScript(env, given, chunks);
    FullScriptJustified(env, given, chunks);
    assert Bodies(Stream(env, given, chunks).log)[p] in FullScript(env, given, chunks);
  }
}
