/**
 The calls a folding client is given, for any chunks at all, read off the
 fragments: which slots there are, and the id, the name and the arguments of each.
 */
module FoldedCalls {
  import opened Basics
  import opened JsValues
  import opened ChatToResp
  import opened NonStream
  import opened Agreement

  /** The slot a fragment folds onto: its index if that is a number, or else 0. */
  function SlotOf(f: ToolCall): int { if f.index.Num? then f.index.n else 0 }

  predicate SlotThere(fs: seq<ToolCall>, i: int) { exists k :: 0 <= k < |fs| && SlotOf(fs[k]) == i }

  /** The last id given to slot i, whatever its type. */
  function IdGiven(fs: seq<ToolCall>, i: int): Raw {
    if fs == [] then Str("")
    else
      var f := fs[|fs| - 1];
      if SlotOf(f) == i && f.id.Truthy() then f.id else IdGiven(fs[..|fs| - 1], i)
  }

  /** The pieces of its name, joined. */
  function NameGiven(fs: seq<ToolCall>, i: int): string {
    if fs == [] then ""
    else
      var f := fs[|fs| - 1];
      NameGiven(fs[..|fs| - 1], i) + (if SlotOf(f) == i && f.name.Truthy() then f.name.JsString() else "")
  }

  /** The pieces of its arguments, joined. */
  function ArgsGiven(fs: seq<ToolCall>, i: int): string {
    if fs == [] then ""
    else
      var f := fs[|fs| - 1];
      ArgsGiven(fs[..|fs| - 1], i) + (if SlotOf(f) == i && f.args.Truthy() then f.args.JsString() else "")
  }

  ghost predicate Holds(calls: map<int, FoldCall>, fs: seq<ToolCall>, i: int) {
    && (i in calls <==> SlotThere(fs, i))
    && (i in calls ==> calls[i] == FoldCall(IdGiven(fs, i), NameGiven(fs, i), ArgsGiven(fs, i)))
    && (i !in calls ==> IdGiven(fs, i) == Str("") && NameGiven(fs, i) == "" && ArgsGiven(fs, i) == "")
  }

  lemma ThereNext(fs: seq<ToolCall>, f: ToolCall, i: int)
    ensures SlotThere(fs + [f], i) <==> SlotThere(fs, i) || SlotOf(f) == i
  {
    var more := fs + [f];
    if SlotThere(fs, i) {
      var k :| 0 <= k < |fs| && SlotOf(fs[k]) == i;
      assert SlotOf(more[k]) == i;
    }
    if SlotOf(f) == i { assert SlotOf(more[|fs|]) == i; }
  }

  lemma GivenNext(fs: seq<ToolCall>, f: ToolCall, i: int)
    ensures IdGiven(fs + [f], i) == if SlotOf(f) == i && f.id.Truthy() then f.id else IdGiven(fs, i)
    ensures NameGiven(fs + [f], i)
         == NameGiven(fs, i) + (if SlotOf(f) == i && f.name.Truthy() then f.name.JsString() else "")
    ensures ArgsGiven(fs + [f], i)
         == ArgsGiven(fs, i) + (if SlotOf(f) == i && f.args.Truthy() then f.args.JsString() else "")
  {
    assert (fs + [f])[..|fs|] == fs;
  }

  lemma OneHolds(calls: map<int, FoldCall>, fs: seq<ToolCall>, f: ToolCall, i: int)
    requires Holds(calls, fs, i)
    ensures Holds(FoldOne(calls, f), fs + [f], i)
  {
    ThereNext(fs, f, i);
    GivenNext(fs, f, i);
    assert NameGiven(fs, i) + "" == NameGiven(fs, i) && ArgsGiven(fs, i) + "" == ArgsGiven(fs, i);
    assert FoldSlot(f) == SlotOf(f);
  }

  lemma {:induction false} FragmentsHold(calls: map<int, FoldCall>, done: seq<ToolCall>, fs: seq<ToolCall>,
                                         all: seq<ToolCall>, i: int)
    requires Holds(calls, done, i) && done + fs == all
    ensures Holds(FoldFragments(calls, fs), all, i)
    decreases |fs|
  {
    if fs == [] {
      assert all == done;
    } else {
      var next := FoldOne(calls, fs[0]);
      OneHolds(calls, done, fs[0], i);
      assert (done + [fs[0]]) + fs[1..] == all;
      FragmentsHold(next, done + [fs[0]], fs[1..], all, i);
    }
  }

  /** For any chunks and any slot: the fold has a call there exactly when some fragment is for it, with the last id
      given, the joined pieces of its name and the joined pieces of its arguments. */
  lemma FoldedExactly(chunks: seq<Chunk>, i: int)
    ensures var (calls, fs) := (FoldAll(EMPTY_FOLD, chunks).calls, Fragments(chunks));
            && (i in calls <==> SlotThere(fs, i))
            && (i in calls ==> calls[i] == FoldCall(IdGiven(fs, i), NameGiven(fs, i), ArgsGiven(fs, i)))
  {
    FoldJoins(EMPTY_FOLD, chunks);
    assert [] + Fragments(chunks) == Fragments(chunks);
    FragmentsHold(map[], [], Fragments(chunks), Fragments(chunks), i);
  }
}
