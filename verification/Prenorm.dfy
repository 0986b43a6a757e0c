/**
 The tool-call repair of internal/translate/prenorm.go: every tool call of a
 chat request gets a usable id, and a turn whose calls the next message does not
 answer gets empty answers.
 */
module Prenorm {
  import opened Basics
  import opened JsValues

  // ---------------------------------------------------------------- the request body

  datatype Function = Function(name: Raw, args: Raw)

  /** rest stands for the fields the repair never looks at. */
  datatype ToolCall = ToolCall(id: Raw, kind: Raw, function_: Option<Function>, rest: string)

  datatype Block = Block(kind: Raw, id: Raw, toolUseId: Raw, name: Raw, rest: string)

  datatype Content = Plain(value: Raw) | Blocks(blocks: seq<Option<Block>>)

  /** An element of messages; elements that are not objects are passed through. */
  datatype Message =
    | NotObject(value: Raw)
    | Message(role: Raw, toolCalls: Option<seq<Option<ToolCall>>>, toolCallId: Raw, content: Content, rest: string)

  predicate IsRole(m: Message, role: string) { m.Message? && m.role.AsStr() == role }

  // ---------------------------------------------------------------- ids

  predicate IdChar(c: char) {
    'a' <= c <= 'z' || 'A' <= c <= 'Z' || '0' <= c <= '9' || c == '_' || c == '-'
  }

  /** The pattern [a-zA-Z0-9_-]+ */
  predicate ValidId(s: string) {
    s != "" && forall i :: 0 <= i < |s| ==> IdChar(s[i])
  }

  function Cleaned(s: string): string {
    if s == "" then "" else (if IdChar(s[0]) then [s[0]] else []) + Cleaned(s[1..])
  }

  lemma {:induction false} CleanedIsValid(s: string)
    ensures Cleaned(s) != "" ==> ValidId(Cleaned(s))
    ensures ValidId(s) ==> Cleaned(s) == s
  {
    if s != "" {
      CleanedIsValid(s[1..]);
      assert s == [s[0]] + s[1..];
      assert forall i :: 0 <= i < |s| - 1 ==> s[1..][i] == s[i + 1];
      if s[1..] == "" { assert Cleaned(s[1..]) == ""; }
    }
  }

  function GenerateToolCallId(msgIndex: nat, tcIndex: nat, toolName: string): string {
    "call_msg" + Itoa(msgIndex) + "_tc" + Itoa(tcIndex)
    + (if Cleaned(toolName) != "" then "_" + Cleaned(toolName) else "")
  }

  lemma ValidJoin(a: string, b: string)
    requires ValidId(a) && (b == "" || ValidId(b))
    ensures ValidId(a + b)
  {
  }

  lemma DigitsAreValid(n: nat)
    ensures ValidId(Itoa(n))
  {
    DigitsRoundTrip(n);
    assert forall i :: 0 <= i < |Digits(n)| ==> IsDigit(Digits(n)[i]);
  }

  /** A generated id always fits the pattern, whatever the tool is called. */
  lemma GeneratedIdIsValid(i: nat, j: nat, name: string)
    ensures ValidId(GenerateToolCallId(i, j, name))
  {
    DigitsAreValid(i);
    DigitsAreValid(j);
    CleanedIsValid(name);
    ValidJoin("call_msg", Itoa(i));
    ValidJoin("call_msg" + Itoa(i), "_tc");
    ValidJoin("call_msg" + Itoa(i) + "_tc", Itoa(j));
    var head := "call_msg" + Itoa(i) + "_tc" + Itoa(j);
    if Cleaned(name) != "" {
      ValidJoin("_", Cleaned(name));
      ValidJoin(head, "_" + Cleaned(name));
    } else {
      assert head + "" == head;
    }
  }

  /** What replaces an id that does not fit: the id without its bad characters, or a generated one. */
  function Repaired(id: string, i: nat, j: nat, name: string): string {
    if Cleaned(id) != "" then Cleaned(id) else GenerateToolCallId(i, j, name)
  }

  lemma RepairedIsValid(id: string, i: nat, j: nat, name: string)
    ensures ValidId(Repaired(id, i, j, name))
  {
    CleanedIsValid(id);
    GeneratedIdIsValid(i, j, name);
  }

  // ---------------------------------------------------------------- EnsureToolCallIDs

  /** json.Marshal, None when it fails. */
  type Marshal = Raw -> Option<string>

  function NameOf(f: Option<Function>): string { if f.Some? then f.value.name.AsStr() else "" }

  function EnsureArgs(marshal: Marshal, f: Option<Function>): Option<Function> {
    if f.Some? && f.value.args.Truthy() && !f.value.args.Str? && marshal(f.value.args).Some? then
      Some(f.value.(args := Str(marshal(f.value.args).value)))
    else f
  }

  function EnsureCall(marshal: Marshal, tc: ToolCall, i: nat, j: nat): ToolCall {
    ToolCall(if ValidId(tc.id.AsStr()) then tc.id else Str(Repaired(tc.id.AsStr(), i, j, NameOf(tc.function_))),
             if tc.kind.AsStr() == "" then Str("function") else tc.kind,
             EnsureArgs(marshal, tc.function_), tc.rest)
  }

  /** Present but unusable ids are repaired; absent ones are left absent. */
  function EnsureRef(id: Raw, i: nat, j: nat, name: string): Raw {
    if id.AsStr() != "" && !ValidId(id.AsStr()) then Str(Repaired(id.AsStr(), i, j, name)) else id
  }

  function EnsureBlock(b: Block, i: nat, k: nat): Block {
    if b.kind.AsStr() == "tool_use" then b.(id := EnsureRef(b.id, i, k, b.name.AsStr()))
    else if b.kind.AsStr() == "tool_result" then b.(toolUseId := EnsureRef(b.toolUseId, i, k, ""))
    else b
  }

  function EnsureCalls(marshal: Marshal, cs: seq<Option<ToolCall>>, i: nat): (r: seq<Option<ToolCall>>)
    ensures |r| == |cs|
  {
    seq(|cs|, j requires 0 <= j < |cs| => if cs[j].Some? then Some(EnsureCall(marshal, cs[j].value, i, j)) else None)
  }

  function EnsureBlocks(bs: seq<Option<Block>>, i: nat): (r: seq<Option<Block>>)
    ensures |r| == |bs|
  {
    seq(|bs|, k requires 0 <= k < |bs| => if bs[k].Some? then Some(EnsureBlock(bs[k].value, i, k)) else None)
  }

  function EnsureMessage(marshal: Marshal, m: Message, i: nat): Message {
    match m
    case NotObject(_) => m
    case Message(role, toolCalls, toolCallId, content, rest) =>
      Message(role,
              if IsRole(m, "assistant") && toolCalls.Some? then Some(EnsureCalls(marshal, toolCalls.value, i))
                  else toolCalls,
              if IsRole(m, "tool") then EnsureRef(toolCallId, i, 0, "") else toolCallId,
              if content.Blocks? then Blocks(EnsureBlocks(content.blocks, i)) else content,
              rest)
  }

  function Ensured(marshal: Marshal, ms: seq<Message>): (r: seq<Message>)
    ensures |r| == |ms|
  {
    seq(|ms|, i requires 0 <= i < |ms| => EnsureMessage(marshal, ms[i], i))
  }

  // ---------------------------------------------------------------- FixMissingToolResponses

  function CallIds(cs: seq<Option<ToolCall>>): seq<string> {
    if cs == [] then []
    else
      var c := cs[|cs| - 1];
      CallIds(cs[..|cs| - 1]) + (if c.Some? && c.value.id.AsStr() != "" then [c.value.id.AsStr()] else [])
  }

  function UseIds(bs: seq<Option<Block>>): seq<string> {
    if bs == [] then []
    else
      var b := bs[|bs| - 1];
      UseIds(bs[..|bs| - 1])
      + (if b.Some? && b.value.kind.AsStr() == "tool_use" && b.value.id.AsStr() != "" then [b.value.id.AsStr()] else [])
  }

  function CallsOf(m: Message): seq<Option<ToolCall>> {
    if m.Message? && m.toolCalls.Some? then m.toolCalls.value else []
  }

  function BlocksOf(m: Message): seq<Option<Block>> { if m.Message? && m.content.Blocks? then m.content.blocks else [] }

  function AssistantIds(m: Message): seq<string> {
    if IsRole(m, "assistant") then CallIds(CallsOf(m)) + UseIds(BlocksOf(m)) else []
  }

  predicate ResultFor(b: Option<Block>, ids: seq<string>) {
    b.Some? && b.value.kind.AsStr() == "tool_result" && b.value.toolUseId.AsStr() != ""
        && b.value.toolUseId.AsStr() in ids
  }

  /** The message answers one of the ids. */
  predicate HasResults(m: Message, ids: seq<string>) {
    || (IsRole(m, "tool") && m.toolCallId.AsStr() != "" && m.toolCallId.AsStr() in ids)
    || (IsRole(m, "user") && exists k :: 0 <= k < |BlocksOf(m)| && ResultFor(BlocksOf(m)[k], ids))
  }

  function EmptyAnswer(id: string): Message { Message(Str("tool"), None, Str(id), Plain(Str("")), "") }

  function EmptyAnswers(ids: seq<string>): seq<Message> {
    seq(|ids|, k requires 0 <= k < |ids| => EmptyAnswer(ids[k]))
  }

  /** An assistant turn whose calls the following object message leaves unanswered. */
  predicate Dangling(m: Message, next: Message) {
    AssistantIds(m) != [] && next.Message? && !HasResults(next, AssistantIds(m))
  }

  function Fixed(ms: seq<Message>): seq<Message> {
    if |ms| <= 1 then ms
    else [ms[0]] + AddedAt(ms, 0) + Fixed(ms[1..])
  }

  // ---------------------------------------------------------------- the body object

  method EnsureCallList(marshal: Marshal, cs: seq<Option<ToolCall>>, i: nat) returns (out: seq<Option<ToolCall>>)
    ensures out == EnsureCalls(marshal, cs, i)
  {
    out := cs;
    for j := 0 to |cs|
      invariant |out| == |cs|
      invariant forall k :: 0 <= k < j ==> out[k] == EnsureCalls(marshal, cs, i)[k]
      invariant forall k :: j <= k < |cs| ==> out[k] == cs[k]
    {
      if cs[j].Some? {
        var tc := cs[j].value;
        if !ValidId(tc.id.AsStr()) {
          var fallback := Cleaned(tc.id.AsStr());
          if fallback == "" {
            fallback := GenerateToolCallId(i, j, NameOf(tc.function_));
          }
          tc := tc.(id := Str(fallback));
        }
        if tc.kind.AsStr() == "" {
          tc := tc.(kind := Str("function"));
        }
        tc := tc.(function_ := EnsureArgs(marshal, tc.function_));
        assert tc == EnsureCall(marshal, cs[j].value, i, j);
        out := out[j := Some(tc)];
      }
    }
  }

  method EnsureBlockList(bs: seq<Option<Block>>, i: nat) returns (out: seq<Option<Block>>)
    ensures out == EnsureBlocks(bs, i)
  {
    out := bs;
    for j := 0 to |bs|
      invariant |out| == |bs|
      invariant forall k :: 0 <= k < j ==> out[k] == EnsureBlocks(bs, i)[k]
      invariant forall k :: j <= k < |bs| ==> out[k] == bs[k]
    {
      if bs[j].Some? {
        out := out[j := Some(EnsureBlock(bs[j].value, i, j))];
      }
    }
  }

  method CollectIds(m: Message) returns (ids: seq<string>)
    ensures ids == AssistantIds(m)
  {
    ids := [];
    if !IsRole(m, "assistant") {
      return;
    }
    var cs, bs := CallsOf(m), BlocksOf(m);
    for j := 0 to |cs|
      invariant ids == CallIds(cs[..j])
    {
      assert cs[..j + 1][..j] == cs[..j];
      if cs[j].Some? && cs[j].value.id.AsStr() != "" {
        ids := ids + [cs[j].value.id.AsStr()];
      }
    }
    assert cs[..|cs|] == cs;
    ghost var calls := ids;
    for k := 0 to |bs|
      invariant ids == calls + UseIds(bs[..k])
    {
      assert bs[..k + 1][..k] == bs[..k];
      if bs[k].Some? && bs[k].value.kind.AsStr() == "tool_use" && bs[k].value.id.AsStr() != "" {
        ids := ids + [bs[k].value.id.AsStr()];
      }
    }
    assert bs[..|bs|] == bs;
  }

  method EnsureFields(marshal: Marshal, m: Message, i: nat) returns (out: Message)
    ensures out == EnsureMessage(marshal, m, i)
  {
    out := m;
    if m.NotObject? {
      return;
    }
    if m.role.AsStr() == "assistant" && m.toolCalls.Some? {
      var cs := EnsureCallList(marshal, m.toolCalls.value, i);
      out := out.(toolCalls := Some(cs));
    }
    if m.role.AsStr() == "tool" {
      out := out.(toolCallId := EnsureRef(m.toolCallId, i, 0, ""));
    }
    if m.content.Blocks? {
      var bs := EnsureBlockList(m.content.blocks, i);
      out := out.(content := Blocks(bs));
    }
  }

  class Body {
    var messages: Option<seq<Message>>

    constructor (messages: Option<seq<Message>>)
      ensures this.messages == messages
    {
      this.messages := messages;
    }

    method EnsureToolCallIDs(marshal: Marshal)
      modifies this
      ensures messages == match old(messages) case None => None case Some(ms) => Some(Ensured(marshal, ms))
    {
      if messages.None? {
        return;
      }
      var ms := messages.value;
      for i := 0 to |ms|
        invariant messages.Some? && |messages.value| == |ms|
        invariant forall k :: 0 <= k < i ==> messages.value[k] == Ensured(marshal, ms)[k]
        invariant forall k :: i <= k < |ms| ==> messages.value[k] == ms[k]
      {
        var m := EnsureFields(marshal, ms[i], i);
        messages := Some(messages.value[i := m]);
      }
      assert messages.value == Ensured(marshal, ms);
    }

    method FixMissingToolResponses()
      modifies this
      ensures messages == match old(messages) case None => None case Some(ms) => Some(Fixed(ms))
    {
      if messages.None? {
        return;
      }
      var ms := messages.value;
      var out: seq<Message> := [];
      for i := 0 to |ms|
        invariant messages == Some(ms)
        invariant out + Fixed(ms[i..]) == Fixed(ms)
      {
        FixedNext(ms, i, out);
        out := out + [ms[i]];
        var ids := CollectIds(ms[i]);
        if |ids| > 0 && i + 1 < |ms| && ms[i + 1].Message? && !HasResults(ms[i + 1], ids) {
          out := out + EmptyAnswers(ids);
        } else {
          assert out + [] == out;
        }
      }
      assert out + [] == out;
      messages := Some(out);
    }
  }

  lemma FixedNext(ms: seq<Message>, i: nat, out: seq<Message>)
    requires i < |ms|
    ensures out + Fixed(ms[i..]) == out + [ms[i]] + AddedAt(ms, i) + Fixed(ms[i + 1..])
  {
    var (m, added, rest) := ([ms[i]], AddedAt(ms, i), Fixed(ms[i + 1..]));
    FixedHead(ms, i);
    Regroup(out, m, added, rest);
  }

  lemma FixedHead(ms: seq<Message>, i: nat)
    requires i < |ms|
    ensures Fixed(ms[i..]) == [ms[i]] + AddedAt(ms, i) + Fixed(ms[i + 1..])
  {
    assert ms[i..][1..] == ms[i + 1..];
    assert AddedAt(ms[i..], 0) == AddedAt(ms, i);
    if i + 1 == |ms| { assert ms[i..] == [ms[i]] && ms[i + 1..] == []; }
  }

  lemma Regroup(a: seq<Message>, b: seq<Message>, c: seq<Message>, d: seq<Message>)
    ensures a + (b + c + d) == a + b + c + d
  {
  }

  /** What the second pass puts after message i. */
  function AddedAt(ms: seq<Message>, i: nat): seq<Message>
    requires i < |ms|
  {
    if i + 1 < |ms| && Dangling(ms[i], ms[i + 1]) then EmptyAnswers(AssistantIds(ms[i])) else []
  }

  // ---------------------------------------------------------------- ids after the repair

  predicate SettledRef(id: Raw) { id.AsStr() == "" || ValidId(id.AsStr()) }

  predicate SettledFunction(marshal: Marshal, f: Option<Function>) {
    f.Some? && f.value.args.Truthy() && !f.value.args.Str? ==> marshal(f.value.args).None?
  }

  predicate SettledCall(marshal: Marshal, tc: ToolCall) {
    ValidId(tc.id.AsStr()) && tc.kind.AsStr() != "" && SettledFunction(marshal, tc.function_)
  }

  predicate SettledBlock(b: Block) {
    && (b.kind.AsStr() == "tool_use" ==> SettledRef(b.id))
    && (b.kind.AsStr() == "tool_result" ==> SettledRef(b.toolUseId))
  }

  /** Every tool call has a valid id, a type and, where its arguments can be marshalled, string arguments; every
      other reference to a call is absent or valid. */
  ghost predicate Settled(marshal: Marshal, m: Message) {
    m.Message? ==>
      && (IsRole(m, "assistant") ==>
            forall j :: 0 <= j < |CallsOf(m)| ==> CallsOf(m)[j].Some? ==> SettledCall(marshal, CallsOf(m)[j].value))
      && (IsRole(m, "tool") ==> SettledRef(m.toolCallId))
      && (forall k :: 0 <= k < |BlocksOf(m)| ==> BlocksOf(m)[k].Some? ==> SettledBlock(BlocksOf(m)[k].value))
  }

  lemma EnsureRefSettles(id: Raw, i: nat, j: nat, name: string)
    ensures SettledRef(EnsureRef(id, i, j, name))
    ensures SettledRef(id) <==> EnsureRef(id, i, j, name) == id
  {
    RepairedIsValid(id.AsStr(), i, j, name);
  }

  lemma EnsureCallSettles(marshal: Marshal, tc: ToolCall, i: nat, j: nat)
    ensures SettledCall(marshal, EnsureCall(marshal, tc, i, j))
    ensures SettledCall(marshal, tc) <==> EnsureCall(marshal, tc, i, j) == tc
  {
    RepairedIsValid(tc.id.AsStr(), i, j, NameOf(tc.function_));
  }

  lemma EnsureBlockSettles(b: Block, i: nat, k: nat)
    ensures SettledBlock(EnsureBlock(b, i, k))
    ensures SettledBlock(b) <==> EnsureBlock(b, i, k) == b
  {
    EnsureRefSettles(b.id, i, k, b.name.AsStr());
    EnsureRefSettles(b.toolUseId, i, k, "");
  }

  lemma CallsSettle(marshal: Marshal, cs: seq<Option<ToolCall>>, i: nat)
    ensures var r := EnsureCalls(marshal, cs, i);
            && (forall j :: 0 <= j < |r| ==> r[j].Some? ==> SettledCall(marshal, r[j].value))
            && (r == cs <==> forall j :: 0 <= j < |cs| ==> cs[j].Some? ==> SettledCall(marshal, cs[j].value))
  {
    var r := EnsureCalls(marshal, cs, i);
    forall j | 0 <= j < |cs| && cs[j].Some?
      ensures SettledCall(marshal, r[j].value) && (r[j] == cs[j] <==> SettledCall(marshal, cs[j].value))
    {
      EnsureCallSettles(marshal, cs[j].value, i, j);
    }
  }

  lemma BlocksSettle(bs: seq<Option<Block>>, i: nat)
    ensures var r := EnsureBlocks(bs, i);
            && (forall k :: 0 <= k < |r| ==> r[k].Some? ==> SettledBlock(r[k].value))
            && (r == bs <==> forall k :: 0 <= k < |bs| ==> bs[k].Some? ==> SettledBlock(bs[k].value))
  {
    var r := EnsureBlocks(bs, i);
    forall k | 0 <= k < |bs| && bs[k].Some?
      ensures SettledBlock(r[k].value) && (r[k] == bs[k] <==> SettledBlock(bs[k].value))
    {
      EnsureBlockSettles(bs[k].value, i, k);
    }
  }

  lemma EnsuredParts(marshal: Marshal, m: Message, i: nat, r: Message)
    requires m.Message? && r == EnsureMessage(marshal, m, i)
    ensures r.Message? && r.role == m.role && BlocksOf(r) == EnsureBlocks(BlocksOf(m), i)
    ensures CallsOf(r) == if IsRole(m, "assistant") then EnsureCalls(marshal, CallsOf(m), i) else CallsOf(m)
    ensures r.toolCallId == if IsRole(m, "tool") then EnsureRef(m.toolCallId, i, 0, "") else m.toolCallId
  {
  }

  lemma PartsSettle(marshal: Marshal, m: Message, i: nat, r: Message)
    requires m.Message? && r == EnsureMessage(marshal, m, i)
    ensures Settled(marshal, r)
  {
    EnsuredParts(marshal, m, i, r);
    CallsSettle(marshal, CallsOf(m), i);
    BlocksSettle(BlocksOf(m), i);
    EnsureRefSettles(m.toolCallId, i, 0, "");
  }

  lemma PartsStay(marshal: Marshal, m: Message, i: nat)
    requires m.Message?
    ensures EnsureMessage(marshal, m, i) == m <==> Settled(marshal, m)
  {
    CallsSettle(marshal, CallsOf(m), i);
    BlocksSettle(BlocksOf(m), i);
    EnsureRefSettles(m.toolCallId, i, 0, "");
  }

  /** At any position the pass settles a message, and leaves it alone exactly when it was settled. */
  lemma EnsureSettles(marshal: Marshal, m: Message, i: nat)
    ensures Settled(marshal, EnsureMessage(marshal, m, i))
    ensures EnsureMessage(marshal, m, i) == m <==> Settled(marshal, m)
  {
    if m.Message? {
      PartsSettle(marshal, m, i, EnsureMessage(marshal, m, i));
      PartsStay(marshal, m, i);
    }
  }

  /** After the first pass every assistant tool call has an id that fits the pattern. */
  lemma EveryCallHasAValidId(marshal: Marshal, ms: seq<Message>, i: nat, j: nat)
    requires i < |ms| && IsRole(ms[i], "assistant")
    requires j < |CallsOf(Ensured(marshal, ms)[i])| && CallsOf(Ensured(marshal, ms)[i])[j].Some?
    ensures ValidId(CallsOf(Ensured(marshal, ms)[i])[j].value.id.AsStr())
  {
    EnsureSettles(marshal, ms[i], i);
    assert Settled(marshal, Ensured(marshal, ms)[i]);
  }

  ghost predicate AllSettled(marshal: Marshal, ms: seq<Message>) {
    forall i :: 0 <= i < |ms| ==> Settled(marshal, ms[i])
  }

  /** The first pass changes nothing exactly when every message is settled, and settles every message. */
  lemma EnsuredIsSettled(marshal: Marshal, ms: seq<Message>)
    ensures AllSettled(marshal, Ensured(marshal, ms))
    ensures Ensured(marshal, ms) == ms <==> AllSettled(marshal, ms)
  {
    var r := Ensured(marshal, ms);
    forall i | 0 <= i < |ms| ensures Settled(marshal, r[i]) && (r[i] == ms[i] <==> Settled(marshal, ms[i])) {
      EnsureSettles(marshal, ms[i], i);
    }
  }

  // ---------------------------------------------------------------- answers after the repair

  /** No turn is left dangling. */
  ghost predicate Answered(ms: seq<Message>) {
    forall i :: 0 <= i < |ms| - 1 ==> !Dangling(ms[i], ms[i + 1])
  }

  lemma EmptyAnswerAnswers(ids: seq<string>, k: nat)
    requires k < |ids| && ids[k] != ""
    ensures HasResults(EmptyAnswers(ids)[k], ids)
    ensures AssistantIds(EmptyAnswers(ids)[k]) == []
  {
  }

  lemma {:induction false} CallIdsPresent(cs: seq<Option<ToolCall>>)
    ensures forall k :: 0 <= k < |CallIds(cs)| ==> CallIds(cs)[k] != ""
  {
    if cs != [] { CallIdsPresent(cs[..|cs| - 1]); }
  }

  lemma {:induction false} UseIdsPresent(bs: seq<Option<Block>>)
    ensures forall k :: 0 <= k < |UseIds(bs)| ==> UseIds(bs)[k] != ""
  {
    if bs != [] { UseIdsPresent(bs[..|bs| - 1]); }
  }

  lemma IdsArePresent(m: Message)
    ensures forall k :: 0 <= k < |AssistantIds(m)| ==> AssistantIds(m)[k] != ""
  {
    CallIdsPresent(CallsOf(m));
    UseIdsPresent(BlocksOf(m));
  }

  lemma AnsweredCons(m: Message, ms: seq<Message>)
    requires Answered(ms) && (ms != [] ==> !Dangling(m, ms[0]))
    ensures Answered([m] + ms)
  {
    var all := [m] + ms;
    forall i | 0 <= i < |all| - 1 ensures !Dangling(all[i], all[i + 1]) {
      if i > 0 { assert all[i] == ms[i - 1] && all[i + 1] == ms[i]; }
    }
  }

  /** Answers never dangle themselves. */
  lemma {:induction false} AnswersPrepend(ids: seq<string>, n: nat, ms: seq<Message>)
    requires n <= |ids| && Answered(ms)
    ensures Answered(EmptyAnswers(ids)[n..] + ms)
    decreases |ids| - n
  {
    var answers := EmptyAnswers(ids);
    if n == |ids| {
      assert answers[n..] + ms == ms;
    } else {
      AnswersPrepend(ids, n + 1, ms);
      AnsweredCons(answers[n], answers[n + 1..] + ms);
      assert answers[n..] + ms == [answers[n]] + (answers[n + 1..] + ms);
    }
  }

  lemma FixedStarts(ms: seq<Message>)
    requires ms != []
    ensures Fixed(ms) != [] && Fixed(ms)[0] == ms[0]
  {
  }

  /** After the second pass every turn with tool ids that an object message follows is followed by one that answers
      at least one of them. */
  lemma {:induction false} FixedIsAnswered(ms: seq<Message>)
    ensures Answered(Fixed(ms))
    decreases |ms|
  {
    if |ms| > 1 {
      FixedIsAnswered(ms[1..]);
      FixedStarts(ms[1..]);
      if Dangling(ms[0], ms[1]) {
        DanglingIsAnswered(ms);
      } else {
        AnsweredCons(ms[0], Fixed(ms[1..]));
        assert [ms[0]] + [] + Fixed(ms[1..]) == [ms[0]] + Fixed(ms[1..]);
      }
    }
  }

  lemma DanglingIsAnswered(ms: seq<Message>)
    requires |ms| > 1 && Dangling(ms[0], ms[1]) && Answered(Fixed(ms[1..]))
    ensures Answered(Fixed(ms))
  {
    var ids := AssistantIds(ms[0]);
    var rest := EmptyAnswers(ids)[0..] + Fixed(ms[1..]);
    AnswersPrepend(ids, 0, Fixed(ms[1..]));
    IdsArePresent(ms[0]);
    EmptyAnswerAnswers(ids, 0);
    assert rest[0] == EmptyAnswers(ids)[0];
    AnsweredCons(ms[0], rest);
    assert Fixed(ms) == [ms[0]] + rest;
  }

  lemma AnsweredTail(ms: seq<Message>)
    requires ms != [] && Answered(ms)
    ensures Answered(ms[1..])
  {
    forall i | 0 <= i < |ms[1..]| - 1 ensures !Dangling(ms[1..][i], ms[1..][i + 1]) {
      assert ms[1..][i] == ms[i + 1] && ms[1..][i + 1] == ms[i + 2];
      assert !Dangling(ms[i + 1], ms[i + 2]);
    }
  }

  lemma {:induction false} AnsweredStays(ms: seq<Message>)
    requires Answered(ms)
    ensures Fixed(ms) == ms
    decreases |ms|
  {
    if |ms| > 1 {
      AnsweredTail(ms);
      AnsweredStays(ms[1..]);
      assert !Dangling(ms[0], ms[0 + 1]);
      assert ms == [ms[0]] + [] + ms[1..];
    }
  }

  /** The second pass changes nothing exactly when no turn dangles. */
  lemma FixedExactlyWhenAnswered(ms: seq<Message>)
    ensures Fixed(ms) == ms <==> Answered(ms)
  {
    FixedIsAnswered(ms);
    if Answered(ms) { AnsweredStays(ms); }
  }

  // ---------------------------------------------------------------- nothing is lost

  predicate IsEmptyAnswer(m: Message) { m.Message? && m == EmptyAnswer(m.toolCallId.AsStr()) }

  /** out is ms, in order, with nothing but empty answers in between. */
  predicate OnlyAnswersAdded(ms: seq<Message>, out: seq<Message>)
    decreases |out|
  {
    if out == [] then ms == []
    else (ms != [] && out[0] == ms[0] && OnlyAnswersAdded(ms[1..], out[1..]))
         || (IsEmptyAnswer(out[0]) && OnlyAnswersAdded(ms, out[1..]))
  }

  lemma {:induction false} AddedAfter(ms: seq<Message>, ids: seq<string>, n: nat, out: seq<Message>)
    requires OnlyAnswersAdded(ms, out) && n <= |ids|
    ensures OnlyAnswersAdded(ms, EmptyAnswers(ids)[n..] + out)
    decreases |ids| - n
  {
    var answers := EmptyAnswers(ids)[n..];
    if n == |ids| {
      assert answers + out == out;
    } else {
      AddedAfter(ms, ids, n + 1, out);
      assert (answers + out)[1..] == EmptyAnswers(ids)[n + 1..] + out;
      assert answers[0] == EmptyAnswer(ids[n]);
    }
  }

  lemma OnlyAnswersAddedCons(m: Message, ms: seq<Message>, out: seq<Message>)
    requires OnlyAnswersAdded(ms, out)
    ensures OnlyAnswersAdded([m] + ms, [m] + out)
  {
    assert ([m] + ms)[1..] == ms && ([m] + out)[1..] == out;
  }

  lemma TurnKeepsMessages(m: Message, ids: seq<string>, ms: seq<Message>, out: seq<Message>)
    requires OnlyAnswersAdded(ms, out)
    ensures OnlyAnswersAdded([m] + ms, [m] + EmptyAnswers(ids) + out)
  {
    AddedAfter(ms, ids, 0, out);
    OnlyAnswersAddedCons(m, ms, EmptyAnswers(ids)[0..] + out);
    assert [m] + EmptyAnswers(ids) + out == [m] + (EmptyAnswers(ids)[0..] + out);
  }

  /** The original messages stay, in their order, and only empty answers are added. */
  lemma {:induction false} FixedKeepsMessages(ms: seq<Message>)
    ensures OnlyAnswersAdded(ms, Fixed(ms))
    decreases |ms|
  {
    if |ms| == 1 {
      OnlyAnswersAddedCons(ms[0], [], []);
      assert ms == [ms[0]] + [];
    } else if |ms| > 1 {
      FixedKeepsMessages(ms[1..]);
      var ids := if Dangling(ms[0], ms[1]) then AssistantIds(ms[0]) else [];
      TurnKeepsMessages(ms[0], ids, ms[1..], Fixed(ms[1..]));
      assert ms == [ms[0]] + ms[1..];
      assert EmptyAnswers(ids) == AddedAt(ms, 0);
    }
  }

  /** A call keeps its name, its other fields, a valid id and a kind it has; a missing kind reads "function", and
      arguments that are present and no string become their JSON text, if they have one. */
  predicate CallKept(marshal: Marshal, before: ToolCall, after: ToolCall) {
    && after.rest == before.rest
    && (ValidId(before.id.AsStr()) ==> after.id == before.id)
    && after.kind == (if before.kind.AsStr() == "" then Str("function") else before.kind)
    && match before.function_
       case None => after.function_.None?
       case Some(f) =>
         after.function_ == if f.args.Str? || !f.args.Truthy() || marshal(f.args).None? then Some(f)
                            else Some(Function(f.name, Str(marshal(f.args).value)))
  }

  /** A reference is kept unless it is present and unusable. */
  predicate RefKept(before: Raw, after: Raw) {
    before.AsStr() == "" || ValidId(before.AsStr()) ==> after == before
  }

  /** A block keeps its kind, its name and its other fields, and each reference it may keep; only a tool use may get
      another id, and only a tool result another tool_use_id. */
  predicate BlockKept(before: Block, after: Block) {
    && after.kind == before.kind && after.name == before.name && after.rest == before.rest
    && RefKept(before.id, after.id) && RefKept(before.toolUseId, after.toolUseId)
    && (before.kind.AsStr() != "tool_use" ==> after.id == before.id)
    && (before.kind.AsStr() != "tool_result" ==> after.toolUseId == before.toolUseId)
  }

  predicate CallsKept(marshal: Marshal, before: seq<Option<ToolCall>>, after: seq<Option<ToolCall>>) {
    |after| == |before|
    && forall j :: 0 <= j < |before| ==>
         if before[j].Some? then after[j].Some? && CallKept(marshal, before[j].value, after[j].value)
         else after[j].None?
  }

  predicate BlocksKept(before: seq<Option<Block>>, after: seq<Option<Block>>) {
    |after| == |before|
    && forall k :: 0 <= k < |before| ==>
         if before[k].Some? then after[k].Some? && BlockKept(before[k].value, after[k].value) else after[k].None?
  }

  /** The first pass keeps the role, every other field, plain content, every call and every block as said above, and
      a tool_call_id unless it is a tool message's, present and unusable; calls change in assistant messages only. */
  lemma EnsureTouchesOnlyIds(marshal: Marshal, m: Message, i: nat)
    requires m.Message?
    ensures var r := EnsureMessage(marshal, m, i);
            && r.Message? && r.role == m.role && r.rest == m.rest
            && (m.content.Plain? ==> r.content == m.content) && (m.content.Blocks? ==> r.content.Blocks?)
            && (r.toolCalls.Some? <==> m.toolCalls.Some?) && (!IsRole(m, "assistant") ==> r.toolCalls == m.toolCalls)
            && RefKept(m.toolCallId, r.toolCallId) && (!IsRole(m, "tool") ==> r.toolCallId == m.toolCallId)
            && (IsRole(m, "assistant") ==> CallsKept(marshal, CallsOf(m), CallsOf(r)))
            && BlocksKept(BlocksOf(m), BlocksOf(r))
  {
  }

  // ---------------------------------------------------------------- who refers to whom

  predicate LegalChar(c: char) { 'a' <= c <= 'z' || 'A' <= c <= 'Z' || '0' <= c <= '9' || c in {'_', '-'} }

  lemma {:induction false} CleanedJoin(a: string, b: string)
    ensures Cleaned(a + b) == Cleaned(a) + Cleaned(b)
  {
    if a == "" {
      NothingBefore(b);
    } else {
      var kept := if IdChar(a[0]) then [a[0]] else [];
      CleanedJoin(a[1..], b);
      CleanedCons(a, b, kept);
      Three(kept, Cleaned(a[1..]), Cleaned(b));
    }
  }

  lemma NothingBefore(b: string)
    ensures "" + b == b && Cleaned("") + Cleaned(b) == Cleaned(b)
  {
  }

  lemma Three(a: string, b: string, c: string)
    ensures (a + b) + c == a + (b + c)
  {
  }

  lemma CleanedCons(a: string, b: string, kept: string)
    requires a != "" && kept == if IdChar(a[0]) then [a[0]] else []
    ensures Cleaned(a) == kept + Cleaned(a[1..]) && Cleaned(a + b) == kept + Cleaned(a[1..] + b)
  {
    assert (a + b)[1..] == a[1..] + b;
  }

  /** Cleaning takes the characters one by one: a legal one stays, any other goes. */
  lemma CleanedExactly(a: string, c: char)
    ensures Cleaned("") == "" && Cleaned(a + [c]) == if LegalChar(c) then Cleaned(a) + [c] else Cleaned(a)
  {
    CleanedJoin(a, [c]);
    assert [c][1..] == "";
    assert Cleaned([c]) == if IdChar(c) then [c] else "";
    assert Cleaned(a) + "" == Cleaned(a);
  }

  /** What the first pass makes of an id x, wherever it stands: as a call's id, a tool_use id, a tool_call_id or a
      tool_use_id. */
  ghost predicate AllBecome(marshal: Marshal, x: string, y: string) {
    && (forall tc: ToolCall, i: nat, j: nat :: tc.id == Str(x) ==> EnsureCall(marshal, tc, i, j).id == Str(y))
    && (forall b: Block, i: nat, k: nat :: b.kind.AsStr() == "tool_use" && b.id == Str(x) ==>
          EnsureBlock(b, i, k).id == Str(y))
    && (forall b: Block, i: nat, k: nat :: b.kind.AsStr() == "tool_result" && b.toolUseId == Str(x) ==>
          EnsureBlock(b, i, k).toolUseId == Str(y))
    && (forall m: Message, i: nat :: IsRole(m, "tool") && m.toolCallId == Str(x) ==>
          EnsureMessage(marshal, m, i).toolCallId == Str(y))
  }

  /** Equal ids stay equal: an id with at least one legal character becomes the same one everywhere, what is left of it
      without the others. So an answer still answers its call. */
  lemma EqualIdsStayEqual(marshal: Marshal, x: string)
    requires Cleaned(x) != ""
    ensures AllBecome(marshal, x, Cleaned(x)) && ValidId(Cleaned(x))
  {
    CleanedIsValid(x);
  }

  /** The digits right after the fixed head of a generated id end at its underscore. */
  lemma DigitRuns(a: string, b: string, r: string, t: string)
    requires AllDigits(a) && AllDigits(b) && a + "_" + r == b + "_" + t
    ensures a == b
  {
    var (s, u) := (a + "_" + r, b + "_" + t);
    assert forall k :: 0 <= k < |a| ==> IsDigit(s[k]);
    assert forall k :: 0 <= k < |b| ==> IsDigit(u[k]);
    assert s[|a|] == '_' && u[|b|] == '_' && !IsDigit('_');
    assert |a| == |b|;
    assert s[..|a|] == a && u[..|b|] == b;
  }

  /** What follows the number of the call in a generated id. */
  function Suffix(name: string): string { if Cleaned(name) != "" then "_" + Cleaned(name) else "" }

  /** A generated id says which call it is for: the message, the call within it, and the legal part of its name. */
  lemma GeneratedIdReads(i: nat, j: nat, name: string)
    ensures GenerateToolCallId(i, j, name) == "call_msg" + (Itoa(i) + "_" + ("tc" + (Itoa(j) + Suffix(name))))
  {
    assert "_tc" == "_" + "tc";
    assert "call_msg" + Itoa(i) + "_tc" + Itoa(j) + Suffix(name)
        == "call_msg" + (Itoa(i) + "_" + ("tc" + (Itoa(j) + Suffix(name))));
  }

  lemma AfterHead(head: string, a: string, b: string)
    requires head + a == head + b
    ensures a == b
  {
    assert (head + a)[|head|..] == a && (head + b)[|head|..] == b;
  }

  /** Digits end where a suffix begins. */
  lemma DigitsEnd(a: string, b: string, x: string, y: string)
    requires AllDigits(a) && AllDigits(b) && a + Suffix(x) == b + Suffix(y)
    ensures a == b
  {
    var (s, u) := (a + Suffix(x), b + Suffix(y));
    assert forall k :: 0 <= k < |a| ==> IsDigit(s[k]);
    assert forall k :: 0 <= k < |b| ==> IsDigit(u[k]);
    assert |s| > |a| ==> s[|a|] == '_';
    assert |u| > |b| ==> u[|b|] == '_';
    assert !IsDigit('_');
    assert |a| == |b|;
    assert s[..|a|] == a && u[..|b|] == b;
  }

  /** Ids generated for different calls differ, within a message and across messages. */
  lemma GeneratedIdsDiffer(i: nat, j: nat, name: string, n: nat, l: nat, other: string)
    requires i != n || j != l
    ensures GenerateToolCallId(i, j, name) != GenerateToolCallId(n, l, other)
  {
    var (r, t) := ("tc" + (Itoa(j) + Suffix(name)), "tc" + (Itoa(l) + Suffix(other)));
    GeneratedIdReads(i, j, name);
    GeneratedIdReads(n, l, other);
    DigitsRoundTrip(i);
    DigitsRoundTrip(n);
    DigitsRoundTrip(j);
    DigitsRoundTrip(l);
    if GenerateToolCallId(i, j, name) == GenerateToolCallId(n, l, other) {
      AfterHead("call_msg", Itoa(i) + "_" + r, Itoa(n) + "_" + t);
      DigitRuns(Itoa(i), Itoa(n), r, t);
      ItoaInjective(i, n);
      SameCalls(Itoa(i) + "_", j, name, l, other);
      ItoaInjective(j, l);
    }
  }

  lemma SameCalls(head: string, j: nat, name: string, l: nat, other: string)
    requires head + ("tc" + (Itoa(j) + Suffix(name))) == head + ("tc" + (Itoa(l) + Suffix(other)))
    ensures Itoa(j) == Itoa(l)
  {
    DigitsRoundTrip(j);
    DigitsRoundTrip(l);
    AfterHead(head, "tc" + (Itoa(j) + Suffix(name)), "tc" + (Itoa(l) + Suffix(other)));
    AfterHead("tc", Itoa(j) + Suffix(name), Itoa(l) + Suffix(other));
    DigitsEnd(Itoa(j), Itoa(l), name, other);
  }

  /** A call of message i and a tool message n that answers it by the same id agree after the first pass exactly when
      the id has a legal character: without one each gets an id of its own place. */
  lemma AnswerSurvivesExactly(marshal: Marshal, x: string, tc: ToolCall, i: nat, j: nat, m: Message, n: nat)
    requires x != "" && tc.id == Str(x) && IsRole(m, "tool") && m.toolCallId == Str(x) && n != i
    ensures EnsureCall(marshal, tc, i, j).id == EnsureMessage(marshal, m, n).toolCallId <==> Cleaned(x) != ""
  {
    CleanedIsValid(x);
    if Cleaned(x) == "" { GeneratedIdsDiffer(i, j, NameOf(tc.function_), n, 0, ""); }
  }

  // ---------------------------------------------------------------- where the answers go

  /** The message names id as the call it answers. */
  predicate Answers(m: Message, id: string) {
    && m.Message?
    && (|| (m.role == Str("tool") && m.toolCallId == Str(id))
        || (m.role == Str("user") && exists k :: 0 <= k < |BlocksOf(m)| && Refers(BlocksOf(m)[k], id)))
  }

  predicate Refers(b: Option<Block>, id: string) {
    b.Some? && b.value.kind == Str("tool_result") && b.value.toolUseId == Str(id)
  }

  /** The message is a turn that makes the call id. */
  predicate Calls(m: Message, id: string) {
    && m.Message? && m.role == Str("assistant") && id != ""
    && (|| (exists j :: 0 <= j < |CallsOf(m)| && CallsOf(m)[j].Some? && CallsOf(m)[j].value.id == Str(id))
        || (exists k :: 0 <= k < |BlocksOf(m)| && BlocksOf(m)[k].Some? && BlocksOf(m)[k].value.kind == Str("tool_use")
                        && BlocksOf(m)[k].value.id == Str(id)))
  }

  lemma {:induction false} CallIdsMean(cs: seq<Option<ToolCall>>, id: string)
    ensures id in CallIds(cs) <==> id != "" && exists j :: 0 <= j < |cs| && cs[j].Some? && cs[j].value.id == Str(id)
  {
    if cs != [] {
      var front := cs[..|cs| - 1];
      CallIdsMean(front, id);
      assert forall j :: 0 <= j < |front| ==> front[j] == cs[j];
      if id in CallIds(front) {
        var j :| 0 <= j < |front| && front[j].Some? && front[j].value.id == Str(id);
        assert cs[j].Some?;
      }
    }
  }

  lemma {:induction false} UseIdsMean(bs: seq<Option<Block>>, id: string)
    ensures id in UseIds(bs)
       <==> id != "" && exists k :: 0 <= k < |bs| && bs[k].Some? && bs[k].value.kind == Str("tool_use")
                                    && bs[k].value.id == Str(id)
  {
    if bs != [] {
      var front := bs[..|bs| - 1];
      UseIdsMean(front, id);
      assert forall k :: 0 <= k < |front| ==> front[k] == bs[k];
      if id in UseIds(front) {
        var k :| 0 <= k < |front| && front[k].Some? && front[k].value.kind == Str("tool_use")
                 && front[k].value.id == Str(id);
        assert bs[k].Some?;
      }
    }
  }

  lemma AssistantIdsMean(m: Message, id: string)
    ensures id in AssistantIds(m) <==> Calls(m, id)
  {
    CallIdsMean(CallsOf(m), id);
    UseIdsMean(BlocksOf(m), id);
  }

  lemma HasResultsMeans(m: Message, ids: seq<string>)
    requires "" !in ids
    ensures HasResults(m, ids) <==> exists id :: id in ids && Answers(m, id)
  {
    if id :| id in ids && Answers(m, id) {
      if m.role == Str("user") {
        var k :| 0 <= k < |BlocksOf(m)| && Refers(BlocksOf(m)[k], id);
        assert ResultFor(BlocksOf(m)[k], ids);
      }
    }
    if HasResults(m, ids) {
      if IsRole(m, "tool") && m.toolCallId.AsStr() != "" && m.toolCallId.AsStr() in ids {
        assert Answers(m, m.toolCallId.AsStr());
      } else {
        var k :| 0 <= k < |BlocksOf(m)| && ResultFor(BlocksOf(m)[k], ids);
        assert Refers(BlocksOf(m)[k], BlocksOf(m)[k].value.toolUseId.AsStr());
        assert Answers(m, BlocksOf(m)[k].value.toolUseId.AsStr());
      }
    }
  }

  /** A turn dangles before an object message exactly when it makes calls and the message answers none of them. */
  lemma DanglingExactly(m: Message, next: Message)
    ensures Dangling(m, next)
       <==> next.Message? && (exists id :: Calls(m, id)) && forall id :: Calls(m, id) ==> !Answers(next, id)
  {
    var ids := AssistantIds(m);
    IdsArePresent(m);
    HasResultsMeans(next, ids);
    forall id ensures id in ids <==> Calls(m, id) { AssistantIdsMean(m, id); }
    if ids != [] { assert ids[0] in ids; }
  }

  /** The calls of turn i that get an answer. */
  function DueAt(ms: seq<Message>, i: nat): seq<string>
    requires i < |ms|
  {
    if i + 1 < |ms| && Dangling(ms[i], ms[i + 1]) then AssistantIds(ms[i]) else []
  }

  /** Where message i stands after the second pass: behind what was added before it. */
  function PlaceAfter(ms: seq<Message>, i: nat): nat
    requires i <= |ms|
  {
    if i == 0 then 0 else PlaceAfter(ms, i - 1) + 1 + |DueAt(ms, i - 1)|
  }

  lemma DueShifts(ms: seq<Message>, i: nat)
    requires 0 < i < |ms|
    ensures ms[1..][i - 1] == ms[i] && DueAt(ms[1..], i - 1) == DueAt(ms, i)
  {
    if i + 1 < |ms| { assert ms[1..][i] == ms[i + 1]; }
  }

  lemma {:induction false} PlacesShift(ms: seq<Message>, i: nat)
    requires 0 < i <= |ms|
    ensures PlaceAfter(ms, i) == 1 + |AddedAt(ms, 0)| + PlaceAfter(ms[1..], i - 1)
  {
    if i > 1 {
      PlacesShift(ms, i - 1);
      DueShifts(ms, i - 1);
    } else {
      DueIsAdded(ms, 0);
      assert PlaceAfter(ms, 0) == 0 && PlaceAfter(ms[1..], 0) == 0;
    }
  }

  /** m stands at place p of out, with one empty answer to each of these ids behind it. */
  ghost predicate StandsIn(out: seq<Message>, p: nat, m: Message, ids: seq<string>) {
    && p + |ids| < |out| && out[p] == m
    && forall k :: 0 <= k < |ids| ==> out[p + 1 + k] == Message(Str("tool"), None, Str(ids[k]), Plain(Str("")), "")
  }

  lemma StandsBehind(head: seq<Message>, rest: seq<Message>, p: nat, m: Message, ids: seq<string>)
    requires StandsIn(rest, p, m, ids)
    ensures StandsIn(head + rest, |head| + p, m, ids)
  {
    assert forall k :: 0 <= k < |rest| ==> (head + rest)[|head| + k] == rest[k];
  }

  lemma StandsInFront(m: Message, ids: seq<string>, rest: seq<Message>)
    ensures StandsIn([m] + EmptyAnswers(ids) + rest, 0, m, ids)
  {
    var (answers, out) := (EmptyAnswers(ids), [m] + EmptyAnswers(ids) + rest);
    assert forall k :: 0 <= k < |answers| ==> out[1 + k] == answers[k];
  }

  lemma DueIsAdded(ms: seq<Message>, i: nat)
    requires i < |ms|
    ensures AddedAt(ms, i) == EmptyAnswers(DueAt(ms, i))
  {
  }

  lemma {:induction false} FixedLength(ms: seq<Message>)
    ensures |Fixed(ms)| == PlaceAfter(ms, |ms|)
    decreases |ms|
  {
    if |ms| > 1 {
      FixedLength(ms[1..]);
      PlacesShift(ms, |ms|);
    } else if |ms| == 1 {
      assert PlaceAfter(ms, 0) == 0;
    }
  }

  lemma FirstStands(ms: seq<Message>)
    requires |ms| > 1
    ensures StandsIn(Fixed(ms), PlaceAfter(ms, 0), ms[0], DueAt(ms, 0))
  {
    DueIsAdded(ms, 0);
    StandsInFront(ms[0], DueAt(ms, 0), Fixed(ms[1..]));
  }

  /** One message behind a head, as the places count it. */
  lemma LaterStands(head: seq<Message>, rest: seq<Message>, q: nat, p: nat, m: Message, ids: seq<string>)
    requires StandsIn(rest, q, m, ids) && p == |head| + q
    ensures StandsIn(head + rest, p, m, ids)
  {
    StandsBehind(head, rest, q, m, ids);
  }

  lemma FixedSplits(ms: seq<Message>)
    requires |ms| > 1
    ensures Fixed(ms) == ([ms[0]] + AddedAt(ms, 0)) + Fixed(ms[1..])
  {
  }

  /** The second pass, in full: every message stays, in its order; each turn that dangles is followed by one empty
      answer to each of its calls, in order; and there is nothing else. */
  lemma {:induction false} FixedExactly(ms: seq<Message>, i: nat)
    requires i < |ms|
    ensures StandsIn(Fixed(ms), PlaceAfter(ms, i), ms[i], DueAt(ms, i)) && |Fixed(ms)| == PlaceAfter(ms, |ms|)
    decreases |ms|
  {
    FixedLength(ms);
    if |ms| > 1 && i == 0 {
      FirstStands(ms);
    } else if i > 0 {
      FixedExactly(ms[1..], i - 1);
      PlacesShift(ms, i);
      DueShifts(ms, i);
      FixedSplits(ms);
      LaterStands([ms[0]] + AddedAt(ms, 0), Fixed(ms[1..]), PlaceAfter(ms[1..], i - 1), PlaceAfter(ms, i), ms[i],
                  DueAt(ms, i));
    }
  }

  // ---------------------------------------------------------------- both passes

  lemma {:induction false} CallIdsValid(marshal: Marshal, cs: seq<Option<ToolCall>>)
    requires forall j :: 0 <= j < |cs| ==> cs[j].Some? ==> SettledCall(marshal, cs[j].value)
    ensures forall k :: 0 <= k < |CallIds(cs)| ==> ValidId(CallIds(cs)[k])
  {
    if cs != [] {
      assert forall j :: 0 <= j < |cs| - 1 ==> cs[..|cs| - 1][j] == cs[j];
      CallIdsValid(marshal, cs[..|cs| - 1]);
    }
  }

  lemma {:induction false} UseIdsValid(bs: seq<Option<Block>>)
    requires forall k :: 0 <= k < |bs| ==> bs[k].Some? ==> SettledBlock(bs[k].value)
    ensures forall k :: 0 <= k < |UseIds(bs)| ==> ValidId(UseIds(bs)[k])
  {
    if bs != [] {
      assert forall k :: 0 <= k < |bs| - 1 ==> bs[..|bs| - 1][k] == bs[k];
      UseIdsValid(bs[..|bs| - 1]);
    }
  }

  lemma AnswersAreSettled(marshal: Marshal, m: Message)
    requires Settled(marshal, m)
    ensures AllSettled(marshal, EmptyAnswers(AssistantIds(m)))
  {
    if IsRole(m, "assistant") {
      CallIdsValid(marshal, CallsOf(m));
      UseIdsValid(BlocksOf(m));
    }
    var ids := AssistantIds(m);
    forall k | 0 <= k < |ids| ensures Settled(marshal, EmptyAnswers(ids)[k]) {
      assert ValidId(ids[k]);
    }
  }

  lemma {:induction false} FixedStaysSettled(marshal: Marshal, ms: seq<Message>)
    requires AllSettled(marshal, ms)
    ensures AllSettled(marshal, Fixed(ms))
    decreases |ms|
  {
    if |ms| > 1 {
      assert forall i :: 0 <= i < |ms| - 1 ==> ms[1..][i] == ms[i + 1];
      FixedStaysSettled(marshal, ms[1..]);
      AnswersAreSettled(marshal, ms[0]);
      var added := if Dangling(ms[0], ms[1]) then EmptyAnswers(AssistantIds(ms[0])) else [];
      assert Fixed(ms) == [ms[0]] + added + Fixed(ms[1..]);
    }
  }

  /** Repairing a repaired request changes nothing: its ids are valid at whatever position they moved to, and its
      turns are answered. */
  lemma RepairIsIdempotent(marshal: Marshal, ms: seq<Message>)
    ensures var r := Fixed(Ensured(marshal, ms));
            AllSettled(marshal, r) && Answered(r) && Ensured(marshal, r) == r && Fixed(Ensured(marshal, r)) == r
  {
    var e := Ensured(marshal, ms);
    EnsuredIsSettled(marshal, ms);
    FixedStaysSettled(marshal, e);
    EnsuredIsSettled(marshal, Fixed(e));
    FixedIsAnswered(e);
    AnsweredStays(Fixed(e));
  }
}
