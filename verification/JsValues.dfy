/**
 Decoded JSON values as the translators read them. Arrays and objects are
 carried by their JS String() rendering, numbers are integers.
 */
module JsValues {
  import opened Basics

  datatype Raw =
    | Null
    | Bool(b: bool)
    | Num(n: int)
    | Str(s: string)
    | Composite(rendering: string)
  {
    /** jsonx.Truthy: null, false, 0 and "" are falsy. */
    predicate Truthy() {
      match this
      case Null => false
      case Bool(b) => b
      case Num(n) => n != 0
      case Str(s) => s != ""
      case Composite(_) => true
    }

    /** jsonx.AsStr */
    function AsStr(): string {
      if Str? then s else ""
    }

    /** jsStringOf: JS String(v). */
    function JsString(): string {
      match this
      case Null => "null"
      case Bool(b) => if b then "true" else "false"
      case Num(n) => Itoa(n)
      case Str(s) => s
      case Composite(r) => r
    }
  }

  const MAX_INT: int := 0x7fff_ffff_ffff_ffff

  /** strconv.Atoi: optional sign, decimal digits, 64-bit range. */
  function Atoi(s: string): Option<int> {
    if s == "" then None
    else
      var digits := if s[0] in {'-', '+'} then s[1..] else s;
      if digits == "" || !AllDigits(digits) then None
      else
        var v: int := DigitsValue(digits);
        if s[0] == '-' then (if v <= MAX_INT + 1 then Some(-v) else None)
        else if v <= MAX_INT then Some(v) else None
  }

  /** jsIndex: numbers and integer-like strings share a slot, anything else folds onto 0. */
  function JsIndex(raw: Raw): int {
    match raw
    case Num(n) => n
    case Str(s) => (match Atoi(s) case None => 0 case Some(n) => n)
    case _ => 0
  }

  function GetS(m: map<int, string>, i: int): string {
    if i in m then m[i] else ""
  }

  // ---------------------------------------------------------------- substring search

  predicate StartsWith(s: string, pat: string) { pat <= s }

  /** strings.Index, None when absent. */
  function Find(s: string, pat: string): (r: Option<nat>)
    requires pat != ""
    ensures r.Some? ==> r.value + |pat| <= |s|
  {
    if StartsWith(s, pat) then Some(0)
    else if s == "" then None
    else
      match Find(s[1..], pat) case None => None case Some(i) => Some(i + 1)
  }

  /** Find returns the first place the pattern starts at, and None only when there is none. */
  lemma {:induction false} FindIsFirst(s: string, pat: string)
    requires pat != ""
    ensures Find(s, pat).Some? ==> StartsWith(s[Find(s, pat).value..], pat)
    ensures Find(s, pat).Some? ==> forall i :: 0 <= i < Find(s, pat).value ==> !StartsWith(s[i..], pat)
    ensures Find(s, pat).None? ==> forall i :: 0 <= i <= |s| ==> !StartsWith(s[i..], pat)
  {
    assert s[0..] == s;
    if !StartsWith(s, pat) && s != "" {
      FindIsFirst(s[1..], pat);
      assert forall i :: 1 <= i <= |s| ==> s[i..] == s[1..][i - 1..];
    }
  }

  /** strings.Replace(s, pat, "", 1) */
  function RemoveFirst(s: string, pat: string): string
    requires pat != ""
  {
    match Find(s, pat)
    case None => s
    case Some(i) => s[..i] + s[i + |pat|..]
  }

  // ---------------------------------------------------------------- white space

  /** unicode.IsSpace */
  predicate IsSpace(c: char) {
    || c in {'\t', '\n', '\U{000B}', '\U{000C}', '\r', ' ', '\U{0085}', '\U{00A0}', '\U{1680}'}
    || '\U{2000}' <= c <= '\U{200A}'
    || c in {'\U{2028}', '\U{2029}', '\U{202F}', '\U{205F}', '\U{3000}'}
  }

  function TrimLeft(s: string): string { if s != "" && IsSpace(s[0]) then TrimLeft(s[1..]) else s }

  function TrimRight(s: string): string {
    if s != "" && IsSpace(s[|s| - 1]) then TrimRight(s[..|s| - 1]) else s
  }

  /** strings.TrimSpace */
  function TrimSpace(s: string): string { TrimRight(TrimLeft(s)) }

  // ---------------------------------------------------------------- ascending key order

  function MinOf(s: set<int>): (m: int)
    requires s != {}
    ensures m in s && forall x :: x in s ==> m <= x
  {
    MinExists(s);
    assert exists m :: m in s && forall x :: x in s ==> m <= x by {
      var m :| IsMin(s, m);
    }
    var m :| m in s && forall x :: x in s ==> m <= x;
    m
  }

  ghost predicate IsMin(s: set<int>, m: int) {
    m in s && forall x :: x in s ==> m <= x
  }

  lemma AnyOf(s: set<int>) returns (y: int)
    requires s != {}
    ensures y in s
  {
    assert (forall x :: x !in s) ==> s == {};
    y :| y in s;
  }

  lemma {:induction false} MinExists(s: set<int>)
    requires s != {}
    ensures exists m :: IsMin(s, m)
    decreases |s|
  {
    var y := AnyOf(s);
    var rest := s - {y};
    if rest == {} {
      assert s == {y};
      assert IsMin(s, y);
    } else {
      MinExists(rest);
      var z :| IsMin(rest, z);
      assert s == rest + {y};
      assert IsMin(s, if y < z then y else z);
    }
  }

  /** sortedKeys: every key once, ascending. */
  function SortedKeys(s: set<int>): (r: seq<int>)
    ensures forall k :: k in r <==> k in s
    ensures forall i, j :: 0 <= i < j < |r| ==> r[i] < r[j]
    decreases |s|
  {
    if s == {} then []
    else
      var m := MinOf(s);
      [m] + SortedKeys(s - {m})
  }

  // ---------------------------------------------------------------- what the helpers mean

  lemma {:induction false} TrimLeftCuts(s: string) returns (a: string)
    ensures s == a + TrimLeft(s) && (forall k :: 0 <= k < |a| ==> IsSpace(a[k]))
    ensures TrimLeft(s) != "" ==> !IsSpace(TrimLeft(s)[0])
  {
    if s != "" && IsSpace(s[0]) {
      var b := TrimLeftCuts(s[1..]);
      a := [s[0]] + b;
      assert s == [s[0]] + s[1..];
    } else {
      a := "";
    }
  }

  lemma {:induction false} TrimRightCuts(s: string) returns (b: string)
    ensures s == TrimRight(s) + b && (forall k :: 0 <= k < |b| ==> IsSpace(b[k]))
    ensures TrimRight(s) != "" ==> !IsSpace(TrimRight(s)[|TrimRight(s)| - 1])
  {
    if s != "" && IsSpace(s[|s| - 1]) {
      var c := TrimRightCuts(s[..|s| - 1]);
      b := c + [s[|s| - 1]];
      assert s == s[..|s| - 1] + [s[|s| - 1]];
    } else {
      b := "";
    }
  }

  /** Trimming takes white space off both ends, all of it and nothing else. */
  lemma TrimSpaceExactly(s: string) returns (a: string, b: string)
    ensures s == a + TrimSpace(s) + b
    ensures (forall k :: 0 <= k < |a| ==> IsSpace(a[k])) && (forall k :: 0 <= k < |b| ==> IsSpace(b[k]))
    ensures var t := TrimSpace(s); t != "" ==> !IsSpace(t[0]) && !IsSpace(t[|t| - 1])
  {
    a := TrimLeftCuts(s);
    b := TrimRightCuts(TrimLeft(s));
    if TrimSpace(s) != "" { assert TrimLeft(s)[0] == TrimSpace(s)[0]; }
  }

  /** A number and its decimal text share a slot; what is no 64-bit integer, like what is no text, falls to slot 0. */
  lemma SlotsAreShared(n: int)
    requires -MAX_INT - 1 <= n <= MAX_INT
    ensures JsIndex(Num(n)) == n && JsIndex(Str(Itoa(n))) == n
    ensures JsIndex(Null) == 0 && JsIndex(Bool(true)) == 0 && JsIndex(Str("")) == 0
  {
    var (abs, s) := (if n < 0 then -n else n, Itoa(n));
    DigitsRoundTrip(abs);
    assert IsDigit(Digits(abs)[0]);
    if n < 0 { assert s[1..] == Digits(abs); }
  }

  /** Null, false, 0 and the empty text are what does not count as a value; true, other numbers and texts, arrays and
      objects do. */
  lemma FalsyExactly(v: Raw)
    ensures !v.Truthy() <==> v in {Null, Bool(false), Num(0), Str("")}
  {
  }
}
