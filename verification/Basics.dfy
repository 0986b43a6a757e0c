/**
 Vocabulary shared by the other modules: options, duplicate-free sequences,
 integer-valued maps read with Go's zero default, and decimal rendering.
 */
module Basics {

  datatype Option<+T> = None | Some(value: T)

  ghost predicate Distinct<T>(s: seq<T>) {
    forall i, j :: 0 <= i < j < |s| ==> s[i] != s[j]
  }

  /** Reading a missing key of a Go map[string]int gives 0. */
  function Get(m: map<string, int>, k: string): int {
    if k in m then m[k] else 0
  }

  function SumOver(ids: seq<string>, m: map<string, int>): int {
    if ids == [] then 0 else Get(m, ids[0]) + SumOver(ids[1..], m)
  }

  /** Adding d at one key of a duplicate-free list moves the sum by d; any other key leaves it alone. */
  lemma {:induction false} SumOverUpdate(ids: seq<string>, m: map<string, int>, k: string, d: int)
    requires Distinct(ids)
    ensures SumOver(ids, m[k := Get(m, k) + d]) == SumOver(ids, m) + (if k in ids then d else 0)
  {
    if ids != [] {
      SumOverUpdate(ids[1..], m, k, d);
      if ids[0] == k {
        assert k !in ids[1..];
      } else {
        assert k in ids <==> k in ids[1..];
      }
    }
  }

  /** A sum only looks at the listed keys. */
  lemma {:induction false} SumOverAgree(ids: seq<string>, m: map<string, int>, n: map<string, int>)
    requires forall k :: k in ids ==> Get(m, k) == Get(n, k)
    ensures SumOver(ids, m) == SumOver(ids, n)
  {
    if ids != [] {
      assert ids[0] in ids;
      forall k | k in ids[1..] ensures Get(m, k) == Get(n, k) { assert k in ids; }
      SumOverAgree(ids[1..], m, n);
    }
  }

  /** Pointwise smaller maps with equal sums agree on every listed key. */
  lemma {:induction false} EqualSums(ids: seq<string>, m: map<string, int>, n: map<string, int>)
    requires forall k :: k in ids ==> Get(m, k) <= Get(n, k)
    ensures SumOver(ids, m) <= SumOver(ids, n)
    ensures SumOver(ids, m) == SumOver(ids, n) ==> forall k :: k in ids ==> Get(m, k) == Get(n, k)
  {
    if ids != [] {
      assert ids[0] in ids;
      forall k | k in ids[1..] ensures Get(m, k) <= Get(n, k) { assert k in ids; }
      EqualSums(ids[1..], m, n);
    }
  }

  function DigitChar(d: nat): char
    requires d < 10
  {
    ('0' as int + d) as char
  }

  function Digits(n: nat): string {
    if n < 10 then [DigitChar(n)] else Digits(n / 10) + [DigitChar(n % 10)]
  }

  /** strconv.Itoa. */
  function Itoa(n: int): string {
    if n < 0 then "-" + Digits(-n) else Digits(n)
  }

  predicate IsDigit(c: char) { '0' <= c <= '9' }

  predicate AllDigits(s: string) {
    forall i :: 0 <= i < |s| ==> IsDigit(s[i])
  }

  function DigitsValue(s: string): nat
    requires AllDigits(s)
  {
    if s == "" then 0 else DigitsValue(s[..|s| - 1]) * 10 + (s[|s| - 1] as int - '0' as int)
  }

  lemma {:induction false} DigitsRoundTrip(n: nat)
    ensures Digits(n) != "" && AllDigits(Digits(n)) && DigitsValue(Digits(n)) == n
  {
    if n < 10 {
      assert Digits(n) == [DigitChar(n)];
      assert Digits(n)[..0] == "";
    } else {
      DigitsRoundTrip(n / 10);
      var s := Digits(n);
      assert s[..|s| - 1] == Digits(n / 10);
    }
  }

  /** Two integers with the same decimal rendering are the same integer. */
  lemma ItoaInjective(m: int, n: int)
    ensures Itoa(m) == Itoa(n) ==> m == n
  {
    var a, b := if m < 0 then -m else m, if n < 0 then -n else n;
    DigitsRoundTrip(a);
    DigitsRoundTrip(b);
    assert IsDigit(Digits(a)[0]) && IsDigit(Digits(b)[0]);
    assert ("-" + Digits(a))[1..] == Digits(a) && ("-" + Digits(b))[1..] == Digits(b);
    assert ("-" + Digits(a))[0] == ("-" + Digits(b))[0] == '-';
  }

  /** Decimal renderings use digits and a sign only. */
  lemma ItoaCharacters(n: int)
    ensures Itoa(n) != ""
    ensures forall i :: 0 <= i < |Itoa(n)| ==> IsDigit(Itoa(n)[i]) || Itoa(n)[i] == '-'
  {
    if n < 0 { DigitsRoundTrip(-n); } else { DigitsRoundTrip(n); }
  }
}
