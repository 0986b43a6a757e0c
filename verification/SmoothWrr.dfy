/**
 The arithmetic of smooth weighted round robin: one round adds every pool
 member's weight to its running total, picks the first maximum and subtracts
 the pool's total weight from the winner. The main results say how often each
 member wins.
 */
module SmoothWrr {
  import opened Basics

  type Totals = map<string, int>

  datatype Candidate = Candidate(id: string, w: int)

  ghost predicate ValidPool(pool: seq<Candidate>) {
    && pool != []
    && (forall i, j :: 0 <= i < j < |pool| ==> pool[i].id != pool[j].id)
    && (forall i :: 0 <= i < |pool| ==> pool[i].w > 0)
  }

  function Ids(pool: seq<Candidate>): (ids: seq<string>)
    ensures |ids| == |pool| && forall i :: 0 <= i < |pool| ==> ids[i] == pool[i].id
  {
    seq(|pool|, i requires 0 <= i < |pool| => pool[i].id)
  }

  function Weight(pool: seq<Candidate>, n: nat): int
    requires n <= |pool|
  {
    if n == 0 then 0 else Weight(pool, n - 1) + pool[n - 1].w
  }

  function Total(pool: seq<Candidate>): int { Weight(pool, |pool|) }

  // ---------------------------------------------------------------- one round

  datatype Scan = Scan(cw: Totals, total: int, best: string, bestCW: int)

  /** The selection loop after its first n candidates. */
  function ScanPool(cw: Totals, pool: seq<Candidate>, n: nat): Scan
    requires n <= |pool|
  {
    if n == 0 then Scan(cw, 0, "", 0)
    else
      var s := ScanPool(cw, pool, n - 1);
      var c := pool[n - 1];
      var sum := Get(s.cw, c.id) + c.w;
      if n == 1 || sum > s.bestCW
      then Scan(s.cw[c.id := sum], s.total + c.w, c.id, sum)
      else Scan(s.cw[c.id := sum], s.total + c.w, s.best, s.bestCW)
  }

  datatype Pick = Pick(cw: Totals, winner: string)

  function Round(cw: Totals, pool: seq<Candidate>): Pick
    requires pool != []
  {
    var s := ScanPool(cw, pool, |pool|);
    Pick(s.cw[s.best := Get(s.cw, s.best) - s.total], s.best)
  }

  function Polled(cw: Totals, c: Candidate): int { Get(cw, c.id) + c.w }

  /** The scan leaves every id outside its first n candidates alone. */
  lemma {:induction false} ScanFrame(cw: Totals, pool: seq<Candidate>, n: nat, id: string)
    requires n <= |pool| && forall j :: 0 <= j < n ==> pool[j].id != id
    ensures id in ScanPool(cw, pool, n).cw <==> id in cw
    ensures Get(ScanPool(cw, pool, n).cw, id) == Get(cw, id)
  {
    if n > 0 { ScanFrame(cw, pool, n - 1, id); }
  }

  lemma {:induction false} ScanPolls(cw: Totals, pool: seq<Candidate>, n: nat, j: nat)
    requires ValidPool(pool) && j < n <= |pool|
    ensures pool[j].id in ScanPool(cw, pool, n).cw
    ensures Get(ScanPool(cw, pool, n).cw, pool[j].id) == Polled(cw, pool[j])
  {
    if j == n - 1 {
      ScanFrame(cw, pool, n - 1, pool[j].id);
    } else {
      ScanPolls(cw, pool, n - 1, j);
      assert pool[j].id != pool[n - 1].id;
    }
  }

  lemma {:induction false} ScanTotal(cw: Totals, pool: seq<Candidate>, n: nat)
    requires n <= |pool|
    ensures ScanPool(cw, pool, n).total == Weight(pool, n)
  {
    if n > 0 { ScanTotal(cw, pool, n - 1); }
  }

  /** Candidate k is the first maximum among the first n. */
  ghost predicate FirstMaximum(cw: Totals, pool: seq<Candidate>, n: nat, k: nat)
    requires k < n <= |pool|
  {
    && (forall j :: 0 <= j < n ==> Polled(cw, pool[j]) <= Polled(cw, pool[k]))
    && (forall j :: 0 <= j < k ==> Polled(cw, pool[j]) < Polled(cw, pool[k]))
  }

  lemma {:induction false} ScanBest(cw: Totals, pool: seq<Candidate>, n: nat) returns (k: nat)
    requires ValidPool(pool) && 0 < n <= |pool|
    ensures k < n && FirstMaximum(cw, pool, n, k)
    ensures ScanPool(cw, pool, n).best == pool[k].id
    ensures ScanPool(cw, pool, n).bestCW == Polled(cw, pool[k])
  {
    ScanFrame(cw, pool, n - 1, pool[n - 1].id);
    if n == 1 {
      k := 0;
    } else {
      var l := ScanBest(cw, pool, n - 1);
      k := if Polled(cw, pool[n - 1]) > Polled(cw, pool[l]) then n - 1 else l;
      assert FirstMaximum(cw, pool, n, k);
    }
  }

  /** A round elects the first candidate whose total plus weight is maximal, and only the totals of the pool move. */
  lemma RoundElectsFirstMaximum(cw: Totals, pool: seq<Candidate>) returns (k: nat)
    requires ValidPool(pool)
    ensures k < |pool| && Round(cw, pool).winner == pool[k].id
    ensures forall j :: 0 <= j < |pool| ==> Polled(cw, pool[j]) <= Polled(cw, pool[k])
    ensures forall j :: 0 <= j < k ==> Polled(cw, pool[j]) < Polled(cw, pool[k])
    ensures forall j :: 0 <= j < |pool| ==>
              Get(Round(cw, pool).cw, pool[j].id) == Polled(cw, pool[j]) - (if j == k then Total(pool) else 0)
  {
    k := ScanBest(cw, pool, |pool|);
    ScanTotal(cw, pool, |pool|);
    forall j | 0 <= j < |pool|
      ensures Get(Round(cw, pool).cw, pool[j].id) == Polled(cw, pool[j]) - (if j == k then Total(pool) else 0)
    {
      ScanPolls(cw, pool, |pool|, j);
      assert j == k || pool[j].id != pool[k].id;
    }
  }

  /** Ids outside the pool keep their total, and no new key but a pool member's appears. */
  lemma RoundFrame(cw: Totals, pool: seq<Candidate>, id: string)
    requires ValidPool(pool) && forall j :: 0 <= j < |pool| ==> pool[j].id != id
    ensures id in Round(cw, pool).cw <==> id in cw
    ensures Get(Round(cw, pool).cw, id) == Get(cw, id)
  {
    ScanFrame(cw, pool, |pool|, id);
    var k := ScanBest(cw, pool, |pool|);
  }

  lemma {:induction false} ScanSum(ids: seq<string>, cw: Totals, pool: seq<Candidate>, n: nat)
    requires Distinct(ids) && n <= |pool|
    requires forall j :: 0 <= j < |pool| ==> pool[j].id in ids
    ensures SumOver(ids, ScanPool(cw, pool, n).cw) == SumOver(ids, cw) + Weight(pool, n)
  {
    if n > 0 {
      ScanSum(ids, cw, pool, n - 1);
      SumOverUpdate(ids, ScanPool(cw, pool, n - 1).cw, pool[n - 1].id, pool[n - 1].w);
    }
  }

  /** What the round hands out it takes back: the sum of the totals never moves. */
  lemma RoundConserves(ids: seq<string>, cw: Totals, pool: seq<Candidate>)
    requires Distinct(ids) && ValidPool(pool)
    requires forall j :: 0 <= j < |pool| ==> pool[j].id in ids
    ensures SumOver(ids, Round(cw, pool).cw) == SumOver(ids, cw)
  {
    ScanSum(ids, cw, pool, |pool|);
    var k := ScanBest(cw, pool, |pool|);
    ScanTotal(cw, pool, |pool|);
    var s := ScanPool(cw, pool, |pool|);
    SumOverUpdate(ids, s.cw, s.best, -s.total);
  }

  // ---------------------------------------------------------------- many rounds

  function Rounds(cw: Totals, pool: seq<Candidate>, t: nat): Totals
    requires pool != []
  {
    if t == 0 then cw else Round(Rounds(cw, pool, t - 1), pool).cw
  }

  /** The winner of round t, counting from 0. */
  function WinnerAt(cw: Totals, pool: seq<Candidate>, t: nat): string
    requires pool != []
  {
    Round(Rounds(cw, pool, t), pool).winner
  }

  /** How often each id won among the first t rounds. */
  function Wins(cw: Totals, pool: seq<Candidate>, t: nat): Totals
    requires pool != []
  {
    if t == 0 then map[]
    else
      var w := Wins(cw, pool, t - 1);
      var id := WinnerAt(cw, pool, t - 1);
      w[id := Get(w, id) + 1]
  }

  lemma WinsNext(cw: Totals, pool: seq<Candidate>, t: nat, id: string)
    requires pool != []
    ensures Get(Wins(cw, pool, t + 1), id) == Get(Wins(cw, pool, t), id)
        + (if WinnerAt(cw, pool, t) == id then 1 else 0)
  {
  }

  lemma PoolIds(pool: seq<Candidate>)
    requires ValidPool(pool)
    ensures Distinct(Ids(pool))
    ensures forall j :: 0 <= j < |pool| ==> pool[j].id in Ids(pool)
    ensures forall id :: id in Ids(pool) ==> exists j :: 0 <= j < |pool| && pool[j].id == id
    ensures Total(pool) > 0
  {
    forall j | 0 <= j < |pool| ensures pool[j].id in Ids(pool) { assert Ids(pool)[j] == pool[j].id; }
    WeightPositive(pool, |pool|);
  }

  lemma {:induction false} WeightPositive(pool: seq<Candidate>, n: nat)
    requires ValidPool(pool) && n <= |pool|
    ensures Weight(pool, n) >= n
  {
    if n > 0 { WeightPositive(pool, n - 1); }
  }

  lemma MulNext(a: int, b: int)
    ensures (a + 1) * b == a * b + b && b * (a + 1) == b * a + b
  {
  }

  lemma MulOrder(b: int, x: int, y: int)
    requires b >= 0 && x <= y
    ensures b * x <= b * y
  {
  }

  lemma MulCancel(b: int, x: int, y: int)
    requires b > 0 && b * x < b * y
    ensures x < y
  {
    if y <= x {
      MulOrder(b, y, x);
      assert false;
    }
  }

  lemma WinsStep(cw: Totals, pool: seq<Candidate>, t: nat, k: nat, j: nat)
    requires ValidPool(pool) && k < |pool| && j < |pool| && t > 0
    requires WinnerAt(cw, pool, t - 1) == pool[k].id
    ensures Get(Wins(cw, pool, t), pool[j].id) == Get(Wins(cw, pool, t - 1), pool[j].id) + (if j == k then 1 else 0)
  {
    assert j == k || pool[j].id != pool[k].id;
  }

  /** Each round a member gains its weight; each win costs it the pool's total. */
  lemma {:induction false} Accounting(cw: Totals, pool: seq<Candidate>, t: nat, j: nat)
    requires ValidPool(pool) && j < |pool|
    ensures Get(Rounds(cw, pool, t), pool[j].id)
         == Get(cw, pool[j].id) + t * pool[j].w - Total(pool) * Get(Wins(cw, pool, t), pool[j].id)
  {
    if t > 0 {
      Accounting(cw, pool, t - 1, j);
      var k := RoundElectsFirstMaximum(Rounds(cw, pool, t - 1), pool);
      WinsStep(cw, pool, t, k, j);
      MulNext(t - 1, pool[j].w);
      MulNext(Get(Wins(cw, pool, t - 1), pool[j].id), Total(pool));
    }
  }

  lemma {:induction false} SumOverEmpty(ids: seq<string>)
    ensures SumOver(ids, map[]) == 0
  {
    if ids != [] { SumOverEmpty(ids[1..]); }
  }

  /** From fresh state the totals stay balanced and never reach minus the pool's total weight. */
  lemma {:induction false} FreshBounds(pool: seq<Candidate>, t: nat)
    requires ValidPool(pool)
    ensures SumOver(Ids(pool), Rounds(map[], pool, t)) == 0
    ensures forall j :: 0 <= j < |pool| ==> Get(Rounds(map[], pool, t), pool[j].id) >= 1 - Total(pool)
  {
    PoolIds(pool);
    if t == 0 {
      SumOverEmpty(Ids(pool));
    } else {
      FreshBounds(pool, t - 1);
      var before := Rounds(map[], pool, t - 1);
      RoundConserves(Ids(pool), before, pool);
      var k := RoundElectsFirstMaximum(before, pool);
      MaximumIsPositive(before, pool, k);
    }
  }

  /** With balanced totals the winning candidate polls a positive total. */
  lemma MaximumIsPositive(cw: Totals, pool: seq<Candidate>, k: nat)
    requires ValidPool(pool) && k < |pool|
    requires SumOver(Ids(pool), cw) == 0
    requires forall j :: 0 <= j < |pool| ==> Polled(cw, pool[j]) <= Polled(cw, pool[k])
    ensures Polled(cw, pool[k]) >= 1
  {
    PoolIds(pool);
    var ids := Ids(pool);
    var polled := ScanPool(cw, pool, |pool|).cw;
    ScanSum(ids, cw, pool, |pool|);
    SumOverEmpty(ids);
    if Polled(cw, pool[k]) <= 0 {
      forall id | id in ids ensures Get(polled, id) <= Get(map[], id) {
        var j :| 0 <= j < |pool| && pool[j].id == id;
        ScanPolls(cw, pool, |pool|, j);
      }
      EqualSums(ids, polled, map[]);
      assert false;
    }
  }

  lemma {:induction false} WinsSum(cw: Totals, pool: seq<Candidate>, t: nat)
    requires ValidPool(pool)
    ensures SumOver(Ids(pool), Wins(cw, pool, t)) == t
  {
    if t == 0 {
      SumOverEmpty(Ids(pool));
    } else {
      WinsSum(cw, pool, t - 1);
      WinnerInPool(cw, pool, t - 1);
      SumOverUpdate(Ids(pool), Wins(cw, pool, t - 1), WinnerAt(cw, pool, t - 1), 1);
    }
  }

  lemma WinnerInPool(cw: Totals, pool: seq<Candidate>, t: nat)
    requires ValidPool(pool)
    ensures WinnerAt(cw, pool, t) in Ids(pool) && Distinct(Ids(pool))
  {
    PoolIds(pool);
    var k := RoundElectsFirstMaximum(Rounds(cw, pool, t), pool);
    assert Ids(pool)[k] == pool[k].id;
  }

  /** count is at most ceil(t * w / total). */
  ghost predicate WithinShare(count: int, t: nat, w: int, total: int) {
    total * count <= t * w + total - 1
  }

  /** WithinShare is the bound by the rounded-up quotient. */
  lemma WithinShareIsCeiling(count: int, t: nat, w: int, total: int)
    requires total > 0
    ensures WithinShare(count, t, w, total) <==> count <= (t * w + total - 1) / total
  {
    var a := t * w + total - 1;
    var q := a / total;
    assert total * q <= a < total * q + total;
    MulNext(q, total);
    if total * count <= a {
      MulCancel(total, count, q + 1);
    } else if count <= q {
      MulOrder(total, count, q);
      assert false;
    }
  }

  /** At every prefix of t rounds, a member has won at most ceil(t * w / T) of them. */
  lemma PrefixShare(pool: seq<Candidate>, t: nat, j: nat)
    requires ValidPool(pool) && j < |pool|
    ensures WithinShare(Get(Wins(map[], pool, t), pool[j].id), t, pool[j].w, Total(pool))
  {
    Accounting(map[], pool, t, j);
    FreshBounds(pool, t);
  }

  /** Two states that read alike over a pool. */
  ghost predicate ReadAlike(cw: Totals, dw: Totals, pool: seq<Candidate>) {
    forall j :: 0 <= j < |pool| ==> Get(cw, pool[j].id) == Get(dw, pool[j].id)
  }

  lemma RoundReadsTotalsOnly(cw: Totals, dw: Totals, pool: seq<Candidate>)
    requires ValidPool(pool) && ReadAlike(cw, dw, pool)
    ensures Round(cw, pool).winner == Round(dw, pool).winner
    ensures ReadAlike(Round(cw, pool).cw, Round(dw, pool).cw, pool)
  {
    var k := RoundElectsFirstMaximum(cw, pool);
    var l := RoundElectsFirstMaximum(dw, pool);
    assert Polled(cw, pool[l]) == Polled(dw, pool[l]) && Polled(cw, pool[k]) == Polled(dw, pool[k]);
    assert k == l;
  }

  /** After Total(pool) rounds every member has won exactly its weight, and every total is back at 0. */
  lemma FullCycle(pool: seq<Candidate>)
    requires ValidPool(pool)
    ensures Total(pool) > 0
    ensures forall j :: 0 <= j < |pool| ==> Get(Wins(map[], pool, Total(pool)), pool[j].id) == pool[j].w
    ensures ReadAlike(Rounds(map[], pool, Total(pool)), map[], pool)
  {
    PoolIds(pool);
    var ids, T := Ids(pool), Total(pool);
    var wins, weights := Wins(map[], pool, T), ScanPool(map[], pool, |pool|).cw;
    ScanSum(ids, map[], pool, |pool|);
    SumOverEmpty(ids);
    WinsSum(map[], pool, T);
    FreshBounds(pool, T);
    forall id | id in ids ensures Get(wins, id) <= Get(weights, id) {
      var j :| 0 <= j < |pool| && pool[j].id == id;
      ScanPolls(map[], pool, |pool|, j);
      Accounting(map[], pool, T, j);
      CycleCap(T, pool[j].w, Get(wins, id));
    }
    EqualSums(ids, wins, weights);
    forall j | 0 <= j < |pool|
      ensures Get(wins, pool[j].id) == pool[j].w && Get(Rounds(map[], pool, T), pool[j].id) == 0
    {
      assert pool[j].id in ids;
      ScanPolls(map[], pool, |pool|, j);
      Accounting(map[], pool, T, j);
    }
  }

  lemma CycleCap(T: int, w: int, wins: int)
    requires T > 0 && T * w - T * wins >= 1 - T
    ensures wins <= w
  {
    MulNext(w, T);
    MulCancel(T, wins, w + 1);
  }

  lemma {:induction false} Periodic(pool: seq<Candidate>, s: nat)
    requires ValidPool(pool)
    ensures Total(pool) > 0
    ensures ReadAlike(Rounds(map[], pool, s + Total(pool)), Rounds(map[], pool, s), pool)
  {
    FullCycle(pool);
    if s > 0 {
      Periodic(pool, s - 1);
      RoundReadsTotalsOnly(Rounds(map[], pool, s - 1 + Total(pool)), Rounds(map[], pool, s - 1), pool);
    }
  }

  /** Every Total(pool) consecutive rounds, wherever they start, elect each member exactly its weight many times. */
  lemma EveryWindowIsExact(pool: seq<Candidate>, s: nat, j: nat)
    requires ValidPool(pool) && j < |pool|
    ensures Total(pool) > 0
    ensures Get(Wins(map[], pool, s + Total(pool)), pool[j].id) == Get(Wins(map[], pool, s), pool[j].id) + pool[j].w
  {
    Periodic(pool, s);
    var T, w, id := Total(pool), pool[j].w, pool[j].id;
    Accounting(map[], pool, s, j);
    Accounting(map[], pool, s + T, j);
    EqualShares(T, w, s, Get(Wins(map[], pool, s), id), Get(Wins(map[], pool, s + T), id));
  }

  lemma EqualShares(T: int, w: int, s: int, a: int, b: int)
    requires T > 0 && s * w - T * a == (s + T) * w - T * b
    ensures b == a + w
  {
    assert (s + T) * w == s * w + T * w;
    assert T * (a + w) == T * a + T * w;
    MulNext(b, T);
    MulNext(a + w, T);
    MulCancel(T, b, a + w + 1);
    MulCancel(T, a + w, b + 1);
  }

  // ---------------------------------------------------------------- winners as a list

  /** The winners of the next n rounds. */
  function Winners(cw: Totals, pool: seq<Candidate>, n: nat): (ws: seq<string>)
    requires pool != []
    ensures |ws| == n
    decreases n
  {
    if n == 0 then []
    else
      var pick := Round(cw, pool);
      [pick.winner] + Winners(pick.cw, pool, n - 1)
  }

  function Count(ws: seq<string>, id: string): nat {
    if ws == [] then 0 else (if ws[0] == id then 1 else 0) + Count(ws[1..], id)
  }

  lemma {:induction false} CountIsWins(cw: Totals, pool: seq<Candidate>, from: nat, n: nat, to: nat, id: string)
    requires pool != [] && to == from + n
    ensures Count(Winners(Rounds(cw, pool, from), pool, n), id)
         == Get(Wins(cw, pool, to), id) - Get(Wins(cw, pool, from), id)
    decreases n
  {
    if n > 0 {
      WinnersNext(Rounds(cw, pool, from), pool, n - 1);
      CountCons(Round(Rounds(cw, pool, from), pool).winner, Winners(Rounds(cw, pool, from + 1), pool, n - 1), id);
      CountIsWins(cw, pool, from + 1, n - 1, to, id);
      WinsNext(cw, pool, from, id);
    }
  }

  lemma WinnersNext(cw: Totals, pool: seq<Candidate>, n: nat)
    requires pool != []
    ensures Winners(cw, pool, n + 1) == [Round(cw, pool).winner] + Winners(Round(cw, pool).cw, pool, n)
  {
  }

  lemma CountCons(w: string, ws: seq<string>, id: string)
    ensures Count([w] + ws, id) == (if w == id then 1 else 0) + Count(ws, id)
  {
    assert ([w] + ws)[1..] == ws;
  }

  /** Any Total(pool) consecutive rounds of a rotation that began fresh elect each member exactly its weight many
      times. */
  lemma ExactWinners(pool: seq<Candidate>, from: nat, j: nat)
    requires ValidPool(pool) && j < |pool|
    ensures Total(pool) > 0
    ensures Count(Winners(Rounds(map[], pool, from), pool, Total(pool)), pool[j].id) == pool[j].w
  {
    EveryWindowIsExact(pool, from, j);
    CountIsWins(map[], pool, from, Total(pool), from + Total(pool), pool[j].id);
  }

  /** The first t rounds of a fresh rotation elect a member at most ceil(t * w / T) times. */
  lemma SmoothWinners(pool: seq<Candidate>, t: nat, j: nat)
    requires ValidPool(pool) && j < |pool|
    ensures WithinShare(Count(Winners(map[], pool, t), pool[j].id), t, pool[j].w, Total(pool))
  {
    PrefixShare(pool, t, j);
    CountIsWins(map[], pool, 0, t, t, pool[j].id);
  }
}
