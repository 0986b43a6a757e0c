/**
 The health registry of internal/health: failure streaks, cooldowns, and the
 pins that shield an identity from reclamation. ObserveOn is one observation
 under the observer's own policy; After folds a whole history.
 */
module Health {
  import opened Basics

  datatype Policy = Policy(enabled: bool, threshold: int, cooldown: int)
  {
    /** A disabled policy and a never-cool threshold record nothing. */
    predicate Records() { enabled && threshold > 0 }
  }

  /** until is None for the zero time: not cooling. */
  datatype State = State(failures: nat, until: Option<int>)
  {
    predicate Cooling(now: int) { until.Some? && now < until.value }
  }

  /** One outcome under one policy; the clock is read to check the cooldown and again to arm it. */
  datatype Obs = Obs(ok: bool, policy: Policy, checked: int, armed: int)

  const CLEAN := State(0, None)

  function Known(s: Option<State>): State { if s.Some? then s.value else CLEAN }

  function ObserveOn(s: Option<State>, o: Obs): Option<State> {
    if !o.policy.Records() then s
    else if o.ok then Some(CLEAN)
    else if Known(s).Cooling(o.checked) then Some(Known(s))
    else if Known(s).failures + 1 >= o.policy.threshold then Some(State(0, Some(o.armed + o.policy.cooldown)))
    else Some(State(Known(s).failures + 1, Known(s).until))
  }

  predicate HealthyIn(s: Option<State>, p: Policy, now: int) {
    !p.enabled || s.None? || !s.value.Cooling(now)
  }

  // ---------------------------------------------------------------- the registry

  type States = map<string, State>
  type Refs = map<string, nat>

  function Look(m: States, k: string): Option<State> { if k in m then Some(m[k]) else None }

  function Put(m: States, k: string, s: Option<State>): States { if s.Some? then m[k := s.value] else m }

  function Held(refs: Refs, k: string): nat { if k in refs then refs[k] else 0 }

  function Occurrences(keys: seq<string>, k: string): nat {
    if keys == [] then 0 else Occurrences(keys[..|keys| - 1], k) + (if keys[|keys| - 1] == k then 1 else 0)
  }

  /** Go deletes a count that falls to zero, so a stored count is positive. */
  ghost predicate Tidy(refs: Refs) { forall k :: k in refs ==> refs[k] > 0 }

  function PinOn(refs: Refs, keys: seq<string>): Refs {
    if keys == [] then refs
    else
      var (before, k) := (PinOn(refs, keys[..|keys| - 1]), keys[|keys| - 1]);
      before[k := Held(before, k) + 1]
  }

  function ReleaseOn(refs: Refs, keys: seq<string>): Refs {
    if keys == [] then refs else Unpin(ReleaseOn(refs, keys[..|keys| - 1]), keys[|keys| - 1])
  }

  function Unpin(refs: Refs, k: string): Refs {
    if Held(refs, k) == 0 then refs
    else if Held(refs, k) == 1 then refs - {k}
    else refs[k := Held(refs, k) - 1]
  }

  function Less(a: nat, b: nat): nat { if a < b then 0 else a - b }

  /** Pinning adds one hold per listed key and touches no other key. */
  lemma {:induction false} PinCounts(refs: Refs, keys: seq<string>)
    requires Tidy(refs)
    ensures Tidy(PinOn(refs, keys))
    ensures forall k :: Held(PinOn(refs, keys), k) == Held(refs, k) + Occurrences(keys, k)
  {
    if keys != [] { PinCounts(refs, keys[..|keys| - 1]); }
  }

  /** Releasing takes back what is still held, never below zero. */
  lemma {:induction false} ReleaseCounts(refs: Refs, keys: seq<string>)
    requires Tidy(refs)
    ensures Tidy(ReleaseOn(refs, keys))
    ensures forall k :: Held(ReleaseOn(refs, keys), k) == Less(Held(refs, k), Occurrences(keys, k))
  {
    if keys != [] { ReleaseCounts(refs, keys[..|keys| - 1]); }
  }

  /** A request that pins and releases leaves no trace. */
  lemma ReleaseUndoesPin(refs: Refs, keys: seq<string>)
    requires Tidy(refs)
    ensures ReleaseOn(PinOn(refs, keys), keys) == refs
  {
    PinCounts(refs, keys);
    ReleaseCounts(PinOn(refs, keys), keys);
    SameHoldsSameRefs(ReleaseOn(PinOn(refs, keys), keys), refs);
  }

  lemma SameHoldsSameRefs(r: Refs, q: Refs)
    requires Tidy(r) && Tidy(q) && forall k :: Held(r, k) == Held(q, k)
    ensures r == q
  {
    forall k: string ensures k in r <==> k in q { assert Held(r, k) == Held(q, k); }
    forall k | k in r ensures r[k] == q[k] { assert Held(r, k) == Held(q, k); }
  }

  function ReclaimOn(states: States, refs: Refs, active: set<string>): States {
    map k | k in states && (k in active || Held(refs, k) > 0) :: states[k]
  }

  /** A state is dropped exactly when its identity is neither active nor held by a request, and no other is touched. */
  lemma ReclaimExactly(states: States, refs: Refs, active: set<string>, k: string)
    ensures Look(ReclaimOn(states, refs, active), k)
         == if k in active || (k in refs && refs[k] > 0) then Look(states, k) else None
  {
  }

  lemma GoneIsReclaimed(states: States, refs: Refs, active: set<string>, gone: set<string>)
    requires forall k :: k in gone <==> k in states && k !in active && Held(refs, k) == 0
    ensures states - gone == ReclaimOn(states, refs, active)
    ensures states.Keys - (states - gone).Keys == gone
  {
  }

  class Registry {
    var states: States
    var refs: Refs

    constructor ()
      ensures states == map[] && refs == map[]
    {
      states, refs := map[], map[];
    }

    /** One reference per listed key. */
    method Pin(keys: seq<string>)
      modifies this`refs
      ensures refs == PinOn(old(refs), keys)
    {
      for i := 0 to |keys|
        invariant refs == PinOn(old(refs), keys[..i])
      {
        assert keys[..i + 1][..i] == keys[..i];
        refs := refs[keys[i] := Held(refs, keys[i]) + 1];
      }
      assert keys[..|keys|] == keys;
    }

    /** The closure Pin returns: it takes back what is still held. */
    method Release(keys: seq<string>)
      requires Tidy(refs)
      modifies this`refs
      ensures Tidy(refs) && refs == ReleaseOn(old(refs), keys)
    {
      for i := 0 to |keys|
        invariant Tidy(refs) && refs == ReleaseOn(old(refs), keys[..i])
      {
        assert keys[..i + 1][..i] == keys[..i];
        var k := keys[i];
        if Held(refs, k) > 0 {
          refs := refs[k := refs[k] - 1];
          if refs[k] == 0 {
            refs := refs - {k};
          }
        }
      }
      assert keys[..|keys|] == keys;
    }

    /** Drops every state that is neither active nor pinned, and counts them. */
    method Reclaim(active: set<string>) returns (dropped: nat)
      modifies this`states
      ensures states == ReclaimOn(old(states), refs, active)
      ensures dropped == |old(states).Keys - states.Keys|
    {
      dropped := 0;
      var todo := states.Keys;
      ghost var gone: set<string> := {};
      while todo != {}
        invariant todo <= old(states).Keys
        invariant forall k :: k in gone <==> k in old(states) && k !in todo && k !in active && Held(refs, k) == 0
        invariant states == old(states) - gone
        invariant dropped == |gone|
        decreases todo
      {
        var k :| k in todo;
        todo := todo - {k};
        if k !in active && Held(refs, k) == 0 {
          states := states - {k};
          gone := gone + {k};
          dropped := dropped + 1;
        }
      }
      GoneIsReclaimed(old(states), refs, active, gone);
    }

    method Observe(key: string, o: Obs)
      modifies this`states
      ensures states == Put(old(states), key, ObserveOn(Look(old(states), key), o))
    {
      if !o.policy.enabled || o.policy.threshold <= 0 {
        return;
      }
      var st := if key in states then states[key] else CLEAN;
      if o.ok {
        st := State(0, None);
      } else if !(st.until.Some? && o.checked < st.until.value) {
        st := st.(failures := st.failures + 1);
        if st.failures >= o.policy.threshold {
          st := State(0, Some(o.armed + o.policy.cooldown));
        }
      }
      states := states[key := st];
    }

    method Healthy(key: string, p: Policy, now: int) returns (h: bool)
      ensures h == HealthyIn(Look(states, key), p, now)
    {
      if !p.enabled {
        return true;
      }
      if key !in states {
        return true;
      }
      var st := states[key];
      h := st.until.None? || now >= st.until.value;
    }
  }

  // ---------------------------------------------------------------- histories

  /** The state one identity reaches by a history of observations. */
  function After(s: Option<State>, h: seq<Obs>): Option<State> {
    if h == [] then s else ObserveOn(After(s, h[..|h| - 1]), h[|h| - 1])
  }

  /** The clock never runs backwards. */
  ghost predicate Clocked(h: seq<Obs>) {
    && (forall i :: 0 <= i < |h| ==> h[i].checked <= h[i].armed)
    && (forall i, j :: 0 <= i < j < |h| ==> h[i].armed <= h[j].checked)
  }

  function Deadline(o: Obs): int { o.armed + o.policy.cooldown }

  /** An observer whose policy is on and has a threshold to reach makes its observation count. */
  predicate Counts(p: Policy) { p.enabled && p.threshold > 0 }

  predicate Clears(o: Obs) { Counts(o.policy) && o.ok }

  predicate Fails(o: Obs) { Counts(o.policy) && !o.ok }

  // The next four read a history of observations alone, without the registry's state.

  /** One of the first n observations armed a cooldown that still runs at now and that no success among them lifted. */
  ghost predicate Covered(h: seq<Obs>, n: nat, now: int)
    requires n <= |h|
    decreases n, 1
  {
    exists j {:trigger h[j]} :: 0 <= j < n && Arming(h, j) && now < Deadline(h[j]) && NoneClears(h, j + 1, n)
  }

  predicate NoneClears(h: seq<Obs>, first: nat, n: nat)
    requires n <= |h|
  {
    forall m :: first <= m < n ==> !Clears(h[m])
  }

  /** A failure counts when no cooldown runs as it is observed. */
  ghost predicate Counted(h: seq<Obs>, i: nat)
    requires i < |h|
    decreases i, 2
  {
    Fails(h[i]) && !Covered(h, i, h[i].checked)
  }

  /** A counted failure arms when it brings the streak to its own observer's threshold. */
  ghost predicate Arming(h: seq<Obs>, i: nat)
    requires i < |h|
    decreases i, 4
  {
    Counted(h, i) && Streak(h, i) + 1 >= h[i].policy.threshold
  }

  /** The counted failures among the first n since the last success or arming. */
  ghost function Streak(h: seq<Obs>, n: nat): nat
    requires n <= |h|
    decreases n, 3
  {
    if n == 0 || Clears(h[n - 1]) || Arming(h, n - 1) then 0
    else Streak(h, n - 1) + (if Counted(h, n - 1) then 1 else 0)
  }

  lemma CoveredNext(h: seq<Obs>, n: nat, now: int)
    requires n < |h|
    ensures Covered(h, n + 1, now)
       <==> (Arming(h, n) && now < Deadline(h[n])) || (Covered(h, n, now) && !Clears(h[n]))
  {
    if Covered(h, n + 1, now) {
      var j :| 0 <= j < n + 1 && Arming(h, j) && now < Deadline(h[j]) && NoneClears(h, j + 1, n + 1);
      if j < n { CoveredBy(h, n, j, now); }
    }
    if Covered(h, n, now) && !Clears(h[n]) {
      var j :| 0 <= j < n && Arming(h, j) && now < Deadline(h[j]) && NoneClears(h, j + 1, n);
      CoveredBy(h, n + 1, j, now);
    }
    if Arming(h, n) && now < Deadline(h[n]) { CoveredBy(h, n + 1, n, now); }
  }

  lemma CoveredBy(h: seq<Obs>, n: nat, j: nat, now: int)
    requires j < n <= |h| && Arming(h, j) && now < Deadline(h[j]) && NoneClears(h, j + 1, n)
    ensures Covered(h, n, now)
  {
    assert h[j] == h[j];
  }

  lemma CoveredEarlier(h: seq<Obs>, n: nat, early: int, now: int)
    requires n <= |h| && early <= now
    ensures Covered(h, n, now) ==> Covered(h, n, early)
  {
    if Covered(h, n, now) {
      var j :| 0 <= j < n && Arming(h, j) && now < Deadline(h[j]) && NoneClears(h, j + 1, n);
      CoveredBy(h, n, j, early);
    }
  }

  /** The state agrees with the first n observations as seen at now. */
  ghost predicate Agrees(s: State, h: seq<Obs>, n: nat, now: int)
    requires n <= |h|
  {
    s.failures == Streak(h, n) && (s.Cooling(now) <==> Covered(h, n, now))
  }

  lemma NextAgrees(h: seq<Obs>, n: nat, now: int)
    requires n < |h| && h[n].checked <= now
    requires Agrees(Known(After(None, h[..n])), h, n, h[n].checked) && Agrees(Known(After(None, h[..n])), h, n, now)
    ensures Agrees(Known(ObserveOn(After(None, h[..n]), h[n])), h, n + 1, now)
  {
    var (s, o) := (Known(After(None, h[..n])), h[n]);
    CoveredNext(h, n, now);
    CoveredEarlier(h, n, o.checked, now);
    assert Counted(h, n) <==> Fails(o) && !s.Cooling(o.checked);
    assert Arming(h, n) <==> Counted(h, n) && s.failures + 1 >= o.policy.threshold;
    assert Streak(h, n + 1) == if Clears(o) || Arming(h, n) then 0 else Streak(h, n) + (if Counted(h, n) then 1 else 0);
  }

  /** The registry refines its history: after any n observations the stored counter is the streak, and a cooldown runs
      at a later clock reading exactly when the history says so. */
  lemma {:induction false} StateIsRead(h: seq<Obs>, n: nat, now: int)
    requires Clocked(h) && n <= |h|
    requires forall i :: 0 <= i < n ==> h[i].armed <= now
    ensures Agrees(Known(After(None, h[..n])), h, n, now)
    decreases n
  {
    if n == 0 {
      assert h[..n] == [];
    } else {
      assert h[..n][..n - 1] == h[..n - 1];
      StateIsRead(h, n - 1, now);
      StateIsRead(h, n - 1, h[n - 1].checked);
      NextAgrees(h, n - 1, now);
    }
  }

  /** The stored counter is the streak that the observations alone give, under any mix of policies. */
  lemma CounterIsStreak(h: seq<Obs>, n: nat)
    requires Clocked(h) && n <= |h|
    ensures Known(After(None, h[..n])).failures == Streak(h, n)
  {
    var now := if n == 0 then 0 else h[n - 1].armed;
    assert forall i :: 0 <= i < n - 1 ==> h[i].armed <= h[n - 1].checked <= now;
    StateIsRead(h, n, now);
  }

  /** An identity is withheld, from a request whose policy is on, exactly while a cooldown armed by some observation
      of its history still runs and no effective success came after it. In particular a cooldown armed at t is over by
      t plus the arming policy's cooldown, whatever failures follow: only an arming could extend it, and none happens
      while it runs. */
  lemma WithheldExactlyWhileCovered(h: seq<Obs>, p: Policy, now: int)
    requires Clocked(h)
    requires forall i :: 0 <= i < |h| ==> h[i].armed <= now
    ensures HealthyIn(After(None, h), p, now) <==> !p.enabled || !Covered(h, |h|, now)
  {
    assert h[..|h|] == h;
    StateIsRead(h, |h|, now);
  }

  /** Cooldowns do not overlap: while one runs, no later observation arms another. */
  lemma NoArmingWhileCovered(h: seq<Obs>, i: nat, j: nat)
    requires i < j < |h| && Arming(h, i) && h[j].checked < Deadline(h[i])
    requires NoneClears(h, i + 1, j)
    ensures !Arming(h, j)
  {
    CoveredBy(h, j, i, h[j].checked);
  }

  /** While a cooldown runs, failures leave it alone: the deadline stays the one first armed, or a success lifted it. */
  lemma {:induction false} CooldownIsNeverExtended(s: State, h: seq<Obs>)
    requires s.until.Some?
    requires forall i :: 0 <= i < |h| ==> h[i].checked < s.until.value
    requires forall i :: 0 <= i < |h| ==> !Clears(h[i])
    ensures After(Some(s), h) == Some(s)
    decreases |h|
  {
    if h != [] { CooldownIsNeverExtended(s, h[..|h| - 1]); }
  }

  // ---------------------------------------------------------------- the price of an arming

  /** Observation i makes the registry arm a cooldown. */
  predicate Arms(h: seq<Obs>, i: nat)
    requires i < |h|
  {
    var before := Known(After(None, h[..i]));
    Fails(h[i]) && !before.Cooling(h[i].checked) && before.failures + 1 >= h[i].policy.threshold
  }

  /** The registry arms exactly where the observations alone say so. */
  lemma ArmsWhereArming(h: seq<Obs>, i: nat)
    requires Clocked(h) && i < |h|
    ensures Arms(h, i) <==> Arming(h, i)
  {
    StateIsRead(h, i, h[i].checked);
  }

  /** The thresholds crossed by the armings of a history. */
  function ArmedThresholds(h: seq<Obs>, n: nat): int
    requires n <= |h|
  {
    if n == 0 then 0
    else ArmedThresholds(h, n - 1) + (if Arms(h, n - 1) then h[n - 1].policy.threshold else 0)
  }

  function EffectiveFailures(h: seq<Obs>, n: nat): nat
    requires n <= |h|
  {
    if n == 0 then 0 else EffectiveFailures(h, n - 1) + (if Fails(h[n - 1]) then 1 else 0)
  }

  /** Every arming is paid for by its observer's threshold in failures, and none is spent twice. */
  lemma {:induction false} ArmingsArePaidFor(h: seq<Obs>, n: nat)
    requires n <= |h|
    ensures ArmedThresholds(h, n) + Known(After(None, h[..n])).failures <= EffectiveFailures(h, n)
  {
    if n == 0 {
      assert h[..n] == [];
    } else {
      assert h[..n][..n - 1] == h[..n - 1];
      ArmingsArePaidFor(h, n - 1);
    }
  }

  /** Under one policy a clean identity stays available for threshold - 1 failures in a row; the next one
      withholds it until exactly one cooldown later. */
  lemma {:induction false} CoolsAtTheThreshold(p: Policy, h: seq<Obs>)
    requires Counts(p) && |h| <= p.threshold
    requires forall i :: 0 <= i < |h| ==> !h[i].ok && h[i].policy == p
    ensures Known(After(None, h)) == if |h| < p.threshold then State(|h|, None)
                                     else State(0, Some(h[|h| - 1].armed + p.cooldown))
    decreases |h|
  {
    if h != [] { CoolsAtTheThreshold(p, h[..|h| - 1]); }
  }

  /** Observations whose policy records nothing can be struck from any history. */
  function Effective(h: seq<Obs>): seq<Obs> {
    if h == [] then []
    else Effective(h[..|h| - 1]) + (if Counts(h[|h| - 1].policy) then [h[|h| - 1]] else [])
  }

  lemma {:induction false} IneffectiveObservationsVanish(s: Option<State>, h: seq<Obs>)
    ensures After(s, h) == After(s, Effective(h))
    decreases |h|
  {
    if h != [] {
      var n := |h| - 1;
      IneffectiveObservationsVanish(s, h[..n]);
      if Counts(h[n].policy) {
        assert Effective(h)[..|Effective(h)| - 1] == Effective(h[..n]);
      } else {
        assert Effective(h) == Effective(h[..n]);
      }
    }
  }
}
