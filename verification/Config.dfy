/**
 The facts of internal/config and internal/routing that the scheduler and the
 health registry rest on: the identities their maps are keyed by.
 A Runtime is one immutable configuration snapshot.
 */
module Config {
  import opened Basics

  const ROUND_ROBIN := "round_robin"
  const WEIGHTED_RR := "weighted_round_robin"
  const NUL: char := '\0'

  datatype Proxy = Proxy(kind: string, url: string)

  datatype Egress = Egress(
    id: string,
    proxy: Option<Proxy>,
    enabled: Option<bool>,
    weight: Option<int>,
    maxConcurrency: int,
    models: seq<string>,
    streaming: Option<bool>,
    maxBodyBytes: int)
  {
    /** Unset weight means 1. */
    function EffectiveWeight(): int {
      match weight case None => 1 case Some(w) => w
    }

    function TransportSignature(): string {
      match proxy
      case None => "direct"
      case Some(p) => p.kind + ":" + p.url
    }

    function HealthKey(): string {
      id + [NUL] + TransportSignature()
    }
  }

  datatype Route = Route(id: string, egress: seq<string>, strategy: string)

  datatype Runtime = Runtime(generation: nat, byId: map<string, Egress>, routes: seq<Route>)

  function WeightOf(rt: Runtime, id: string): int {
    if id in rt.byId then rt.byId[id].EffectiveWeight() else 1
  }

  predicate IsControl(c: char) { c as int < 0x20 || c as int == 0x7f }

  predicate ControlFree(s: string) {
    forall i :: 0 <= i < |s| ==> !IsControl(s[i])
  }

  /** hasControlByte scans the id byte by byte. */
  method HasControlByte(s: string) returns (found: bool)
    ensures found <==> !ControlFree(s)
  {
    for i := 0 to |s|
      invariant ControlFree(s[..i])
    {
      if IsControl(s[i]) {
        return true;
      }
    }
    assert s[..|s|] == s;
    return false;
  }

  /** What Validate guarantees of a route of a loaded configuration. */
  ghost predicate ValidRoute(r: Route) {
    && ControlFree(r.id)
    && (forall i :: 0 <= i < |r.egress| ==> ControlFree(r.egress[i]))
    && Distinct(r.egress)
    && r.strategy in {"", ROUND_ROBIN, WEIGHTED_RR}
  }

  /** What validateProxy guarantees of a proxy. */
  predicate ValidProxy(p: Option<Proxy>) {
    p.Some? ==> p.value.kind in {"http", "https", "socks5"}
  }

  function NormalStrategy(strategy: string): string {
    if strategy == "" then ROUND_ROBIN else strategy
  }

  // ---------------------------------------------------------------- NUL-separated fields

  predicate NulFree(s: string) {
    forall i :: 0 <= i < |s| ==> s[i] != NUL
  }

  ghost predicate NulFreeFields(fs: seq<string>) {
    forall i :: 0 <= i < |fs| ==> NulFree(fs[i])
  }

  function JoinNul(fs: seq<string>): string
    requires fs != []
  {
    if |fs| == 1 then fs[0] else fs[0] + [NUL] + JoinNul(fs[1..])
  }

  function FirstNul(s: string): nat {
    if s == "" || s[0] == NUL then 0 else 1 + FirstNul(s[1..])
  }

  lemma {:induction false} FirstNulOf(x: string, r: string)
    requires NulFree(x) && (r != "" ==> r[0] == NUL)
    ensures FirstNul(x + r) == |x|
  {
    if x != "" {
      assert (x + r)[1..] == x[1..] + r;
      FirstNulOf(x[1..], r);
    }
  }

  /** The first NUL ends the first field: nothing else can be read there. */
  lemma FirstNulSplits(x: string, r: string, y: string, s: string)
    requires NulFree(x) && NulFree(y)
    requires x + [NUL] + r == y + [NUL] + s
    ensures x == y && r == s
  {
    var a, b := x + [NUL] + r, y + [NUL] + s;
    assert a == x + ([NUL] + r) && b == y + ([NUL] + s);
    FirstNulOf(x, [NUL] + r);
    FirstNulOf(y, [NUL] + s);
    assert a[..|x|] == x && b[..|y|] == y;
    assert a[|x| + 1..] == r && b[|y| + 1..] == s;
  }

  lemma FirstField(fs: seq<string>)
    requires fs != [] && NulFreeFields(fs)
    ensures FirstNul(JoinNul(fs)) == |fs[0]|
    ensures |fs| == 1 <==> |JoinNul(fs)| == |fs[0]|
  {
    if |fs| == 1 {
      FirstNulOf(fs[0], "");
      assert fs[0] + "" == fs[0];
    } else {
      FirstNulOf(fs[0], [NUL] + JoinNul(fs[1..]));
      assert JoinNul(fs) == fs[0] + ([NUL] + JoinNul(fs[1..]));
    }
  }

  /** Joining NUL-free fields loses nothing: the field list can be read back. */
  lemma {:induction false} JoinNulInjective(fs: seq<string>, gs: seq<string>)
    requires fs != [] && gs != [] && NulFreeFields(fs) && NulFreeFields(gs)
    requires JoinNul(fs) == JoinNul(gs)
    ensures fs == gs
  {
    FirstField(fs);
    FirstField(gs);
    if |fs| > 1 {
      FirstNulSplits(fs[0], JoinNul(fs[1..]), gs[0], JoinNul(gs[1..]));
      JoinNulInjective(fs[1..], gs[1..]);
      assert fs == [fs[0]] + fs[1..] && gs == [gs[0]] + gs[1..];
    }
  }

  lemma {:induction false} JoinNulAppend(fs: seq<string>, g: string)
    requires fs != []
    ensures JoinNul(fs + [g]) == JoinNul(fs) + [NUL] + g
  {
    if |fs| == 1 {
      assert (fs + [g])[1..] == [g];
    } else {
      assert (fs + [g])[1..] == fs[1..] + [g];
      JoinNulAppend(fs[1..], g);
    }
  }

  // ---------------------------------------------------------------- scheduler fingerprint

  function MemberFields(ids: seq<string>, weighted: bool, rt: Runtime): seq<string> {
    if ids == [] then []
    else
      var last := ids[|ids| - 1];
      MemberFields(ids[..|ids| - 1], weighted, rt) + [last]
      + (if weighted then [Itoa(WeightOf(rt, last))] else [])
  }

  function FingerprintFields(route: Route, rt: Runtime): seq<string> {
    var strategy := NormalStrategy(route.strategy);
    [strategy, route.id, Itoa(|route.egress|)] + MemberFields(route.egress, strategy == WEIGHTED_RR, rt)
  }

  function Fingerprint(route: Route, rt: Runtime): string {
    JoinNul(FingerprintFields(route, rt))
  }

  /** schedulerFingerprint: one string builder, one pass over the members. */
  method SchedulerFingerprint(route: Route, rt: Runtime) returns (b: string)
    ensures b == Fingerprint(route, rt)
  {
    var strategy := route.strategy;
    if strategy == "" {
      strategy := ROUND_ROBIN;
    }
    b := strategy + [NUL] + route.id + [NUL] + Itoa(|route.egress|);
    ghost var head := [strategy, route.id, Itoa(|route.egress|)];
    JoinNulAppend([strategy], route.id);
    JoinNulAppend([strategy, route.id], Itoa(|route.egress|));
    assert [strategy] + [route.id] == [strategy, route.id];
    assert [strategy, route.id] + [Itoa(|route.egress|)] == head;
    assert head + MemberFields([], strategy == WEIGHTED_RR, rt) == head;
    for i := 0 to |route.egress|
      invariant b == JoinNul(head + MemberFields(route.egress[..i], strategy == WEIGHTED_RR, rt))
    {
      var id := route.egress[i];
      ghost var fs := head + MemberFields(route.egress[..i], strategy == WEIGHTED_RR, rt);
      assert route.egress[..i + 1][..i] == route.egress[..i];
      JoinNulAppend(fs, id);
      b := b + [NUL] + id;
      if strategy == WEIGHTED_RR {
        JoinNulAppend(fs + [id], Itoa(WeightOf(rt, id)));
        b := b + [NUL] + Itoa(WeightOf(rt, id));
        assert fs + [id] + [Itoa(WeightOf(rt, id))]
            == head + MemberFields(route.egress[..i + 1], strategy == WEIGHTED_RR, rt);
      } else {
        assert fs + [id] == head + MemberFields(route.egress[..i + 1], strategy == WEIGHTED_RR, rt);
      }
    }
    assert route.egress[..|route.egress|] == route.egress;
  }

  /** The inputs that change what stored rotation state means. */
  ghost predicate SameShape(r: Route, rt: Runtime, q: Route, qt: Runtime) {
    && NormalStrategy(r.strategy) == NormalStrategy(q.strategy)
    && r.id == q.id
    && r.egress == q.egress
    && (r.strategy == WEIGHTED_RR ==> forall id :: id in r.egress ==> WeightOf(rt, id) == WeightOf(qt, id))
  }

  lemma {:induction false} MemberFieldsDecode(xs: seq<string>, ys: seq<string>, weighted: bool, rt: Runtime,
                                              qt: Runtime)
    requires |xs| == |ys|
    ensures MemberFields(xs, weighted, rt) == MemberFields(ys, weighted, qt)
       <==> xs == ys && (weighted ==> forall id :: id in xs ==> WeightOf(rt, id) == WeightOf(qt, id))
  {
    if xs != [] {
      var n := |xs| - 1;
      MemberFieldsDecode(xs[..n], ys[..n], weighted, rt, qt);
      MemberFieldsLength(xs[..n], weighted, rt);
      MemberFieldsLength(ys[..n], weighted, qt);
      var f, g := MemberFields(xs[..n], weighted, rt), MemberFields(ys[..n], weighted, qt);
      var F, G := MemberFields(xs, weighted, rt), MemberFields(ys, weighted, qt);
      assert xs == xs[..n] + [xs[n]] && ys == ys[..n] + [ys[n]];
      assert F[..|f|] == f && G[..|g|] == g;
      assert F[|f|] == xs[n] && G[|g|] == ys[n];
      if weighted {
        assert F[|f| + 1] == Itoa(WeightOf(rt, xs[n])) && G[|g| + 1] == Itoa(WeightOf(qt, ys[n]));
        ItoaInjective(WeightOf(rt, xs[n]), WeightOf(qt, ys[n]));
      }
      if F == G {
        assert f == g && xs == ys;
        forall id | weighted && id in xs ensures WeightOf(rt, id) == WeightOf(qt, id) {
          assert id in xs[..n] || id == xs[n];
        }
      }
      if xs == ys && (weighted ==> forall id :: id in xs ==> WeightOf(rt, id) == WeightOf(qt, id)) {
        assert xs[n] in xs;
        forall id | weighted && id in xs[..n] ensures WeightOf(rt, id) == WeightOf(qt, id) { assert id in xs; }
      }
    }
  }

  lemma {:induction false} MemberFieldsLength(xs: seq<string>, weighted: bool, rt: Runtime)
    ensures |MemberFields(xs, weighted, rt)| == if weighted then 2 * |xs| else |xs|
  {
    if xs != [] {
      MemberFieldsLength(xs[..|xs| - 1], weighted, rt);
    }
  }

  lemma {:induction false} MemberFieldsNulFree(xs: seq<string>, weighted: bool, rt: Runtime)
    requires forall i :: 0 <= i < |xs| ==> ControlFree(xs[i])
    ensures NulFreeFields(MemberFields(xs, weighted, rt))
  {
    if xs != [] {
      MemberFieldsNulFree(xs[..|xs| - 1], weighted, rt);
      ItoaCharacters(WeightOf(rt, xs[|xs| - 1]));
    }
  }

  lemma FingerprintNulFree(r: Route, rt: Runtime)
    requires ValidRoute(r)
    ensures NulFreeFields(FingerprintFields(r, rt))
  {
    ItoaCharacters(|r.egress|);
    MemberFieldsNulFree(r.egress, NormalStrategy(r.strategy) == WEIGHTED_RR, rt);
  }

  /** The fingerprint of a validated route decodes uniquely: it is equal exactly for equal shapes. */
  lemma FingerprintDecodes(r: Route, rt: Runtime, q: Route, qt: Runtime)
    requires ValidRoute(r) && ValidRoute(q)
    ensures Fingerprint(r, rt) == Fingerprint(q, qt) <==> SameShape(r, rt, q, qt)
  {
    var f, g := FingerprintFields(r, rt), FingerprintFields(q, qt);
    FingerprintNulFree(r, rt);
    FingerprintNulFree(q, qt);
    var weighted := NormalStrategy(r.strategy) == WEIGHTED_RR;
    if Fingerprint(r, rt) == Fingerprint(q, qt) {
      JoinNulInjective(f, g);
      assert f[0] == g[0] && f[1] == g[1] && f[2] == g[2];
      ItoaInjective(|r.egress|, |q.egress|);
      assert f[3..] == MemberFields(r.egress, weighted, rt);
      assert g[3..] == MemberFields(q.egress, weighted, qt);
      MemberFieldsDecode(r.egress, q.egress, weighted, rt, qt);
    }
    if SameShape(r, rt, q, qt) {
      MemberFieldsDecode(r.egress, q.egress, weighted, rt, qt);
    }
  }

  // ---------------------------------------------------------------- health identity

  lemma SignatureDecodes(e: Egress, f: Egress)
    requires ValidProxy(e.proxy) && ValidProxy(f.proxy)
    ensures e.TransportSignature() == f.TransportSignature() <==> e.proxy == f.proxy
  {
    if e.TransportSignature() == f.TransportSignature() {
      match (e.proxy, f.proxy) {
        case (None, None) =>
        case (None, Some(q)) => ColonAt(q);
        case (Some(p), None) => ColonAt(p);
        case (Some(p), Some(q)) =>
          ColonAt(p);
          ColonAt(q);
          assert |p.kind| == |q.kind|;
          var a, b := e.TransportSignature(), f.TransportSignature();
          assert a[..|p.kind|] == p.kind && b[..|q.kind|] == q.kind;
          assert a[|p.kind| + 1..] == p.url && b[|q.kind| + 1..] == q.url;
      }
    }
  }

  /** In a valid signature the first colon sits right after the proxy kind. */
  lemma ColonAt(p: Proxy)
    requires ValidProxy(Some(p))
    ensures (p.kind + ":" + p.url)[|p.kind|] == ':'
    ensures forall i :: 0 <= i < |p.kind| ==> (p.kind + ":" + p.url)[i] != ':'
    ensures p.kind + ":" + p.url != "direct"
  {
    assert forall i :: 0 <= i < |"direct"| ==> "direct"[i] != ':';
  }

  /** HealthKey is injective on (egress id, physical transport). */
  lemma HealthKeyDecodes(e: Egress, f: Egress)
    requires ControlFree(e.id) && ControlFree(f.id) && ValidProxy(e.proxy) && ValidProxy(f.proxy)
    ensures e.HealthKey() == f.HealthKey() <==> e.id == f.id && e.proxy == f.proxy
  {
    SignatureDecodes(e, f);
    if e.HealthKey() == f.HealthKey() {
      FirstNulSplits(e.id, e.TransportSignature(), f.id, f.TransportSignature());
    }
  }
}
