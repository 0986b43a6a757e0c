/**
 The redirect walk of one upstream dial (internal/upstream/client.go, attempt):
 hop by hop, with the transport picked anew for each hop and two restrictions
 that, once on, stay on. What each hop answers comes from an oracle.
 */
module Redirect {
  import opened Basics

  const MAX_REDIRECTS := 20

  /** hostname is host without its port. */
  datatype Url = Url(scheme: string, host: string, hostname: string, path: string)

  datatype Verb = Post | Get

  datatype Request = Request(url: Url, verb: Verb, headers: map<string, string>, body: bool, tunnelled: bool)

  /** target is the Location already resolved against the current URL. */
  datatype Location = Absent | Unparsable | To(target: Url)

  datatype Answer = NetFailure | Reply(status: int, location: Location)

  /** One dial's inputs. tunnelled says that the client has a transport of its own for https targets. */
  datatype Dial = Dial(
    headers: map<string, string>,
    hasBody: bool,
    tunnelled: bool,
    canonical: string -> string,
    oracle: nat -> Answer)
  {
    predicate Sensitive(k: string) {
      canonical(k) in ["Authorization", "Www-Authenticate", "Cookie", "Cookie2", "Proxy-Authorization",
                       "Proxy-Authenticate"]
    }

    predicate DescribesBody(k: string) {
      canonical(k) in ["Content-Encoding", "Content-Language", "Content-Location", "Content-Type"]
    }

    /** The n-th answer; no transport sends a request that names no host. */
    function AnswerTo(n: nat, url: Url): Answer { if url.host == "" then NetFailure else oracle(n) }
  }

  predicate IsRedirect(status: int) { status in {301, 302, 303, 307, 308} }

  predicate HasSuffix(s: string, suffix: string) {
    |suffix| <= |s| && s[|s| - |suffix|..] == suffix
  }

  /** The parent itself or a dot-separated child of it; an IPv6 literal or zone is nobody's child. */
  predicate SameDomainOrSub(dest: string, parent: string) {
    dest == parent || (':' !in dest && '%' !in dest && HasSuffix(dest, "." + parent))
  }

  /** Strictly inside the domain, the child's name ends in a whole label boundary: "evilexample.com" is not under
      "example.com". */
  lemma SubdomainHasDot(dest: string, parent: string)
    requires SameDomainOrSub(dest, parent) && dest != parent
    ensures |dest| > |parent| && dest[|dest| - |parent| - 1] == '.' && dest[|dest| - |parent|..] == parent
  {
    var n := |dest| - |parent| - 1;
    assert dest[n..] == "." + parent;
    assert dest[n..][0] == '.' && dest[n..][1..] == parent;
    assert dest[n + 1..] == dest[n..][1..];
  }

  /** A redirect leaves the domain exactly when it goes to another host whose name is neither the first one's nor some
      labels and a dot in front of that; what looks like an IPv6 literal has no labels. */
  lemma LeavesExactly(home: string, homeName: string, next: Url)
    ensures !Leaves(home, homeName, next)
       <==> || next.host == home || next.hostname == homeName
            || (':' !in next.hostname && '%' !in next.hostname
                && exists labels: string :: next.hostname == labels + "." + homeName)
  {
    var (dest, suffix) := (next.hostname, "." + homeName);
    if HasSuffix(dest, suffix) {
      var labels := dest[..|dest| - |suffix|];
      assert dest == labels + suffix;
      assert labels + suffix == labels + "." + homeName;
    }
    if labels: string :| dest == labels + "." + homeName {
      assert labels + "." + homeName == labels + suffix;
      assert dest[|labels|..] == suffix;
    }
  }

  datatype Walk = Walk(current: Url, verb: Verb, strip: bool, dropped: bool, home: string, homeName: string, hops: nat)

  datatype Result = Answered(status: int) | Failed

  datatype Trace = Trace(result: Result, sent: seq<Request>)

  function RequestOf(d: Dial, w: Walk): Request {
    Request(w.current, w.verb,
            map k | k in d.headers && !(w.strip && d.Sensitive(k)) && !(w.dropped && d.DescribesBody(k))
                  :: d.headers[k],
            d.hasBody && !w.dropped,
            w.current.scheme == "https" && d.tunnelled)
  }

  function AtHome(w: Walk): Walk {
    if w.home == "" then w.(home := w.current.host, homeName := w.current.hostname) else w
  }

  predicate Switches(status: int, verb: Verb) {
    (status in {301, 302} && verb == Post) || (status == 303 && verb != Get)
  }

  predicate Leaves(home: string, homeName: string, next: Url) {
    next.host != home && !SameDomainOrSub(next.hostname, homeName)
  }

  function Follow(w: Walk, status: int, next: Url): Walk {
    var switches := Switches(status, w.verb);
    w.(current := next, hops := w.hops + 1,
       verb := if switches then Get else w.verb,
       dropped := w.dropped || switches,
       strip := w.strip || Leaves(w.home, w.homeName, next))
  }

  function WalkFrom(d: Dial, before: Walk, sent: seq<Request>): Trace
    requires before.hops <= MAX_REDIRECTS
    decreases MAX_REDIRECTS - before.hops
  {
    var w := AtHome(before);
    var done := sent + [RequestOf(d, w)];
    match d.AnswerTo(|sent|, w.current)
    case NetFailure => Trace(Failed, done)
    case Reply(status, location) =>
      if !IsRedirect(status) || location.Absent? then Trace(Answered(status), done)
      else if location.Unparsable? || location.target.scheme !in {"http", "https"} then Trace(Failed, done)
      else if w.hops + 1 > MAX_REDIRECTS then Trace(Failed, done)
      else WalkFrom(d, Follow(w, status, location.target), done)
  }

  function Start(url: Url): Walk { Walk(url, Post, false, false, "", "", 0) }

  /** The request of one hop. */
  method Compose(d: Dial, w: Walk) returns (r: Request)
    ensures r == RequestOf(d, w)
  {
    var headers := map k | k in d.headers && !(w.strip && d.Sensitive(k)) && !(w.dropped && d.DescribesBody(k))
                         :: d.headers[k];
    r := Request(w.current, w.verb, headers, d.hasBody && !w.dropped, w.current.scheme == "https" && d.tunnelled);
  }

  /** The chain's state after a followed redirect. */
  method Redirected(w: Walk, status: int, next: Url) returns (v: Walk)
    ensures v == Follow(w, status, next)
  {
    v := w.(hops := w.hops + 1);
    if (status in {301, 302} && w.verb == Post) || (status == 303 && w.verb != Get) {
      v := v.(verb := Get, dropped := true);
    }
    if !w.strip && next.host != w.home && !SameDomainOrSub(next.hostname, w.homeName) {
      v := v.(strip := true);
    }
    v := v.(current := next);
  }

  /** attempt, for a client that follows redirects itself. */
  method Attempt(d: Dial, url: Url) returns (result: Result, sent: seq<Request>)
    ensures Trace(result, sent) == WalkFrom(d, Start(url), [])
  {
    sent := [];
    var w := Start(url);
    while true
      invariant w.hops <= MAX_REDIRECTS
      invariant WalkFrom(d, w, sent) == WalkFrom(d, Start(url), [])
      decreases MAX_REDIRECTS - w.hops
    {
      if w.home == "" {
        w := w.(home := w.current.host, homeName := w.current.hostname);
      }
      var answer := d.AnswerTo(|sent|, w.current);
      var request := Compose(d, w);
      sent := sent + [request];
      if answer.NetFailure? {
        return Failed, sent;
      }
      if !IsRedirect(answer.status) || answer.location.Absent? {
        return Answered(answer.status), sent;
      }
      if answer.location.Unparsable? || answer.location.target.scheme !in {"http", "https"} {
        return Failed, sent;
      }
      if w.hops + 1 > MAX_REDIRECTS {
        return Failed, sent;
      }
      w := Redirected(w, answer.status, answer.location.target);
    }
  }

  // ---------------------------------------------------------------- what every request of a walk looks like

  /** Some request up to number j went outside the domain of the first. */
  ghost predicate HasLeft(sent: seq<Request>, j: nat)
    requires sent != []
  {
    exists i :: 0 <= i <= j && i < |sent| && Outside(sent, i)
  }

  predicate Outside(sent: seq<Request>, i: nat)
    requires i < |sent|
  {
    Leaves(sent[0].url.host, sent[0].url.hostname, sent[i].url)
  }

  /** Some answer before request j was a 301, 302 or 303. */
  ghost predicate HasSwitched(d: Dial, j: nat) {
    exists i: nat :: i < j && SwitchesAt(d, i)
  }

  predicate SwitchesAt(d: Dial, i: nat) { d.oracle(i).Reply? && d.oracle(i).status in {301, 302, 303} }

  /** What never leaves the first domain, by canonical header name. */
  const CREDENTIALS := {"Authorization", "Www-Authenticate", "Cookie", "Cookie2", "Proxy-Authorization",
                        "Proxy-Authenticate"}

  /** What goes with the body. */
  const BODY_FIELDS := {"Content-Encoding", "Content-Language", "Content-Location", "Content-Type"}

  /** Request j, read off the requests and answers before it. */
  ghost predicate Proper(d: Dial, sent: seq<Request>, j: nat)
    requires j < |sent|
  {
    var (left, switched, r) := (HasLeft(sent, j), HasSwitched(d, j), sent[j]);
    && r.verb == (if switched then Get else Post)
    && r.body == (d.hasBody && !switched)
    && r.tunnelled == (r.url.scheme == "https" && d.tunnelled)
    && (forall k :: k in r.headers
               <==> k in d.headers && !(left && d.canonical(k) in CREDENTIALS)
                    && !(switched && d.canonical(k) in BODY_FIELDS))
    && (forall k :: k in r.headers ==> r.headers[k] == d.headers[k])
  }

  /** The walk's flags say what its requests and answers so far say. */
  ghost predicate Faithful(d: Dial, w: Walk, sent: seq<Request>) {
    && w.hops == |sent|
    && (w.strip
        <==> sent != [] && (HasLeft(sent, |sent| - 1) || Leaves(sent[0].url.host, sent[0].url.hostname, w.current)))
    && (w.dropped <==> HasSwitched(d, |sent|)) && w.verb == (if w.dropped then Get else Post)
    && (sent == [] ==> w.home == "")
    && (sent != [] ==> w.home == sent[0].url.host && w.homeName == sent[0].url.hostname && w.home != "")
    && forall j :: 0 <= j < |sent| ==> Proper(d, sent, j)
  }

  lemma HasLeftNext(sent: seq<Request>, r: Request)
    ensures HasLeft(sent + [r], |sent|) <==> (sent != [] && HasLeft(sent, |sent| - 1)) || Outside(sent + [r], |sent|)
    ensures forall j :: 0 <= j < |sent| ==> (HasLeft(sent + [r], j) <==> HasLeft(sent, j))
  {
    var all := sent + [r];
    assert forall i :: 0 <= i < |sent| ==> all[i] == sent[i];
    assert sent != [] ==> all[0] == sent[0];
    assert forall i :: 0 <= i < |sent| ==> (Outside(all, i) <==> Outside(sent, i));
    if HasLeft(all, |sent|) {
      var i :| 0 <= i <= |sent| && Outside(all, i);
      if i < |sent| { assert Outside(sent, i); }
    }
    if sent != [] && HasLeft(sent, |sent| - 1) {
      var i :| 0 <= i < |sent| && Outside(sent, i);
      assert Outside(all, i);
    }
    forall j | 0 <= j < |sent| ensures HasLeft(all, j) <==> HasLeft(sent, j) {
      if HasLeft(all, j) {
        var i :| 0 <= i <= j && i < |all| && Outside(all, i);
        assert Outside(sent, i);
      }
      if HasLeft(sent, j) {
        var i :| 0 <= i <= j && i < |sent| && Outside(sent, i);
        assert Outside(all, i);
      }
    }
  }

  lemma SwitchedNext(d: Dial, n: nat)
    ensures HasSwitched(d, n + 1) <==> HasSwitched(d, n) || SwitchesAt(d, n)
  {
    if HasSwitched(d, n) {
      var i: nat :| i < n && SwitchesAt(d, i);
      assert i < n + 1;
    }
  }

  /** The first request is in its own domain. */
  lemma HomeIsInside(url: Url)
    ensures !Leaves(url.host, url.hostname, url)
  {
  }

  lemma SentIsProper(d: Dial, before: Walk, sent: seq<Request>)
    requires Faithful(d, before, sent)
    ensures var (w, all) := (AtHome(before), sent + [RequestOf(d, AtHome(before))]);
            && (w.strip <==> HasLeft(all, |sent|))
            && w.home == all[0].url.host && w.homeName == all[0].url.hostname
            && forall j :: 0 <= j < |all| ==> Proper(d, all, j)
  {
    var w := AtHome(before);
    var r := RequestOf(d, w);
    var all := sent + [r];
    HasLeftNext(sent, r);
    if sent == [] { HomeIsInside(w.current); }
    assert r.url == w.current;
    forall j | 0 <= j < |all| ensures Proper(d, all, j) {
      if j < |sent| { assert Proper(d, sent, j) && all[j] == sent[j]; }
    }
  }

  lemma FollowIsFaithful(d: Dial, before: Walk, sent: seq<Request>, status: int, next: Url)
    requires Faithful(d, before, sent) && AtHome(before).current.host != ""
    requires d.oracle(|sent|).Reply? && d.oracle(|sent|).status == status && IsRedirect(status)
    ensures Faithful(d, Follow(AtHome(before), status, next), sent + [RequestOf(d, AtHome(before))])
  {
    var (w, all) := (AtHome(before), sent + [RequestOf(d, AtHome(before))]);
    SentIsProper(d, before, sent);
    SwitchedNext(d, |sent|);
    assert all[0].url.host == w.home;
    if sent != [] { assert all[0] == sent[0]; }
  }

  lemma {:induction false} WalkIsProper(d: Dial, before: Walk, sent: seq<Request>)
    requires before.hops <= MAX_REDIRECTS && Faithful(d, before, sent)
    ensures var all := WalkFrom(d, before, sent).sent;
            |sent| < |all| <= MAX_REDIRECTS + 1 && forall j :: 0 <= j < |all| ==> Proper(d, all, j)
    decreases MAX_REDIRECTS - before.hops
  {
    var w := AtHome(before);
    SentIsProper(d, before, sent);
    var a := d.AnswerTo(|sent|, w.current);
    if a.Reply? && IsRedirect(a.status) && a.location.To? && a.location.target.scheme in {"http", "https"}
        && w.hops < MAX_REDIRECTS {
      FollowIsFaithful(d, before, sent, a.status, a.location.target);
      WalkIsProper(d, Follow(w, a.status, a.location.target), sent + [RequestOf(d, w)]);
    }
  }

  /** At most 21 requests are sent. In each, a sensitive header is missing exactly when some request so far went
      outside the first one's domain; it is a GET without body and body headers exactly when some answer so far was
      a 301, 302 or 303; and it rides the tunnelled transport exactly when it is https and there is one. */
  lemma EveryRequestIsProper(d: Dial, url: Url)
    ensures var sent := WalkFrom(d, Start(url), []).sent;
            1 <= |sent| <= MAX_REDIRECTS + 1 && forall j :: 0 <= j < |sent| ==> Proper(d, sent, j)
  {
    assert Faithful(d, Start(url), []);
    WalkIsProper(d, Start(url), []);
  }

  /** Once outside, no later request of the walk carries credentials, even back home. */
  lemma StrippedForGood(d: Dial, url: Url, i: nat, j: nat, k: string)
    requires var sent := WalkFrom(d, Start(url), []).sent; i <= j < |sent| && Outside(sent, i)
    requires d.canonical(k) in CREDENTIALS
    ensures k !in WalkFrom(d, Start(url), []).sent[j].headers
  {
    EveryRequestIsProper(d, url);
    var sent := WalkFrom(d, Start(url), []).sent;
    assert Proper(d, sent, j) && HasLeft(sent, j);
  }

  /** Once switched to GET, every later request of the walk is a GET without a body. */
  lemma SwitchedForGood(d: Dial, url: Url, i: nat, j: nat)
    requires var sent := WalkFrom(d, Start(url), []).sent; i <= j < |sent| && sent[i].verb == Get
    ensures var r := WalkFrom(d, Start(url), []).sent[j];
            r.verb == Get && !r.body && forall k :: k in r.headers ==> d.canonical(k) !in BODY_FIELDS
  {
    EveryRequestIsProper(d, url);
    var sent := WalkFrom(d, Start(url), []).sent;
    assert Proper(d, sent, i) && Proper(d, sent, j);
    var n: nat :| n < i && SwitchesAt(d, n);
    assert HasSwitched(d, j);
  }

  /** An answer that an HTTP client would follow: a redirect to an http or https URL with a host. */
  predicate RedirectsOn(a: Answer) {
    a.Reply? && IsRedirect(a.status) && a.location.To? && a.location.target.scheme in {"http", "https"}
    && a.location.target.host != ""
  }

  lemma {:induction false} EndlessWalkFails(d: Dial, w: Walk, sent: seq<Request>)
    requires w.hops == |sent| <= MAX_REDIRECTS && w.current.host != ""
    requires forall n: nat :: RedirectsOn(d.oracle(n))
    ensures WalkFrom(d, w, sent).result == Failed && |WalkFrom(d, w, sent).sent| == MAX_REDIRECTS + 1
    decreases MAX_REDIRECTS - w.hops
  {
    var a := d.oracle(|sent|);
    assert RedirectsOn(a);
    if w.hops < MAX_REDIRECTS {
      EndlessWalkFails(d, Follow(AtHome(w), a.status, a.location.target), sent + [RequestOf(d, AtHome(w))]);
    }
  }

  /** The twenty-first redirect is not followed: an upstream that redirects forever, by whatever statuses and to
      whatever URLs, gets exactly 21 requests, and the dial fails. */
  lemma EndlessRedirectsFail(d: Dial, url: Url)
    requires url.host != "" && forall n: nat :: RedirectsOn(d.oracle(n))
    ensures WalkFrom(d, Start(url), []).result == Failed
    ensures |WalkFrom(d, Start(url), []).sent| == MAX_REDIRECTS + 1
  {
    EndlessWalkFails(d, Start(url), []);
  }

  // ---------------------------------------------------------------- where a walk goes and where it ends

  /** The answer sends the client on: one of the five redirects, to a URL that an HTTP client can ask. */
  predicate SendsOn(a: Answer) {
    && a.Reply? && a.status in {301, 302, 303, 307, 308}
    && a.location.To? && a.location.target.scheme in {"http", "https"}
  }

  /** Every request but the last was sent on, and the next one went to where its answer pointed. */
  ghost predicate Chained(d: Dial, url: Url, sent: seq<Request>) {
    && (sent != [] ==> sent[0].url == url)
    && forall j :: 0 <= j < |sent| - 1 ==>
         sent[j].url.host != "" && SendsOn(d.oracle(j)) && sent[j + 1].url == d.oracle(j).location.target
  }

  /** The walk ends at a request that fails, at an answer that is no redirect or says no place, at a redirect to no
      usable place, or at the twenty-first redirect. */
  ghost predicate EndsAt(d: Dial, t: Trace) {
    t.sent != []
    && var (a, n) := (d.oracle(|t.sent| - 1), |t.sent|);
       if t.sent[n - 1].url.host == "" || a.NetFailure? then t.result == Failed
       else if a.status !in {301, 302, 303, 307, 308} || a.location.Absent? then t.result == Answered(a.status)
       else t.result == Failed && (n == 21 || !SendsOn(a))
  }

  /** Where the walk stands before its next request. */
  ghost predicate Awaits(d: Dial, url: Url, w: Walk, sent: seq<Request>) {
    && Chained(d, url, sent) && w.hops == |sent|
    && (if sent == [] then w.current == url
        else && sent[|sent| - 1].url.host != "" && SendsOn(d.oracle(|sent| - 1))
             && w.current == d.oracle(|sent| - 1).location.target)
  }

  lemma AskIsChained(d: Dial, url: Url, w: Walk, sent: seq<Request>)
    requires Awaits(d, url, w, sent)
    ensures Chained(d, url, sent + [RequestOf(d, AtHome(w))])
  {
    var all := sent + [RequestOf(d, AtHome(w))];
    forall j | 0 <= j < |all| - 1
      ensures all[j].url.host != "" && SendsOn(d.oracle(j)) && all[j + 1].url == d.oracle(j).location.target
    {
      assert all[j] == sent[j];
      if j < |sent| - 1 { assert all[j + 1] == sent[j + 1]; }
    }
  }

  lemma {:induction false} WalkIsChained(d: Dial, url: Url, before: Walk, sent: seq<Request>)
    requires before.hops <= MAX_REDIRECTS && Awaits(d, url, before, sent)
    ensures var t := WalkFrom(d, before, sent); Chained(d, url, t.sent) && EndsAt(d, t)
    decreases MAX_REDIRECTS - before.hops
  {
    var w := AtHome(before);
    var all := sent + [RequestOf(d, w)];
    var a := d.AnswerTo(|sent|, w.current);
    AskIsChained(d, url, before, sent);
    assert all[|all| - 1].url == w.current;
    if a.Reply? && SendsOn(a) && w.hops < MAX_REDIRECTS {
      WalkIsChained(d, url, Follow(w, a.status, a.location.target), all);
    }
  }

  /** For every upstream: the first request goes to the URL dialled and each later one to where the answer before it
      pointed, and the walk ends just where it must, with the status of an answer that is no redirect and a failure
      otherwise. */
  lemma WalkGoesWhereItIsSent(d: Dial, url: Url)
    ensures var t := WalkFrom(d, Start(url), []);
            && 1 <= |t.sent| <= 21 && t.sent[0].url == url && EndsAt(d, t)
            && forall j :: 0 <= j < |t.sent| - 1 ==>
                 SendsOn(d.oracle(j)) && t.sent[j + 1].url == d.oracle(j).location.target
  {
    WalkIsChained(d, url, Start(url), []);
    EveryRequestIsProper(d, url);
  }
}
