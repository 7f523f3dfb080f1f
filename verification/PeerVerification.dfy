/** `PeerVerifiers.VerifyPeerCertificate` of `arrangetls/tls.go`.

    R is a raw certificate, X a parsed one, V a verifier and E an error. */
module PeerVerification {
  import opened Wrappers
  import opened PeerVerifiers

  /** x509.ParseCertificate, and what a verifier answers about a certificate - after the
      verifier calls made so far, since verifiers may keep state and share it. */
  datatype Crypto<!R, !X, !V, !E> = Crypto(
    parse: R -> Result<X, E>,
    judge: (seq<(V, X)>, V, X) -> Option<E>)

  /** One action: parsing certificate `cert`, or showing it to verifier number `verifier`. */
  datatype Slot =
    | ParseAt(cert: nat)
    | CheckAt(cert: nat, verifier: nat)

  /** All actions on certificates `i..n`: for each, the parse and then verifiers 0..m. */
  function Schedule(i: nat, n: nat, m: nat): seq<Slot>
    decreases n - i
  {
    if i >= n then [] else [ParseAt(i)] + Checks(i, 0, m) + Schedule(i + 1, n, m)
  }

  function Checks(i: nat, j: nat, m: nat): (r: seq<Slot>)
    ensures |r| == if j < m then m - j else 0
    ensures forall k :: 0 <= k < |r| ==> r[k] == CheckAt(i, j + k)
    decreases m - j
  {
    if j >= m then [] else [CheckAt(i, j)] + Checks(i, j + 1, m)
  }

  /** Without verifiers nothing is done, not even parsing. */
  function Plan(n: nat, m: nat): seq<Slot> {
    if m == 0 then [] else Schedule(0, n, m)
  }

  /** The verifier calls among some actions. */
  function History<R, X, V, E>(c: Crypto<R, X, V, E>, raws: seq<R>, vs: seq<V>, done: seq<Slot>): seq<(V, X)> {
    if done == [] then []
    else
      var before := History(c, raws, vs, done[..|done| - 1]);
      match done[|done| - 1]
      case ParseAt(_) => before
      case CheckAt(i, j) =>
        if i < |raws| && j < |vs| && (c.parse)(raws[i]).Success?
        then before + [(vs[j], (c.parse)(raws[i]).value)]
        else before
  }

  /** What the action `s` yields after the actions `done`: an error or nothing. */
  function Outcome<R, X, V, E>(
    c: Crypto<R, X, V, E>, raws: seq<R>, vs: seq<V>, done: seq<Slot>, s: Slot): Option<E>
    requires s.cert < |raws| && (s.CheckAt? ==> s.verifier < |vs|)
  {
    match (c.parse)(raws[s.cert])
    case Failure(e) => Some(e)
    case Success(x) =>
      match s
      case ParseAt(_) => None
      case CheckAt(_, j) => (c.judge)(History(c, raws, vs, done), vs[j], x)
  }

  predicate Within(todo: seq<Slot>, n: nat, m: nat) {
    forall k :: 0 <= k < |todo| ==> todo[k].cert < n && (todo[k].CheckAt? ==> todo[k].verifier < m)
  }

  /** The actions of `todo` one after the other, up to the first error. */
  function RunFlat<R, X, V, E>(
    c: Crypto<R, X, V, E>, raws: seq<R>, vs: seq<V>, done: seq<Slot>, todo: seq<Slot>): (Option<E>, seq<Slot>)
    requires Within(todo, |raws|, |vs|)
    decreases |todo|
  {
    if todo == [] then (None, done)
    else
      var o := Outcome(c, raws, vs, done, todo[0]);
      if o.Some? then (o, done + [todo[0]])
      else RunFlat(c, raws, vs, done + [todo[0]], todo[1..])
  }

  lemma {:induction false} ScheduleWithin(i: nat, n: nat, m: nat)
    ensures Within(Schedule(i, n, m), n, m)
    decreases n - i
  {
    if i < n {
      ScheduleWithin(i + 1, n, m);
    }
  }

  lemma RunFlatStep<R, X, V, E>(
    c: Crypto<R, X, V, E>, raws: seq<R>, vs: seq<V>, done: seq<Slot>, s: Slot, rest: seq<Slot>)
    requires Within([s] + rest, |raws|, |vs|)
    ensures Within([s], |raws|, |vs|) && Within(rest, |raws|, |vs|)
    ensures s.cert < |raws| && (s.CheckAt? ==> s.verifier < |vs|)
    ensures var o := Outcome(c, raws, vs, done, s);
            RunFlat(c, raws, vs, done, [s] + rest) ==
              if o.Some? then (o, done + [s]) else RunFlat(c, raws, vs, done + [s], rest)
  {
    var todo := [s] + rest;
    assert todo[0] == s && todo[1..] == rest;
    forall k | 0 <= k < |rest| ensures rest[k] == todo[k + 1] {}
  }

  /** The inner loop: certificate number `i`, parsed, is shown to the verifiers in turn; `made`
      are the verifier calls so far.  `rest` is what comes after. */
  method CheckAll<R, X, V, E>(
    c: Crypto<R, X, V, E>, vs: seq<V>, rawCerts: seq<R>, i: nat, peerCert: X, before: seq<Slot>, made: seq<(V, X)>,
    ghost rest: seq<Slot>) returns (err: Option<E>, calls: seq<Slot>, made': seq<(V, X)>)
    requires i < |rawCerts| && (c.parse)(rawCerts[i]) == Success(peerCert)
    requires made == History(c, rawCerts, vs, before)
    requires Within(Checks(i, 0, |vs|) + rest, |rawCerts|, |vs|) && Within(rest, |rawCerts|, |vs|)
    ensures made' == History(c, rawCerts, vs, calls)
    ensures RunFlat(c, rawCerts, vs, before, Checks(i, 0, |vs|) + rest)
            == if err.Some? then (err, calls) else RunFlat(c, rawCerts, vs, calls, rest)
  {
    err, calls, made' := None, before, made;
    ghost var flat := RunFlat(c, rawCerts, vs, before, Checks(i, 0, |vs|) + rest);
    for j := 0 to |vs|
      invariant err.None?
      invariant made' == History(c, rawCerts, vs, calls)
      invariant Within(Checks(i, j, |vs|) + rest, |rawCerts|, |vs|)
      invariant RunFlat(c, rawCerts, vs, calls, Checks(i, j, |vs|) + rest) == flat
    {
      assert Checks(i, j, |vs|) + rest == [CheckAt(i, j)] + (Checks(i, j + 1, |vs|) + rest);
      RunFlatStep(c, rawCerts, vs, calls, CheckAt(i, j), Checks(i, j + 1, |vs|) + rest);
      HistoryStep(c, rawCerts, vs, calls, CheckAt(i, j));
      err := (c.judge)(made', vs[j], peerCert);
      calls, made' := calls + [CheckAt(i, j)], made' + [(vs[j], peerCert)];
      if err.Some? {
        return;
      }
    }
    assert Checks(i, |vs|, |vs|) + rest == rest;
  }

  /** The nested loops of VerifyPeerCertificate do the flat plan, action by action; `calls`
      records the actions as they happen, and `made` the verifier calls. */
  method VerifyPeerCertificate<R, X, V, E>(c: Crypto<R, X, V, E>, pvs: PeerVerifiers<V>, rawCerts: seq<R>)
    returns (err: Option<E>, calls: seq<Slot>, made: seq<(V, X)>)
    requires pvs.v.Valid()
    ensures (err, calls) == Execution(c, rawCerts, pvs.v.View())
    ensures InOrder(c, rawCerts, pvs.v.View(), made)
    ensures |made| == NumberOfChecks(calls)
  {
    var vs := pvs.v.View();
    var n, m := |rawCerts|, |vs|;
    ScheduleWithin(0, n, m);
    err, calls, made := None, [], [];
    if m == 0 {
      return;
    }
    ghost var flat := RunFlat(c, rawCerts, vs, [], Plan(n, m));
    for i := 0 to n
      invariant err.None?
      invariant made == History(c, rawCerts, vs, calls)
      invariant Within(Schedule(i, n, m), n, m)
      invariant RunFlat(c, rawCerts, vs, calls, Schedule(i, n, m)) == flat
    {
      ghost var rest := Schedule(i + 1, n, m);
      ScheduleWithin(i + 1, n, m);
      assert Schedule(i, n, m) == [ParseAt(i)] + (Checks(i, 0, m) + rest);
      RunFlatStep(c, rawCerts, vs, calls, ParseAt(i), Checks(i, 0, m) + rest);
      HistoryStep(c, rawCerts, vs, calls, ParseAt(i));
      var parsed := (c.parse)(rawCerts[i]);
      calls := calls + [ParseAt(i)];
      if parsed.Failure? {
        err := Some(parsed.error);
        CallsInOrder(c, rawCerts, vs);
        return;
      }
      err, calls, made := CheckAll(c, vs, rawCerts, i, parsed.value, calls, made, rest);
      if err.Some? {
        CallsInOrder(c, rawCerts, vs);
        return;
      }
    }
    CallsInOrder(c, rawCerts, vs);
  }

  // ---------- What the plan and its execution mean ----------

  /** What verification returns and the actions it does. */
  function Execution<R, X, V, E>(c: Crypto<R, X, V, E>, raws: seq<R>, vs: seq<V>): (Option<E>, seq<Slot>) {
    ScheduleWithin(0, |raws|, |vs|);
    RunFlat(c, raws, vs, [], Plan(|raws|, |vs|))
  }

  /** The place of an action in certificate-major order. */
  function Rank(s: Slot, m: nat): nat {
    s.cert * (m + 1) + if s.CheckAt? then 1 + s.verifier else 0
  }

  /** The plan has every certificate's parse and every pair of certificate and verifier exactly
      once, certificates first and verifiers in order within each. */
  lemma {:induction false} ScheduleIsLexicographic(i: nat, n: nat, m: nat)
    requires i <= n
    ensures |Schedule(i, n, m)| == (n - i) * (m + 1)
    ensures forall k :: 0 <= k < |Schedule(i, n, m)| ==> Rank(Schedule(i, n, m)[k], m) == i * (m + 1) + k
    decreases n - i
  {
    if i < n {
      var first := [ParseAt(i)] + Checks(i, 0, m);
      var rest := Schedule(i + 1, n, m);
      ScheduleIsLexicographic(i + 1, n, m);
      assert (n - i) * (m + 1) == (m + 1) + (n - (i + 1)) * (m + 1);
      assert (i + 1) * (m + 1) == i * (m + 1) + (m + 1);
      forall k | 0 <= k < |Schedule(i, n, m)|
        ensures Rank(Schedule(i, n, m)[k], m) == i * (m + 1) + k
      {
        if k <= m {
          assert Schedule(i, n, m)[k] == first[k];
        } else {
          assert Schedule(i, n, m)[k] == rest[k - (m + 1)];
        }
      }
    }
  }

  /** Execution: the actions done are the front of the plan; all but the last went well; the
      last failed exactly when there is an error, which is then its error; and without an
      error the whole plan was done. */
  ghost predicate StopsAtFirstFailure<R, X, V, E>(
    c: Crypto<R, X, V, E>, raws: seq<R>, vs: seq<V>, plan: seq<Slot>, err: Option<E>, calls: seq<Slot>)
    requires Within(plan, |raws|, |vs|)
  {
    && calls <= plan
    && (forall k :: 0 <= k < |calls| - 1 ==> Outcome(c, raws, vs, calls[..k], plan[k]).None?)
    && (calls != [] ==> Outcome(c, raws, vs, calls[..|calls| - 1], plan[|calls| - 1]) == err)
    && (err.None? ==> calls == plan)
    && (err.Some? ==> calls != [])
  }

  lemma {:induction false} RunFlatStops<R, X, V, E>(
    c: Crypto<R, X, V, E>, raws: seq<R>, vs: seq<V>, done: seq<Slot>, todo: seq<Slot>)
    requires Within(done + todo, |raws|, |vs|) && Within(todo, |raws|, |vs|)
    requires forall k :: 0 <= k < |done| ==> Outcome(c, raws, vs, done[..k], (done + todo)[k]).None?
    ensures var r := RunFlat(c, raws, vs, done, todo);
            StopsAtFirstFailure(c, raws, vs, done + todo, r.0, r.1)
    decreases |todo|
  {
    var plan := done + todo;
    if todo == [] {
      assert plan == done;
    } else {
      var done' := done + [todo[0]];
      assert done' + todo[1..] == plan;
      assert plan[|done|] == todo[0];
      assert done'[..|done|] == done;
      if Outcome(c, raws, vs, done, todo[0]).None? {
        forall k | 0 <= k < |done'| ensures Outcome(c, raws, vs, done'[..k], plan[k]).None? {
          if k < |done| { assert done'[..k] == done[..k]; }
        }
        RunFlatStops(c, raws, vs, done', todo[1..]);
      } else {
        forall k | 0 <= k < |done'| - 1 ensures Outcome(c, raws, vs, done'[..k], plan[k]).None? {
          assert done'[..k] == done[..k];
        }
      }
    }
  }

  /** Which calls VerifyPeerCertificate makes and what it returns, also for verifiers that
      keep state: the plan, up to the first failure and no further. */
  lemma VerificationStops<R, X, V, E>(c: Crypto<R, X, V, E>, raws: seq<R>, vs: seq<V>)
    ensures Within(Plan(|raws|, |vs|), |raws|, |vs|)
    ensures var r := Execution(c, raws, vs);
            StopsAtFirstFailure(c, raws, vs, Plan(|raws|, |vs|), r.0, r.1)
  {
    ScheduleWithin(0, |raws|, |vs|);
    assert [] + Plan(|raws|, |vs|) == Plan(|raws|, |vs|);
    RunFlatStops(c, raws, vs, [], Plan(|raws|, |vs|));
  }

  /** That says all there is to say: it leaves no choice of error or of calls. */
  lemma StopsDetermines<R, X, V, E>(
    c: Crypto<R, X, V, E>, raws: seq<R>, vs: seq<V>, plan: seq<Slot>,
    e1: Option<E>, calls1: seq<Slot>, e2: Option<E>, calls2: seq<Slot>)
    requires Within(plan, |raws|, |vs|)
    requires StopsAtFirstFailure(c, raws, vs, plan, e1, calls1)
    requires StopsAtFirstFailure(c, raws, vs, plan, e2, calls2)
    ensures e1 == e2 && calls1 == calls2
  {
    assert calls1 == plan[..|calls1|] && calls2 == plan[..|calls2|];
    assert calls1 != [] ==> calls1[..|calls1| - 1] == plan[..|calls1| - 1];
    assert calls2 != [] ==> calls2[..|calls2| - 1] == plan[..|calls2| - 1];
    assert forall k :: 0 <= k < |calls1| - 1 ==> calls1[..k] == plan[..k];
    assert forall k :: 0 <= k < |calls2| - 1 ==> calls2[..k] == plan[..k];
  }

  // ---------- What a verifier knows of the calls before ----------

  lemma HistoryStep<R, X, V, E>(c: Crypto<R, X, V, E>, raws: seq<R>, vs: seq<V>, done: seq<Slot>, s: Slot)
    requires s.cert < |raws| && (s.CheckAt? ==> s.verifier < |vs|)
    ensures var h, parsed := History(c, raws, vs, done), (c.parse)(raws[s.cert]);
            History(c, raws, vs, done + [s]) ==
              if s.CheckAt? && parsed.Success? then h + [(vs[s.verifier], parsed.value)] else h
  {
    assert (done + [s])[..|done|] == done;
  }

  /** Verifier calls in certificate-major order: call number `t` shows certificate `t / m`, as
      it was parsed, to verifier `t % m`. */
  ghost predicate InOrder<R, X, V, E>(c: Crypto<R, X, V, E>, raws: seq<R>, vs: seq<V>, made: seq<(V, X)>) {
    forall t :: 0 <= t < |made| ==>
      && vs != [] && t / |vs| < |raws|
      && made[t].0 == vs[t % |vs|]
      && (c.parse)(raws[t / |vs|]) == Success(made[t].1)
  }

  /** How many verifier calls come before an action of the plan. */
  function CallsBefore(s: Slot, m: nat): nat {
    s.cert * m + if s.CheckAt? then s.verifier else 0
  }

  function NumberOfChecks(calls: seq<Slot>): nat {
    if calls == [] then 0
    else NumberOfChecks(calls[..|calls| - 1]) + if calls[|calls| - 1].CheckAt? then 1 else 0
  }

  lemma MulMonotone(a: nat, b: nat, w: nat)
    requires a <= b
    ensures a * w <= b * w
  {
  }

  /** A place in a table of rows of width `w` has one row and one column. */
  lemma SamePlace(a: nat, x: nat, b: nat, y: nat, w: nat)
    requires x < w && y < w && a * w + x == b * w + y
    ensures a == b && x == y
  {
    if a < b {
      MulMonotone(a + 1, b, w);
    } else if b < a {
      MulMonotone(b + 1, a, w);
    }
  }

  lemma QuotientAndRemainder(i: nat, j: nat, m: nat)
    requires j < m
    ensures (i * m + j) / m == i && (i * m + j) % m == j
  {
    var t := i * m + j;
    SamePlace(t / m, t % m, i, j, m);
  }

  lemma NextAction(a: Slot, b: Slot, m: nat)
    requires Rank(b, m) == Rank(a, m) + 1
    requires (a.CheckAt? ==> a.verifier < m) && (b.CheckAt? ==> b.verifier < m)
    ensures CallsBefore(b, m) == CallsBefore(a, m) + if a.CheckAt? then 1 else 0
  {
    var x, y := if a.CheckAt? then 1 + a.verifier else 0, if b.CheckAt? then 1 + b.verifier else 0;
    if x < m {
      SamePlace(b.cert, y, a.cert, x + 1, m + 1);
    } else {
      SamePlace(b.cert, y, a.cert + 1, 0, m + 1);
    }
  }

  /** The certificate of a verifier call was parsed earlier in the plan. */
  lemma ParsedBefore(n: nat, m: nat, k: nat)
    requires k < |Plan(n, m)| && Plan(n, m)[k].CheckAt?
    ensures var s := Plan(n, m)[k];
            s.verifier < k && Plan(n, m)[k - 1 - s.verifier] == ParseAt(s.cert)
  {
    var s := Plan(n, m)[k];
    ScheduleIsLexicographic(0, n, m);
    ScheduleWithin(0, n, m);
    var r := Plan(n, m)[k - 1 - s.verifier];
    assert Rank(r, m) == s.cert * (m + 1);
    SamePlace(r.cert, if r.CheckAt? then 1 + r.verifier else 0, s.cert, 0, m + 1);
  }

  /** Before action `k` of the plan, when every certificate so far has parsed. */
  lemma {:induction false} HistoryOfPlan<R, X, V, E>(c: Crypto<R, X, V, E>, raws: seq<R>, vs: seq<V>, k: nat)
    requires var plan := Plan(|raws|, |vs|);
             && k <= |plan| && Within(plan, |raws|, |vs|)
             && forall t :: 0 <= t < k ==> (c.parse)(raws[plan[t].cert]).Success?
    ensures var plan := Plan(|raws|, |vs|);
            var h := History(c, raws, vs, plan[..k]);
            && InOrder(c, raws, vs, h)
            && |h| == NumberOfChecks(plan[..k])
            && (k < |plan| ==> |h| == CallsBefore(plan[k], |vs|))
  {
    var n, m := |raws|, |vs|;
    var plan := Plan(n, m);
    ScheduleIsLexicographic(0, n, m);
    if k == 0 {
      if plan != [] {
        assert Rank(plan[0], m) == 0;
        assert plan[0].cert == 0;
      }
    } else {
      var s := plan[k - 1];
      HistoryOfPlan(c, raws, vs, k - 1);
      var h := History(c, raws, vs, plan[..k - 1]);
      assert plan[..k] == plan[..k - 1] + [s];
      HistoryStep(c, raws, vs, plan[..k - 1], s);
      if s.CheckAt? {
        OneMoreInOrder(c, raws, vs, h, s.cert, s.verifier);
      }
      if k < |plan| {
        NextAction(s, plan[k], m);
      }
    }
  }

  lemma OneMoreInOrder<R, X, V, E>(
    c: Crypto<R, X, V, E>, raws: seq<R>, vs: seq<V>, made: seq<(V, X)>, i: nat, j: nat)
    requires InOrder(c, raws, vs, made) && i < |raws| && j < |vs| && |made| == i * |vs| + j
    requires (c.parse)(raws[i]).Success?
    ensures InOrder(c, raws, vs, made + [(vs[j], (c.parse)(raws[i]).value)])
  {
    QuotientAndRemainder(i, j, |vs|);
  }

  /** Every certificate parsed before the last action, and at it too if that is a verifier call. */
  lemma AllParsed<R, X, V, E>(c: Crypto<R, X, V, E>, raws: seq<R>, vs: seq<V>, k: nat)
    requires k < |Execution(c, raws, vs).1|
    ensures Execution(c, raws, vs).1 <= Plan(|raws|, |vs|) && Within(Plan(|raws|, |vs|), |raws|, |vs|)
    ensures var s := Plan(|raws|, |vs|)[k];
            k < |Execution(c, raws, vs).1| - 1 || s.CheckAt? ==> (c.parse)(raws[s.cert]).Success?
  {
    VerificationStops(c, raws, vs);
    var plan := Plan(|raws|, |vs|);
    if plan[k].CheckAt? {
      ParsedBefore(|raws|, |vs|, k);
      var parse := k - 1 - plan[k].verifier;
      assert Outcome(c, raws, vs, Execution(c, raws, vs).1[..parse], plan[parse]).None?;
    }
  }

  /** The certificates that the first `n` verifier calls need have parsed. */
  ghost predicate ParsedFor<R, X, V, E>(c: Crypto<R, X, V, E>, raws: seq<R>, vs: seq<V>, n: nat)
    requires vs != []
  {
    forall t :: 0 <= t < n ==> t / |vs| < |raws| && (c.parse)(raws[t / |vs|]).Success?
  }

  /** The first `n` verifier calls. */
  ghost function FirstCalls<R, X, V, E>(c: Crypto<R, X, V, E>, raws: seq<R>, vs: seq<V>, n: nat): seq<(V, X)>
    requires vs != [] && ParsedFor(c, raws, vs, n)
  {
    seq(n, t requires 0 <= t < n => (vs[t % |vs|], (c.parse)(raws[t / |vs|]).value))
  }

  lemma InOrderIs<R, X, V, E>(c: Crypto<R, X, V, E>, raws: seq<R>, vs: seq<V>, made: seq<(V, X)>)
    requires InOrder(c, raws, vs, made) && vs != []
    ensures ParsedFor(c, raws, vs, |made|) && made == FirstCalls(c, raws, vs, |made|)
  {
    forall t | 0 <= t < |made| ensures t / |vs| < |raws| && (c.parse)(raws[t / |vs|]) == Success(made[t].1) {
      assert made[t].0 == vs[t % |vs|];
    }
  }

  lemma OutcomeInContext<R, X, V, E>(c: Crypto<R, X, V, E>, raws: seq<R>, vs: seq<V>, k: nat) returns (h: seq<(V, X)>)
    requires k < |Execution(c, raws, vs).1| && Execution(c, raws, vs).1[k].CheckAt?
    ensures var (err, calls) := Execution(c, raws, vs);
            var i, j := calls[k].cert, calls[k].verifier;
            && i < |raws| && j < |vs| && (c.parse)(raws[i]).Success?
            && InOrder(c, raws, vs, h) && |h| == i * |vs| + j
            && (c.judge)(h, vs[j], (c.parse)(raws[i]).value) == if k == |calls| - 1 then err else None
  {
    var (err, calls) := Execution(c, raws, vs);
    var plan := Plan(|raws|, |vs|);
    VerificationStops(c, raws, vs);
    assert calls[k] == plan[k] && calls[..k] == plan[..k];
    forall t | 0 <= t <= k ensures (c.parse)(raws[plan[t].cert]).Success? {
      AllParsed(c, raws, vs, t);
    }
    HistoryOfPlan(c, raws, vs, k);
    h := History(c, raws, vs, plan[..k]);
  }

  /** What happens at a verifier call, with verifiers that keep state: verifier `j` is asked
      about certificate `i` after the calls for all verifiers and all certificates before, and
      for the verifiers before it on this one, and no others.  Each answer but the last is that
      there is no error, and the last is the result. */
  lemma CheckInContext<R, X, V, E>(c: Crypto<R, X, V, E>, raws: seq<R>, vs: seq<V>, k: nat, i: nat, j: nat)
    requires k < |Execution(c, raws, vs).1| && Execution(c, raws, vs).1[k] == CheckAt(i, j)
    ensures i < |raws| && j < |vs| && (c.parse)(raws[i]).Success?
    ensures ParsedFor(c, raws, vs, i * |vs| + j)
    ensures (c.judge)(FirstCalls(c, raws, vs, i * |vs| + j), vs[j], (c.parse)(raws[i]).value) ==
            if k == |Execution(c, raws, vs).1| - 1 then Execution(c, raws, vs).0 else None
  {
    var h := OutcomeInContext(c, raws, vs, k);
    InOrderIs(c, raws, vs, h);
  }

  /** What happens at a parse: the certificate parses, or its error is the result. */
  lemma ParseInContext<R, X, V, E>(c: Crypto<R, X, V, E>, raws: seq<R>, vs: seq<V>, k: nat, i: nat)
    requires k < |Execution(c, raws, vs).1| && Execution(c, raws, vs).1[k] == ParseAt(i)
    ensures i < |raws|
    ensures var (err, calls) := Execution(c, raws, vs);
            if k == |calls| - 1 && err.Some? then (c.parse)(raws[i]) == Failure(err.value)
            else (c.parse)(raws[i]).Success?
  {
    VerificationStops(c, raws, vs);
    var calls := Execution(c, raws, vs).1;
    assert calls[k] == Plan(|raws|, |vs|)[k] && calls[..k] == Plan(|raws|, |vs|)[..k];
  }

  lemma CallsInOrder<R, X, V, E>(c: Crypto<R, X, V, E>, raws: seq<R>, vs: seq<V>)
    ensures var calls := Execution(c, raws, vs).1;
            InOrder(c, raws, vs, History(c, raws, vs, calls))
            && |History(c, raws, vs, calls)| == NumberOfChecks(calls)
  {
    VerificationStops(c, raws, vs);
    var calls, plan := Execution(c, raws, vs).1, Plan(|raws|, |vs|);
    var k := |calls|;
    assert calls == plan[..k];
    if k > 0 {
      forall t | 0 <= t < k - 1 ensures (c.parse)(raws[plan[t].cert]).Success? {
        AllParsed(c, raws, vs, t);
      }
      AllParsed(c, raws, vs, k - 1);
      if (c.parse)(raws[plan[k - 1].cert]).Success? {
        HistoryOfPlan(c, raws, vs, k);
      } else {
        HistoryOfPlan(c, raws, vs, k - 1);
        assert calls == plan[..k - 1] + [plan[k - 1]];
        HistoryStep(c, raws, vs, plan[..k - 1], plan[k - 1]);
        assert calls[..k - 1] == plan[..k - 1];
      }
    }
  }

  // ---------- Verifiers without state ----------

  function Verdict<R, X, V, E>(c: Crypto<R, X, V, E>, raws: seq<R>, vs: seq<V>): Option<E> {
    Execution(c, raws, vs).0
  }

  /** Each answer depends on the certificate alone. */
  ghost predicate Stateless<R, X(!new), V(!new), E>(c: Crypto<R, X, V, E>) {
    forall h: seq<(V, X)>, v: V, x: X :: (c.judge)(h, v, x) == (c.judge)([], v, x)
  }

  ghost predicate CertPasses<R, X, V, E>(c: Crypto<R, X, V, E>, raw: R, vs: seq<V>) {
    && (c.parse)(raw).Success?
    && forall j :: 0 <= j < |vs| ==> (c.judge)([], vs[j], (c.parse)(raw).value).None?
  }

  /** The first complaint of stateless verifiers about a certificate. */
  function Complaint<R, X, V, E>(c: Crypto<R, X, V, E>, vs: seq<V>, x: X): Option<E> {
    if vs == [] then None else Either((c.judge)([], vs[0], x), Complaint(c, vs[1..], x))
  }

  function CertError<R, X, V, E>(c: Crypto<R, X, V, E>, raw: R, vs: seq<V>): Option<E> {
    match (c.parse)(raw)
    case Failure(e) => Some(e)
    case Success(x) => Complaint(c, vs, x)
  }

  /** The error of the first certificate that has one. */
  function FirstError<R, X, V, E>(c: Crypto<R, X, V, E>, raws: seq<R>, vs: seq<V>): Option<E> {
    if raws == [] then None else Either(CertError(c, raws[0], vs), FirstError(c, raws[1..], vs))
  }

  /** The first certificate that has an error, or their number. */
  function FirstBad<R, X, V, E>(c: Crypto<R, X, V, E>, raws: seq<R>, vs: seq<V>): nat {
    if raws == [] || CertError(c, raws[0], vs).Some? then 0 else 1 + FirstBad(c, raws[1..], vs)
  }

  lemma {:induction false} FlatChecks<R, X(!new), V(!new), E>(
    c: Crypto<R, X, V, E>, raws: seq<R>, vs: seq<V>, done: seq<Slot>, i: nat, j: nat, rest: seq<Slot>)
    returns (done': seq<Slot>)
    requires Stateless(c) && i < |raws| && j <= |vs| && (c.parse)(raws[i]).Success?
    requires Within(Checks(i, j, |vs|) + rest, |raws|, |vs|) && Within(rest, |raws|, |vs|)
    ensures RunFlat(c, raws, vs, done, Checks(i, j, |vs|) + rest).0 ==
            Either(Complaint(c, vs[j..], (c.parse)(raws[i]).value), RunFlat(c, raws, vs, done', rest).0)
    decreases |vs| - j
  {
    done' := done;
    if j < |vs| {
      var next := Checks(i, j + 1, |vs|) + rest;
      assert Checks(i, j, |vs|) + rest == [CheckAt(i, j)] + next;
      RunFlatStep(c, raws, vs, done, CheckAt(i, j), next);
      assert vs[j..][1..] == vs[j + 1..];
      done' := FlatChecks(c, raws, vs, done + [CheckAt(i, j)], i, j + 1, rest);
    } else {
      assert Checks(i, j, |vs|) + rest == rest;
    }
  }

  lemma {:induction false} FlatCertificates<R, X(!new), V(!new), E>(
    c: Crypto<R, X, V, E>, raws: seq<R>, vs: seq<V>, done: seq<Slot>, i: nat)
    requires Stateless(c) && i <= |raws|
    ensures Within(Schedule(i, |raws|, |vs|), |raws|, |vs|)
    ensures RunFlat(c, raws, vs, done, Schedule(i, |raws|, |vs|)).0 == FirstError(c, raws[i..], vs)
    decreases |raws| - i
  {
    ScheduleWithin(i, |raws|, |vs|);
    if i < |raws| {
      var rest := Schedule(i + 1, |raws|, |vs|);
      ScheduleWithin(i + 1, |raws|, |vs|);
      assert Schedule(i, |raws|, |vs|) == [ParseAt(i)] + (Checks(i, 0, |vs|) + rest);
      RunFlatStep(c, raws, vs, done, ParseAt(i), Checks(i, 0, |vs|) + rest);
      assert raws[i..][1..] == raws[i + 1..];
      if (c.parse)(raws[i]).Success? {
        var done' := FlatChecks(c, raws, vs, done + [ParseAt(i)], i, 0, rest);
        assert vs[0..] == vs;
        FlatCertificates(c, raws, vs, done', i + 1);
      }
    }
  }

  /** What stateless verifiers return: the error of the first certificate that has one - of its
      parse, or of the first verifier that complains about it. */
  lemma VerdictIsFirstError<R, X(!new), V(!new), E>(c: Crypto<R, X, V, E>, raws: seq<R>, vs: seq<V>)
    requires Stateless(c)
    ensures Verdict(c, raws, vs) == if vs == [] then None else FirstError(c, raws, vs)
  {
    if vs != [] {
      assert raws[0..] == raws;
      FlatCertificates(c, raws, vs, [], 0);
    }
  }

  lemma {:induction false} NoComplaint<R, X, V, E>(c: Crypto<R, X, V, E>, vs: seq<V>, x: X)
    ensures Complaint(c, vs, x).None? <==> forall j :: 0 <= j < |vs| ==> (c.judge)([], vs[j], x).None?
  {
    if vs != [] {
      NoComplaint(c, vs[1..], x);
      assert forall j :: 0 < j < |vs| ==> vs[j] == vs[1..][j - 1];
    }
  }

  lemma {:induction false} NoError<R, X, V, E>(c: Crypto<R, X, V, E>, raws: seq<R>, vs: seq<V>)
    ensures FirstError(c, raws, vs).None? <==> forall i :: 0 <= i < |raws| ==> CertPasses(c, raws[i], vs)
  {
    if raws != [] {
      NoError(c, raws[1..], vs);
      assert forall i :: 0 < i < |raws| ==> raws[i] == raws[1..][i - 1];
      if (c.parse)(raws[0]).Success? {
        NoComplaint(c, vs, (c.parse)(raws[0]).value);
      }
      assert CertError(c, raws[0], vs).None? <==> CertPasses(c, raws[0], vs);
    }
  }

  /** Stateless verifiers accept a chain exactly when there are none, or every certificate
      parses and every verifier accepts it. */
  lemma AcceptsIff<R, X(!new), V(!new), E>(c: Crypto<R, X, V, E>, raws: seq<R>, vs: seq<V>)
    requires Stateless(c)
    ensures Verdict(c, raws, vs).None? <==>
            vs == [] || forall i :: 0 <= i < |raws| ==> CertPasses(c, raws[i], vs)
  {
    VerdictIsFirstError(c, raws, vs);
    NoError(c, raws, vs);
  }

  lemma {:induction false} ComplaintConcat<R, X, V, E>(c: Crypto<R, X, V, E>, a: seq<V>, b: seq<V>, x: X)
    ensures Complaint(c, a + b, x) == Either(Complaint(c, a, x), Complaint(c, b, x))
  {
    if a == [] {
      assert a + b == b;
    } else {
      assert (a + b)[1..] == a[1..] + b;
      ComplaintConcat(c, a[1..], b, x);
    }
  }

  lemma {:induction false} FirstErrorConcat<R, X, V, E>(c: Crypto<R, X, V, E>, raws: seq<R>, a: seq<V>, b: seq<V>)
    ensures FirstError(c, raws, a + b) ==
            if FirstBad(c, raws, a) <= FirstBad(c, raws, b) then FirstError(c, raws, a) else FirstError(c, raws, b)
  {
    if raws != [] {
      FirstErrorConcat(c, raws[1..], a, b);
      if (c.parse)(raws[0]).Success? {
        ComplaintConcat(c, a, b, (c.parse)(raws[0]).value);
      }
    }
  }

  /** Extend does not run one sequence after the other: the error is that of the part which
      fails at the earlier certificate, the first part's when both fail at the same one. */
  lemma ExtendError<R, X(!new), V(!new), E>(c: Crypto<R, X, V, E>, raws: seq<R>, a: seq<V>, b: seq<V>)
    requires Stateless(c) && a != [] && b != []
    ensures Verdict(c, raws, a + b) ==
            if FirstBad(c, raws, a) <= FirstBad(c, raws, b) then Verdict(c, raws, a) else Verdict(c, raws, b)
  {
    VerdictIsFirstError(c, raws, a);
    VerdictIsFirstError(c, raws, b);
    VerdictIsFirstError(c, raws, a + b);
    FirstErrorConcat(c, raws, a, b);
  }

  /** Extend is conjunction: the joined sequence accepts what both of its parts accept, even
      when a part is empty and so would not have parsed anything by itself. */
  lemma ExtendIsConjunction<R, X(!new), V(!new), E>(c: Crypto<R, X, V, E>, raws: seq<R>, a: seq<V>, b: seq<V>)
    requires Stateless(c)
    ensures Verdict(c, raws, a + b).None? <==> Verdict(c, raws, a).None? && Verdict(c, raws, b).None?
  {
    if a == [] {
      assert a + b == b;
    } else if b == [] {
      assert a + b == a;
    } else {
      VerdictIsFirstError(c, raws, a);
      VerdictIsFirstError(c, raws, b);
      VerdictIsFirstError(c, raws, a + b);
      FirstErrorConcat(c, raws, a, b);
      BadMeansError(c, raws, a);
      BadMeansError(c, raws, b);
    }
  }

  lemma {:induction false} BadMeansError<R, X, V, E>(c: Crypto<R, X, V, E>, raws: seq<R>, vs: seq<V>)
    ensures FirstBad(c, raws, vs) <= |raws|
    ensures FirstError(c, raws, vs).Some? <==> FirstBad(c, raws, vs) < |raws|
  {
    if raws != [] {
      BadMeansError(c, raws[1..], vs);
    }
  }
}
