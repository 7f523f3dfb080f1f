/** `arrangehttp/middleware.go`. */
module Middlewares {

  /** `t` decorated by all of `m`, the first of them outermost. */
  function Chain<T>(t: T, m: seq<T -> T>): T {
    if m == [] then t else m[0](Chain(t, m[1..]))
  }

  method ApplyMiddleware<T>(t: T, m: seq<T -> T>) returns (r: T)
    ensures r == Chain(t, m)
  {
    r := t;
    var i := |m| - 1;
    while i >= 0
      invariant -1 <= i < |m|
      invariant r == Chain(t, m[i + 1..])
    {
      r := m[i](r);
      assert m[i..][1..] == m[i + 1..];
      i := i - 1;
    }
  }

  /** Decorating in two stages is decorating once; the later stage is the outer one. */
  lemma {:induction false} ChainStages<T>(t: T, outer: seq<T -> T>, inner: seq<T -> T>)
    ensures Chain(Chain(t, inner), outer) == Chain(t, outer + inner)
  {
    if outer == [] {
      assert outer + inner == inner;
    } else {
      assert (outer + inner)[1..] == outer[1..] + inner;
      ChainStages(t, outer[1..], inner);
    }
  }

  /** A decorator that records its name and then calls what it decorates. */
  function Recorder(name: int): seq<int> -> seq<int> {
    (calls: seq<int>) => [name] + calls
  }

  /** Middleware executes in the order declared, before what it decorates. */
  lemma {:induction false} ExecutesInOrder(calls: seq<int>, names: seq<int>)
    ensures Chain(calls, seq(|names|, i requires 0 <= i < |names| => Recorder(names[i]))) == names + calls
  {
    var m := seq(|names|, i requires 0 <= i < |names| => Recorder(names[i]));
    if names == [] {
      assert names + calls == calls;
    } else {
      var rest := names[1..];
      ExecutesInOrder(calls, rest);
      assert m[1..] == seq(|rest|, i requires 0 <= i < |rest| => Recorder(rest[i]));
      assert m[0] == Recorder(names[0]);
      assert names + calls == [names[0]] + (rest + calls);
    }
  }
}
