/** `arrangehttp/serverOption.go`: the options that set up an http.Server.

    H is what serves requests, C a context, N a connection and L a listener. */
module ServerOptions {
  import opened Wrappers
  import opened Errors
  import opened Reflect
  import opened Middlewares
  import opened Options

  type Decorator<!H> = Value<H> -> Value<H>

  /** The fields of http.Server that options write; loggers and state hooks are named by number. */
  datatype Server<!H, !C, !N, !L> = Server(
    addr: string,
    handler: Value<H>,
    baseContext: Option<L -> C>,
    connContext: Option<(C, N) -> C>,
    connState: Option<int>,
    errorLog: Option<int>)

  /** http.DefaultServeMux and context.Background(). */
  datatype Library<!H, !C> = Library(mux: Value<H>, background: C)

  datatype ServerOption<!H, !C, !N, !L> =
    | ConnState(fn: int)
    | ErrorLog(log: int)
    | BaseContext(baseFns: seq<(C, L) -> C>)
    | ConnContext(connFns: seq<(C, N) -> C>)
    | ServerMiddleware(fns: seq<Decorator<H>>)
    | Invalid(err: Error)

  // ---------- The context functions ----------

  /** A context handed from function to function; X is a listener or a connection. */
  function Fold<C, X>(fns: seq<(C, X) -> C>, ctx: C, x: X): C {
    if fns == [] then ctx else Fold(fns[1..], fns[0](ctx, x), x)
  }

  /** The contexts on the way: the first is `start`, and function number `k` makes the next one
      out of number `k`. */
  ghost predicate HandedOn<C, X>(fns: seq<(C, X) -> C>, start: C, x: X, ctxs: seq<C>) {
    && |ctxs| == |fns| + 1 && ctxs[0] == start
    && forall k :: 0 <= k < |fns| ==> ctxs[k + 1] == fns[k](ctxs[k], x)
  }

  /** The functions run from the first to the last, each on what the one before returned. */
  lemma {:induction false} FoldHandsOn<C, X>(fns: seq<(C, X) -> C>, start: C, x: X, ctxs: seq<C>)
    requires HandedOn(fns, start, x, ctxs)
    ensures Fold(fns, start, x) == ctxs[|fns|]
  {
    if fns != [] {
      forall k | 0 <= k < |fns| - 1 ensures ctxs[1..][k + 1] == fns[1..][k](ctxs[1..][k], x) {
        assert ctxs[k + 2] == fns[k + 1](ctxs[k + 1], x);
      }
      FoldHandsOn(fns[1..], ctxs[1], x, ctxs[1..]);
    }
  }

  /** `baseContextFuncs.build`. */
  method BuildBase<C, L>(background: C, bcf: seq<(C, L) -> C>, l: L) returns (ctx: C, ghost ctxs: seq<C>)
    ensures ctx == Fold(bcf, background, l)
    ensures HandedOn(bcf, background, l, ctxs) && ctx == ctxs[|bcf|]
  {
    ctx := background;
    ctxs := [background];
    for i := 0 to |bcf|
      invariant HandedOn(bcf[..i], background, l, ctxs) && ctx == ctxs[i]
    {
      ctx := bcf[i](ctx, l);
      ctxs := ctxs + [ctx];
    }
    assert bcf[..|bcf|] == bcf;
    FoldHandsOn(bcf, background, l, ctxs);
  }

  /** `connContextFuncs.build`. */
  method BuildConn<C, N>(ccf: seq<(C, N) -> C>, start: C, c: N) returns (ctx: C, ghost ctxs: seq<C>)
    ensures ctx == Fold(ccf, start, c)
    ensures HandedOn(ccf, start, c, ctxs) && ctx == ctxs[|ccf|]
  {
    ctx := start;
    ctxs := [start];
    for i := 0 to |ccf|
      invariant HandedOn(ccf[..i], start, c, ctxs) && ctx == ctxs[i]
    {
      ctx := ccf[i](ctx, c);
      ctxs := ctxs + [ctx];
    }
    assert ccf[..|ccf|] == ccf;
    FoldHandsOn(ccf, start, c, ctxs);
  }

  // ---------- The effect of one option ----------

  function Effect<H, C, N, L>(lib: Library<H, C>, o: ServerOption<H, C, N, L>, s: Server<H, C, N, L>)
    : Server<H, C, N, L>
  {
    match o
    case ConnState(fn) => s.(connState := Some(fn))
    case ErrorLog(log) => s.(errorLog := Some(log))
    case BaseContext(fns) =>
      if fns == [] then s else s.(baseContext := Some((l: L) => Fold(fns, lib.background, l)))
    case ConnContext(fns) =>
      if fns == [] then s
      else
        var ccf := (if s.connContext.Some? then [s.connContext.value] else []) + fns;
        s.(connContext := Some((ctx: C, c: N) => Fold(ccf, ctx, c)))
    case ServerMiddleware(fns) => s.(handler := Chain(Defaulted(s.handler, lib.mux), fns))
    case Invalid(_) => s
  }

  /** The option value each constructor of this package returns. */
  function AsOpt<H, C, N, L>(lib: Library<H, C>, o: ServerOption<H, C, N, L>): Opt<Server<H, C, N, L>> {
    match o
    case Invalid(err) => InvalidOption(Some(err))
    case _ => AsOption(Modifier(false, (s: Server<H, C, N, L>) => Effect(lib, o, s)))
  }

  function AsOpts<H, C, N, L>(lib: Library<H, C>, opts: seq<ServerOption<H, C, N, L>>)
    : (r: seq<Opt<Server<H, C, N, L>>>)
  {
    if opts == [] then [] else [AsOpt(lib, opts[0])] + AsOpts(lib, opts[1..])
  }

  // The bodies of the option closures.

  method ApplyBaseContext<H, C, N, L>(lib: Library<H, C>, ctxFns: seq<(C, L) -> C>, s: Ref<Server<H, C, N, L>>)
    modifies s
    ensures s.value == Effect(lib, BaseContext(ctxFns), old(s.value))
  {
    if |ctxFns| > 0 {
      var bcf := [];
      bcf := bcf + ctxFns;
      assert bcf == ctxFns;
      s.value := s.value.(baseContext := Some((l: L) => Fold(bcf, lib.background, l)));
    }
  }

  method ApplyConnContext<H, C, N, L>(lib: Library<H, C>, ctxFns: seq<(C, N) -> C>, s: Ref<Server<H, C, N, L>>)
    modifies s
    ensures s.value == Effect(lib, ConnContext(ctxFns), old(s.value))
  {
    if |ctxFns| == 0 {
      return;
    }
    var ccf: seq<(C, N) -> C> := [];
    if s.value.connContext.Some? {
      ccf := ccf + [s.value.connContext.value];
    }
    ccf := ccf + ctxFns;
    assert ccf == (if s.value.connContext.Some? then [s.value.connContext.value] else []) + ctxFns;
    s.value := s.value.(connContext := Some((ctx: C, c: N) => Fold(ccf, ctx, c)));
  }

  method ApplyServerMiddleware<H, C, N, L>(lib: Library<H, C>, fns: seq<Decorator<H>>, s: Ref<Server<H, C, N, L>>)
    modifies s
    ensures s.value == Effect(lib, ServerMiddleware(fns), old(s.value))
  {
    var h := Safe(s.value.handler, lib.mux);
    h := ApplyMiddleware(h, fns);
    s.value := s.value.(handler := h);
  }

  // ---------- A list of options ----------

  /** The server after all options, the last element of the list applied last. */
  function After<H, C, N, L>(lib: Library<H, C>, opts: seq<ServerOption<H, C, N, L>>, s: Server<H, C, N, L>)
    : Server<H, C, N, L>
  {
    if opts == [] then s
    else Effect(lib, opts[|opts| - 1], After(lib, opts[..|opts| - 1], s))
  }

  function Failures<H, C, N, L>(opts: seq<ServerOption<H, C, N, L>>): seq<Single> {
    if opts == [] then []
    else (if opts[0].Invalid? then List(Some(opts[0].err)) else []) + Failures(opts[1..])
  }

  lemma {:induction false} AfterConcat<H, C, N, L>(
    lib: Library<H, C>, a: seq<ServerOption<H, C, N, L>>, b: seq<ServerOption<H, C, N, L>>, s: Server<H, C, N, L>)
    ensures After(lib, a + b, s) == After(lib, b, After(lib, a, s))
  {
    if b == [] {
      assert a + b == a;
    } else {
      assert (a + b)[..|a + b| - 1] == a + b[..|b| - 1];
      AfterConcat(lib, a, b[..|b| - 1], s);
    }
  }

  lemma AfterFirst<H, C, N, L>(
    lib: Library<H, C>, o: ServerOption<H, C, N, L>, rest: seq<ServerOption<H, C, N, L>>, s: Server<H, C, N, L>)
    ensures After(lib, [o] + rest, s) == After(lib, rest, Effect(lib, o, s))
  {
    AfterConcat(lib, [o], rest, s);
    assert [o][..0] == [];
  }

  /** One option of this package: its effect, and its error if it is invalid. */
  lemma OptEffect<H, C, N, L>(lib: Library<H, C>, o: ServerOption<H, C, N, L>, s: Server<H, C, N, L>)
    ensures Eval(AsOpt(lib, o), s) == Done(Effect(lib, o, s), if o.Invalid? then Some(o.err) else None)
  {
  }

  /** Applying the options of this package never panics, applies every one of them, and
      reports exactly the errors of the invalid ones, in order. */
  lemma {:induction false} ApplyingOptions<H, C, N, L>(
    lib: Library<H, C>, opts: seq<ServerOption<H, C, N, L>>, s: Server<H, C, N, L>, err: Option<Error>)
    ensures var r := EvalAll(AsOpts(lib, opts), s, err);
            r.Done? && r.target == After(lib, opts, s) && List(r.err) == List(err) + Failures(opts)
  {
    if opts == [] {
      assert Failures(opts) == [] && List(err) + [] == List(err);
    } else {
      var o, rest := opts[0], opts[1..];
      var e := if o.Invalid? then Some(o.err) else None;
      OptEffect(lib, o, s);
      EvalAllStep(AsOpt(lib, o), AsOpts(lib, rest), s, err);
      ApplyingOptions(lib, rest, Effect(lib, o, s), Append(err, e));
      AfterFirst(lib, o, rest, s);
      assert opts == [o] + rest;
      Regroup(List(err), List(e), Failures(rest));
    }
  }

  // ---------- ConnContext adds up, BaseContext replaces ----------

  function ConnFns<H, C, N, L>(opts: seq<ServerOption<H, C, N, L>>): seq<(C, N) -> C> {
    if opts == [] then []
    else
      var before := ConnFns(opts[..|opts| - 1]);
      match opts[|opts| - 1]
      case ConnContext(fns) => before + fns
      case _ => before
  }

  /** The last BaseContext option that has any functions. */
  function LastBaseFns<H, C, N, L>(opts: seq<ServerOption<H, C, N, L>>): seq<(C, L) -> C> {
    if opts == [] then []
    else
      match opts[|opts| - 1]
      case BaseContext(fns) => if fns != [] then fns else LastBaseFns(opts[..|opts| - 1])
      case _ => LastBaseFns(opts[..|opts| - 1])
  }

  lemma {:induction false} FoldConcat<C, X>(a: seq<(C, X) -> C>, b: seq<(C, X) -> C>, ctx: C, x: X)
    ensures Fold(a + b, ctx, x) == Fold(b, Fold(a, ctx, x), x)
  {
    if a == [] {
      assert a + b == b;
    } else {
      assert (a + b)[1..] == a[1..] + b;
      FoldConcat(a[1..], b, a[0](ctx, x), x);
    }
  }

  /** What a connection's context is, given the server's connContext function. */
  function ConnValue<C, N>(f: Option<(C, N) -> C>, ctx: C, c: N): C {
    if f.Some? then f.value(ctx, c) else ctx
  }

  /** For any options on any server: the connContext function is the one it had followed by
      all functions of all ConnContext options, left to right, and it is nil only when there
      was none and no option brought any. */
  lemma {:induction false} ConnContextAddsUp<H, C, N, L>(
    lib: Library<H, C>, opts: seq<ServerOption<H, C, N, L>>, s: Server<H, C, N, L>, ctx: C, c: N)
    ensures var f := After(lib, opts, s).connContext;
            && (f.None? <==> s.connContext.None? && ConnFns(opts) == [])
            && ConnValue(f, ctx, c) == Fold(ConnFns(opts), ConnValue(s.connContext, ctx, c), c)
  {
    if opts != [] {
      var before, o := opts[..|opts| - 1], opts[|opts| - 1];
      ConnContextAddsUp(lib, before, s, ctx, c);
      if o.ConnContext? && o.connFns == [] {
        assert ConnFns(opts) == ConnFns(before);
      } else if o.ConnContext? {
        var g := After(lib, before, s).connContext;
        var had := if g.Some? then [g.value] else [];
        assert Fold(had, ctx, c) == ConnValue(g, ctx, c) by {
          if g.Some? { assert had[1..] == []; }
        }
        FoldConcat(had, o.connFns, ctx, c);
        FoldConcat(ConnFns(before), o.connFns, ConnValue(s.connContext, ctx, c), c);
      }
    }
  }

  lemma {:induction false} BaseContextIsFold<H, C, N, L>(
    lib: Library<H, C>, opts: seq<ServerOption<H, C, N, L>>, s: Server<H, C, N, L>, l: L)
    ensures var f := After(lib, opts, s).baseContext;
            if LastBaseFns(opts) == [] then f == s.baseContext
            else f.Some? && f.value(l) == Fold(LastBaseFns(opts), lib.background, l)
  {
    if opts != [] {
      BaseContextIsFold(lib, opts[..|opts| - 1], s, l);
    }
  }

  /** For any options on any server: the last non-empty BaseContext option alone decides, and
      its functions hand the background context on from the first to the last. */
  lemma BaseContextReplaces<H, C, N, L>(
    lib: Library<H, C>, opts: seq<ServerOption<H, C, N, L>>, s: Server<H, C, N, L>, l: L, ctxs: seq<C>)
    requires HandedOn(LastBaseFns(opts), lib.background, l, ctxs)
    ensures var f := After(lib, opts, s).baseContext;
            if LastBaseFns(opts) == [] then f == s.baseContext
            else f.Some? && f.value(l) == ctxs[|LastBaseFns(opts)|]
  {
    BaseContextIsFold(lib, opts, s, l);
    FoldHandsOn(LastBaseFns(opts), lib.background, l, ctxs);
  }

  // ---------- The options that set a field ----------

  /** The number of the last option that sets the connection state hook, if any. */
  function LastConnState<H, C, N, L>(opts: seq<ServerOption<H, C, N, L>>): (k: Option<nat>)
    ensures k.Some? ==> k.value < |opts| && opts[k.value].ConnState?
    ensures forall i :: (if k.Some? then k.value else -1) < i < |opts| ==> !opts[i].ConnState?
  {
    if opts == [] then None
    else if opts[|opts| - 1].ConnState? then Some(|opts| - 1)
    else LastConnState(opts[..|opts| - 1])
  }

  function LastErrorLog<H, C, N, L>(opts: seq<ServerOption<H, C, N, L>>): (k: Option<nat>)
    ensures k.Some? ==> k.value < |opts| && opts[k.value].ErrorLog?
    ensures forall i :: (if k.Some? then k.value else -1) < i < |opts| ==> !opts[i].ErrorLog?
  {
    if opts == [] then None
    else if opts[|opts| - 1].ErrorLog? then Some(|opts| - 1)
    else LastErrorLog(opts[..|opts| - 1])
  }

  /** For any options on any server: the last ConnState and the last ErrorLog option decide the
      hook and the logger, and no option touches the address.  Nothing but ServerMiddleware
      touches the handler, nothing but its own options either context function. */
  lemma {:induction false} LastSetterWins<H, C, N, L>(
    lib: Library<H, C>, opts: seq<ServerOption<H, C, N, L>>, s: Server<H, C, N, L>)
    ensures var r, hook, log := After(lib, opts, s), LastConnState(opts), LastErrorLog(opts);
            && r.addr == s.addr
            && r.connState == (if hook.Some? then Some(opts[hook.value].fn) else s.connState)
            && r.errorLog == (if log.Some? then Some(opts[log.value].log) else s.errorLog)
            && ((forall i :: 0 <= i < |opts| ==> !opts[i].ServerMiddleware?) ==> r.handler == s.handler)
            && ((forall i :: 0 <= i < |opts| ==> !opts[i].BaseContext?) ==> r.baseContext == s.baseContext)
            && ((forall i :: 0 <= i < |opts| ==> !opts[i].ConnContext?) ==> r.connContext == s.connContext)
  {
    if opts != [] {
      LastSetterWins(lib, opts[..|opts| - 1], s);
    }
  }

  // ---------- ServerMiddleware: staged decoration ----------

  /** The decorators of all options, those of later options outside those of earlier ones. */
  function Decorators<H, C, N, L>(opts: seq<ServerOption<H, C, N, L>>): seq<Decorator<H>> {
    if opts == [] then []
    else
      var before := Decorators(opts[..|opts| - 1]);
      match opts[|opts| - 1]
      case ServerMiddleware(fns) => fns + before
      case _ => before
  }

  /** Decoration in any number of stages, with the nil check that each stage makes, is one
      flat chain of middleware, as long as no stage before the last leaves a nil handler. */
  lemma {:induction false} StagesAreOneChain<H, C, N, L>(
    lib: Library<H, C>, opts: seq<ServerOption<H, C, N, L>>, s: Server<H, C, N, L>)
    requires forall k :: 0 <= k < |opts| ==> Usable(After(lib, opts[..k], s).handler)
    ensures After(lib, opts, s).handler == Chain(s.handler, Decorators(opts))
  {
    if opts != [] {
      var before, o := opts[..|opts| - 1], opts[|opts| - 1];
      forall k | 0 <= k < |before| ensures Usable(After(lib, before[..k], s).handler) {
        assert before[..k] == opts[..k];
      }
      StagesAreOneChain(lib, before, s);
      if o.ServerMiddleware? {
        ChainStages(s.handler, o.fns, Decorators(before));
      }
    }
  }

  /** Middleware that never turns a handler that can be called into one that cannot. */
  ghost predicate KeepsUsable<H(!new)>(fns: seq<Decorator<H>>) {
    forall i, h: Value<H> :: 0 <= i < |fns| && Usable(h) ==> Usable(fns[i](h))
  }

  lemma {:induction false} ChainUsable<H(!new)>(h: Value<H>, fns: seq<Decorator<H>>)
    requires Usable(h) && KeepsUsable(fns)
    ensures Usable(Chain(h, fns))
  {
    if fns != [] {
      ChainUsable(h, fns[1..]);
    }
  }

  /** What the caller can see to: without middleware that returns nil no stage leaves nil. */
  lemma {:induction false} NoStageLeavesNil<H(!new), C, N, L>(
    lib: Library<H, C>, opts: seq<ServerOption<H, C, N, L>>, s: Server<H, C, N, L>)
    requires Usable(s.handler) && KeepsUsable(Decorators(opts))
    ensures Usable(After(lib, opts, s).handler)
    ensures forall k :: 0 <= k < |opts| ==> Usable(After(lib, opts[..k], s).handler)
  {
    if opts != [] {
      var before, o := opts[..|opts| - 1], opts[|opts| - 1];
      var inner := Decorators(before);
      if o.ServerMiddleware? {
        forall i, h: Value<H> | 0 <= i < |inner| && Usable(h) ensures Usable(inner[i](h)) {
          assert inner[i] == Decorators(opts)[|o.fns| + i];
        }
        assert KeepsUsable(o.fns) by {
          forall i, h: Value<H> | 0 <= i < |o.fns| && Usable(h) ensures Usable(o.fns[i](h)) {
            assert o.fns[i] == Decorators(opts)[i];
          }
        }
      }
      NoStageLeavesNil(lib, before, s);
      if o.ServerMiddleware? {
        ChainUsable(After(lib, before, s).handler, o.fns);
      }
      forall k | 0 <= k < |opts| ensures Usable(After(lib, opts[..k], s).handler) {
        if k < |before| { assert before[..k] == opts[..k]; }
      }
    }
  }

  /** One more stage after `opts` decorates as the flat chain of all decorators does. */
  ghost predicate NextStageIsFlat<H, C, N, L>(
    lib: Library<H, C>, opts: seq<ServerOption<H, C, N, L>>, next: seq<Decorator<H>>, s: Server<H, C, N, L>)
  {
    After(lib, opts + [ServerMiddleware(next)], s).handler == Chain(s.handler, next + Decorators(opts))
  }

  lemma NextStage<H, C, N, L>(
    lib: Library<H, C>, opts: seq<ServerOption<H, C, N, L>>, next: seq<Decorator<H>>, s: Server<H, C, N, L>)
    ensures After(lib, opts + [ServerMiddleware(next)], s).handler
            == Chain(Defaulted(After(lib, opts, s).handler, lib.mux), next)
  {
    assert (opts + [ServerMiddleware(next)])[..|opts|] == opts;
  }

  /** Where one chain ends so far, every possible next stage goes on with it exactly when no
      nil handler was left: the next stage replaces nil by the mux. */
  lemma StageBoundary<H, C, N, L>(lib: Library<H, C>, opts: seq<ServerOption<H, C, N, L>>, s: Server<H, C, N, L>)
    requires Usable(lib.mux) && After(lib, opts, s).handler == Chain(s.handler, Decorators(opts))
    ensures (forall next :: NextStageIsFlat(lib, opts, next, s)) <==> Usable(After(lib, opts, s).handler)
  {
    var h := After(lib, opts, s).handler;
    forall next: seq<Decorator<H>>
      ensures NextStageIsFlat(lib, opts, next, s) <==> Chain(Defaulted(h, lib.mux), next) == Chain(h, next)
    {
      NextStage(lib, opts, next, s);
      ChainStages(s.handler, next, Decorators(opts));
    }
    if forall next :: NextStageIsFlat(lib, opts, next, s) {
      var none: seq<Decorator<H>> := [];
      assert NextStageIsFlat(lib, opts, none, s);
    }
  }

  lemma StageByStage<H, C, N, L>(
    lib: Library<H, C>, opts: seq<ServerOption<H, C, N, L>>, s: Server<H, C, N, L>, k: nat)
    requires Usable(lib.mux) && k <= |opts|
    requires forall i :: 0 <= i < k ==> Usable(After(lib, opts[..i], s).handler)
    ensures (forall next :: NextStageIsFlat(lib, opts[..k], next, s)) <==> Usable(After(lib, opts[..k], s).handler)
  {
    forall i | 0 <= i < k ensures Usable(After(lib, opts[..k][..i], s).handler) {
      assert opts[..k][..i] == opts[..i];
    }
    StagesAreOneChain(lib, opts[..k], s);
    StageBoundary(lib, opts[..k], s);
  }

  /** Exactly when staged decoration is one flat chain, whatever stage may come at any point:
      when no stage leaves a nil handler.  Middleware inside a stage may return nil. */
  lemma {:induction false} StagesAreOneChainIff<H, C, N, L>(
    lib: Library<H, C>, opts: seq<ServerOption<H, C, N, L>>, s: Server<H, C, N, L>)
    requires Usable(lib.mux)
    ensures (forall k, next :: 0 <= k <= |opts| ==> NextStageIsFlat(lib, opts[..k], next, s))
            <==> (forall k :: 0 <= k <= |opts| ==> Usable(After(lib, opts[..k], s).handler))
  {
    if forall k, next :: 0 <= k <= |opts| ==> NextStageIsFlat(lib, opts[..k], next, s) {
      for k := 0 to |opts| + 1
        invariant forall i :: 0 <= i < k ==> Usable(After(lib, opts[..i], s).handler)
      {
        StageByStage(lib, opts, s, k);
      }
    }
    if forall k :: 0 <= k <= |opts| ==> Usable(After(lib, opts[..k], s).handler) {
      forall k, next: seq<Decorator<H>> | 0 <= k <= |opts| ensures NextStageIsFlat(lib, opts[..k], next, s) {
        StageByStage(lib, opts, s, k);
      }
    }
  }

  /** One middleware that returns nil, and then a stage without any: the flat chain ends in nil,
      the staged decoration in the default mux. */
  lemma NilMiddlewareBreaksChain<H, C, N, L>(lib: Library<H, C>, s: Server<H, C, N, L>)
    requires Usable(lib.mux) && Usable(s.handler)
    ensures var toNil: Decorator<H> := (h: Value<H>) => Untyped;
            var opts: seq<ServerOption<H, C, N, L>> := [ServerMiddleware([toNil]), ServerMiddleware([])];
            After(lib, opts, s).handler == lib.mux && Chain(s.handler, Decorators(opts)) == Untyped
  {
    var toNil: Decorator<H> := (h: Value<H>) => Untyped;
    var first: ServerOption<H, C, N, L> := ServerMiddleware([toNil]);
    var opts := [first, ServerMiddleware([])];
    assert opts[..1] == [first] && [first][..0] == [];
    assert After(lib, [first], s) == Effect(lib, first, s);
    assert Decorators([first]) == [toNil];
    assert Decorators(opts) == [toNil];
    assert Chain(s.handler, [toNil]) == Untyped;
  }

  /** A nil that one middleware hands to the next inside a stage does no harm. */
  lemma NilInsideAStage<H, C, N, L>(lib: Library<H, C>, s: Server<H, C, N, L>, h: Value<H>)
    requires Usable(lib.mux) && Usable(h)
    ensures var toNil, toH: Decorator<H> := (_: Value<H>) => Untyped, (_: Value<H>) => h;
            forall next :: NextStageIsFlat(lib, [ServerMiddleware([toH, toNil])], next, s)
  {
    var toNil, toH: Decorator<H> := (_: Value<H>) => Untyped, (_: Value<H>) => h;
    var fns := [toH, toNil];
    var opts: seq<ServerOption<H, C, N, L>> := [ServerMiddleware(fns)];
    assert opts[..0] == [];
    assert After(lib, opts, s) == Effect(lib, opts[0], s);
    assert Decorators(opts) == fns;
    assert Chain(s.handler, fns) == h;
    assert Chain(Defaulted(s.handler, lib.mux), fns) == h;
    StageBoundary(lib, opts, s);
  }
}
