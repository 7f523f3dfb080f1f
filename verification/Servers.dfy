/** `arrangehttp/server.go` up to the point where a server is bound to the application, with
    the parts of `listener.go` and `serverFactory.go` it builds on. */
module Servers {
  import opened Wrappers
  import opened Errors
  import opened Reflect
  import opened Middlewares
  import opened Options
  import opened ServerOptions
  import opened Slices = GoSlices
  import opened StructTags
  import TagBuilders

  // ---------- Building a server ----------

  /** What a ServerFactory does: the server it makes or the error it makes it with, the
      listener it opens, and the option it is itself, when it is one. */
  datatype Factory<!H, !C, !N, !L> = Factory(
    base: Server<H, C, N, L>,
    newErr: Option<Error>,
    own: Option<Opt<Server<H, C, N, L>>>,
    listen: Server<H, C, N, L> -> Result<L, Error>)

  /** `ServerConfig.Apply`, where `header` decorates with the configured headers, if any. */
  function HeaderOption<H, C, N, L>(lib: Library<H, C>, header: Option<Decorator<H>>): Opt<Server<H, C, N, L>> {
    Leaf((s: Server<H, C, N, L>) =>
           if header.Some? then Done(s.(handler := (header.value)(Defaulted(s.handler, lib.mux))), None)
           else Done(s, None))
  }

  /** The body of `ServerConfig.Apply`. */
  method ApplyHeader<H, C, N, L>(lib: Library<H, C>, header: Option<Decorator<H>>, s: Ref<Server<H, C, N, L>>)
    modifies s
    ensures Eval(HeaderOption(lib, header), old(s.value)) == Done(s.value, None)
  {
    if header.Some? {
      var h := Safe(s.value.handler, lib.mux);
      s.value := s.value.(handler := (header.value)(h));
    }
  }

  /** The outcome of NewServerCustom: a failed factory applies nothing, failed options keep
      the factory's own option from being applied. */
  function Built<H, C, N, L>(
    lib: Library<H, C>, sf: Factory<H, C, N, L>, h: Value<H>, opts: seq<Opt<Server<H, C, N, L>>>)
    : Outcome<Server<H, C, N, L>>
  {
    if sf.newErr.Some? then Done(sf.base, sf.newErr)
    else
      var r := EvalAll(opts, sf.base.(handler := Defaulted(h, lib.mux)), None);
      if r.Done? && r.err.None? && sf.own.Some? then Eval(sf.own.value, r.target) else r
  }

  method NewServerCustom<H, C, N, L>(
    lib: Library<H, C>, sf: Factory<H, C, N, L>, h: Value<H>, opts: seq<Opt<Server<H, C, N, L>>>)
    returns (s: Ref<Server<H, C, N, L>>, err: Option<Error>, panicked: bool)
    ensures fresh(s)
    ensures Built(lib, sf, h, opts) == if panicked then Panicked(s.value) else Done(s.value, err)
  {
    s := new Ref(sf.base);
    err, panicked := sf.newErr, false;
    if err.None? {
      var safe := Safe(h, lib.mux);
      s.value := s.value.(handler := safe);
      s, err, panicked := ApplyOptions(s, opts);
      if panicked {
        return;
      }
    }
    if sf.own.Some? && err.None? {
      err, panicked := Apply(sf.own.value, s);
    }
  }

  // ---------- External arguments ----------

  /** A value passed to ProvideServer, by its dynamic type.  Only the bare function type
      func(net.Listener) net.Listener counts as listener middleware; a value of a declared
      type such as ListenerMiddleware does not. */
  datatype External<!H, !C, !N, !L> =
    | OptionValue(opt: Opt<Server<H, C, N, L>>)
    | BareListenerFunc(f: L -> L)
    | NamedListenerFunc(typeName: string, g: L -> L)
    | Unrelated(typeName: string)

  datatype Provider<!H, !C, !N, !L> = Provider(
    serverName: string,
    options: seq<Opt<Server<H, C, N, L>>>,
    listenerMiddleware: seq<L -> L>)

  function OptionsIn<H, C, N, L>(external: seq<External<H, C, N, L>>): seq<Opt<Server<H, C, N, L>>> {
    if external == [] then []
    else
      var before, e := OptionsIn(external[..|external| - 1]), external[|external| - 1];
      if e.OptionValue? then before + [e.opt] else before
  }

  function ListenersIn<H, C, N, L>(external: seq<External<H, C, N, L>>): seq<L -> L> {
    if external == [] then []
    else
      var before, e := ListenersIn(external[..|external| - 1]), external[|external| - 1];
      if e.BareListenerFunc? then before + [e.f] else before
  }

  predicate Rejected<H, C, N, L>(e: External<H, C, N, L>) {
    e.NamedListenerFunc? || e.Unrelated?
  }

  function RejectsIn<H, C, N, L>(external: seq<External<H, C, N, L>>): (r: seq<External<H, C, N, L>>)
    ensures forall i :: 0 <= i < |r| ==> Rejected(r[i])
  {
    if external == [] then []
    else
      var before, e := RejectsIn(external[..|external| - 1]), external[|external| - 1];
      if Rejected(e) then before + [e] else before
  }

  function RejectError<H, C, N, L>(e: External<H, C, N, L>): Single
    requires Rejected(e)
  {
    Basic(InvalidExternal(e.typeName), None)
  }

  /** The errors of a provider: one for a missing name, then one for each rejected value. */
  function ProviderErrors<H, C, N, L>(serverName: string, external: seq<External<H, C, N, L>>): seq<Single> {
    if external == [] then if serverName == "" then [NAME_ERROR] else []
    else
      var before, e := ProviderErrors(serverName, external[..|external| - 1]), external[|external| - 1];
      if Rejected(e) then before + [RejectError(e)] else before
  }

  const NAME_ERROR := Basic(NameRequired, None)

  method NewServerProvider<H, C, N, L>(serverName: string, external: seq<External<H, C, N, L>>)
    returns (sp: Provider<H, C, N, L>, err: Option<Error>)
    ensures sp == Provider(serverName, OptionsIn(external), ListenersIn(external))
    ensures List(err) == ProviderErrors(serverName, external)
  {
    sp := Provider(serverName, [], []);
    err := None;
    if |sp.serverName| == 0 {
      err := Errors.Append(err, Some(One(NAME_ERROR)));
    }
    for i := 0 to |external|
      invariant sp == Provider(serverName, OptionsIn(external[..i]), ListenersIn(external[..i]))
      invariant List(err) == ProviderErrors(serverName, external[..i])
    {
      var e := external[i];
      assert external[..i + 1][..i] == external[..i];
      match e
      case OptionValue(o) =>
        sp := sp.(options := sp.options + [o]);
      case BareListenerFunc(lm) =>
        sp := sp.(listenerMiddleware := sp.listenerMiddleware + [lm]);
      case _ =>
        err := Errors.Append(err, Some(One(RejectError(e))));
    }
    assert external[..|external|] == external;
  }

  /** Puts the three parts back together, following the kinds of the original list. */
  function Merge<H, C, N, L>(
    shape: seq<External<H, C, N, L>>, options: seq<Opt<Server<H, C, N, L>>>, listeners: seq<L -> L>,
    rejects: seq<External<H, C, N, L>>): seq<External<H, C, N, L>>
  {
    if shape == [] then []
    else
      var before := shape[..|shape| - 1];
      match shape[|shape| - 1]
      case OptionValue(_) =>
        if options == [] then []
        else Merge(before, options[..|options| - 1], listeners, rejects) + [OptionValue(options[|options| - 1])]
      case BareListenerFunc(_) =>
        if listeners == [] then []
        else
          Merge(before, options, listeners[..|listeners| - 1], rejects)
          + [BareListenerFunc(listeners[|listeners| - 1])]
      case _ =>
        if rejects == [] then []
        else Merge(before, options, listeners, rejects[..|rejects| - 1]) + [rejects[|rejects| - 1]]
  }

  /** The split loses nothing, invents nothing and keeps the order within each part. */
  lemma {:induction false} SplitIsPartition<H, C, N, L>(external: seq<External<H, C, N, L>>)
    ensures Merge(external, OptionsIn(external), ListenersIn(external), RejectsIn(external)) == external
    ensures |OptionsIn(external)| + |ListenersIn(external)| + |RejectsIn(external)| == |external|
  {
    if external != [] {
      var before, e := external[..|external| - 1], external[|external| - 1];
      SplitIsPartition(before);
      assert external == before + [e];
      if e.OptionValue? {
        assert OptionsIn(external)[..|OptionsIn(external)| - 1] == OptionsIn(before);
      } else if e.BareListenerFunc? {
        assert ListenersIn(external)[..|ListenersIn(external)| - 1] == ListenersIn(before);
      } else {
        assert RejectsIn(external)[..|RejectsIn(external)| - 1] == RejectsIn(before);
      }
    }
  }

  /** A provider has one error without a name, and then one for each value it rejects, in
      order and with its type; so it is usable exactly when the name is there and every value was accepted. */
  lemma {:induction false} ProviderUsableIff<H, C, N, L>(serverName: string, external: seq<External<H, C, N, L>>)
    ensures var errs, rejects := ProviderErrors(serverName, external), RejectsIn(external);
            var named := if serverName == "" then 1 else 0;
            && |errs| == named + |rejects|
            && (serverName == "" ==> errs[0] == Basic(NameRequired, None))
            && (forall i :: 0 <= i < |rejects| ==>
                  errs[named + i] == Basic(InvalidExternal(rejects[i].typeName), None))
    ensures ProviderErrors(serverName, external) == []
            <==> serverName != "" && forall i :: 0 <= i < |external| ==> !Rejected(external[i])
  {
    if external != [] {
      var before, e := external[..|external| - 1], external[|external| - 1];
      ProviderUsableIff(serverName, before);
      assert external == before + [e];
    }
  }

  /** A ListenerMiddleware is rejected, though the same function as a bare value is taken. */
  lemma NamedListenerIsRejected<H, C, N, L>(serverName: string, lm: L -> L)
    requires serverName != ""
    ensures ProviderErrors<H, C, N, L>(serverName, [NamedListenerFunc("ListenerMiddleware", lm)])
            == [Basic(InvalidExternal("ListenerMiddleware"), None)]
    ensures ListenersIn<H, C, N, L>([NamedListenerFunc("ListenerMiddleware", lm)]) == []
    ensures ProviderErrors<H, C, N, L>(serverName, [BareListenerFunc(lm)]) == []
    ensures ListenersIn<H, C, N, L>([BareListenerFunc(lm)]) == [lm]
  {
    var named: seq<External<H, C, N, L>> := [NamedListenerFunc("ListenerMiddleware", lm)];
    var bare: seq<External<H, C, N, L>> := [BareListenerFunc(lm)];
    assert named[..0] == [] && bare[..0] == [];
  }

  // ---------- newServer: injected options, the factory's own, external options ----------

  function Provided<H, C, N, L>(
    lib: Library<H, C>, sp: Provider<H, C, N, L>, sf: Factory<H, C, N, L>, h: Value<H>,
    injected: seq<Opt<Server<H, C, N, L>>>): Outcome<Server<H, C, N, L>>
  {
    var r := Built(lib, sf, h, injected);
    if r.Done? && r.err.None? then EvalAll(sp.options, r.target, None) else r
  }

  method NewServer<H, C, N, L>(
    lib: Library<H, C>, sp: Provider<H, C, N, L>, sf: Factory<H, C, N, L>, h: Value<H>,
    injected: seq<Opt<Server<H, C, N, L>>>)
    returns (s: Ref<Server<H, C, N, L>>, err: Option<Error>, panicked: bool)
    ensures fresh(s)
    ensures Provided(lib, sp, sf, h, injected) == if panicked then Panicked(s.value) else Done(s.value, err)
  {
    s, err, panicked := NewServerCustom(lib, sf, h, injected);
    if !panicked && err.None? {
      s, err, panicked := ApplyOptions(s, sp.options);
    }
  }

  /** The header decoration of a ServerConfig, seen as one more middleware option. */
  function HeaderStage<H, C, N, L>(header: Option<Decorator<H>>): seq<ServerOption<H, C, N, L>> {
    if header.Some? then [ServerMiddleware([header.value])] else []
  }

  lemma HeaderIsAStage<H, C, N, L>(lib: Library<H, C>, header: Option<Decorator<H>>, s: Server<H, C, N, L>)
    ensures Eval(HeaderOption(lib, header), s) == Done(After(lib, HeaderStage(header), s), None)
  {
    if header.Some? {
      var one := [header.value];
      var stage: seq<ServerOption<H, C, N, L>> := [ServerMiddleware(one)];
      assert stage[..0] == [];
      assert After(lib, stage, s) == Effect(lib, stage[0], s);
      assert one[1..] == [];
      assert Chain(Defaulted(s.handler, lib.mux), one) == (header.value)(Defaulted(s.handler, lib.mux));
    }
  }

  /** What a factory's own option makes of a server; nothing when the factory is no option. */
  function OwnStage<H, C, N, L>(sf: Factory<H, C, N, L>, s: Server<H, C, N, L>): Outcome<Server<H, C, N, L>> {
    if sf.own.Some? then Eval(sf.own.value, s) else Done(s, None)
  }

  /** For any factory, the staged constructor is: all injected options, the factory's own
      option, all external options - each stage entered only when the one before had no error
      and no panic, while within a stage every option is applied and all errors are reported. */
  lemma {:induction false} StagedServer<H, C, N, L>(
    lib: Library<H, C>, name: string, lms: seq<L -> L>, sf: Factory<H, C, N, L>, h: Value<H>,
    injected: seq<ServerOption<H, C, N, L>>, external: seq<ServerOption<H, C, N, L>>)
    ensures var r := Provided(lib, Provider(name, AsOpts(lib, external), lms), sf, h, AsOpts(lib, injected));
            var first := After(lib, injected, sf.base.(handler := Defaulted(h, lib.mux)));
            var second := OwnStage(sf, first);
            if sf.newErr.Some? then r == Done(sf.base, sf.newErr)
            else if Failures(injected) != [] then r.Done? && r.target == first && List(r.err) == Failures(injected)
            else if second.Panicked? || second.err.Some? then r == second
            else r.Done? && r.target == After(lib, external, second.target) && List(r.err) == Failures(external)
  {
    if sf.newErr.None? {
      var s := sf.base.(handler := Defaulted(h, lib.mux));
      ApplyingOptions(lib, injected, s, None);
      assert List(None) + Failures(injected) == Failures(injected);
      var second := OwnStage(sf, After(lib, injected, s));
      if Failures(injected) == [] && second.Done? {
        ApplyingOptions(lib, external, second.target, None);
        assert List(None) + Failures(external) == Failures(external);
      }
    }
  }

  /** The factory that a ServerConfig is: without errors, its server is one pass over the
      injected options, the header and the external options. */
  lemma {:induction false} StagedConfigServer<H, C, N, L>(
    lib: Library<H, C>, name: string, lms: seq<L -> L>, sf: Factory<H, C, N, L>, header: Option<Decorator<H>>,
    h: Value<H>, injected: seq<ServerOption<H, C, N, L>>, external: seq<ServerOption<H, C, N, L>>)
    requires sf.own == Some(HeaderOption(lib, header))
    ensures var r := Provided(lib, Provider(name, AsOpts(lib, external), lms), sf, h, AsOpts(lib, injected));
            && r.Done?
            && (r.err.None? <==> sf.newErr.None? && Failures(injected) == [] && Failures(external) == [])
            && (sf.newErr.None? && Failures(injected) == [] ==>
                  r.target == After(lib, injected + HeaderStage(header) + external,
                                    sf.base.(handler := Defaulted(h, lib.mux))))
  {
    var s := sf.base.(handler := Defaulted(h, lib.mux));
    StagedServer(lib, name, lms, sf, h, injected, external);
    HeaderIsAStage(lib, header, After(lib, injected, s));
    AfterConcat(lib, injected, HeaderStage(header), s);
    AfterConcat(lib, injected + HeaderStage(header), external, s);
  }

  lemma {:induction false} DecoratorsConcat<H, C, N, L>(
    a: seq<ServerOption<H, C, N, L>>, b: seq<ServerOption<H, C, N, L>>)
    ensures Decorators(a + b) == Decorators(b) + Decorators(a)
  {
    if b == [] {
      assert a + b == a;
    } else {
      var b', o := b[..|b| - 1], b[|b| - 1];
      assert (a + b)[..|a + b| - 1] == a + b';
      DecoratorsConcat(a, b');
      if o.ServerMiddleware? {
        assert Decorators(a + b) == o.fns + (Decorators(b') + Decorators(a));
        assert Decorators(b) == o.fns + Decorators(b');
      }
    }
  }

  /** The decorators of a whole server: external ones, then the header, then injected ones. */
  function ServerDecorators<H, C, N, L>(
    header: Option<Decorator<H>>, injected: seq<ServerOption<H, C, N, L>>, external: seq<ServerOption<H, C, N, L>>)
    : seq<Decorator<H>>
  {
    Decorators(external) + (if header.Some? then [header.value] else []) + Decorators(injected)
  }

  lemma AllDecorators<H, C, N, L>(
    header: Option<Decorator<H>>, injected: seq<ServerOption<H, C, N, L>>, external: seq<ServerOption<H, C, N, L>>)
    ensures Decorators(injected + HeaderStage(header) + external)
            == ServerDecorators(header, injected, external)
  {
    var stage := HeaderStage<H, C, N, L>(header);
    var m := if header.Some? then [header.value] else [];
    assert Decorators(stage) == m by {
      if header.Some? { assert stage[..0] == []; }
    }
    DecoratorsConcat(injected, stage);
    DecoratorsConcat(injected + stage, external);
    assert Decorators(external) + (m + Decorators(injected)) == Decorators(external) + m + Decorators(injected);
  }

  /** The handler of a server that was built without errors: external decorators outermost,
      then the header decorator, then the injected ones, in one chain around the given
      handler or the default mux, as long as no stage before the last leaves a nil handler. */
  lemma {:induction false} HandlerIsOneChain<H, C, N, L>(
    lib: Library<H, C>, name: string, lms: seq<L -> L>, sf: Factory<H, C, N, L>, header: Option<Decorator<H>>,
    h: Value<H>, injected: seq<ServerOption<H, C, N, L>>, external: seq<ServerOption<H, C, N, L>>)
    requires sf.own == Some(HeaderOption(lib, header))
    requires var all := injected + HeaderStage(header) + external;
             forall k :: 0 <= k < |all| ==>
               Usable(After(lib, all[..k], sf.base.(handler := Defaulted(h, lib.mux))).handler)
    ensures var r := Provided(lib, Provider(name, AsOpts(lib, external), lms), sf, h, AsOpts(lib, injected));
            r.Done? && r.err.None? ==>
              r.target.handler == Chain(Defaulted(h, lib.mux), ServerDecorators(header, injected, external))
  {
    StagedConfigServer(lib, name, lms, sf, header, h, injected, external);
    AllDecorators(header, injected, external);
    StagesAreOneChain(lib, injected + HeaderStage(header) + external, sf.base.(handler := Defaulted(h, lib.mux)));
  }

  /** Which the caller can see to: it is so when no decorator turns a usable handler into nil. */
  lemma {:induction false} ChainWithoutNil<H(!new), C, N, L>(
    lib: Library<H, C>, name: string, lms: seq<L -> L>, sf: Factory<H, C, N, L>, header: Option<Decorator<H>>,
    h: Value<H>, injected: seq<ServerOption<H, C, N, L>>, external: seq<ServerOption<H, C, N, L>>)
    requires sf.own == Some(HeaderOption(lib, header)) && Usable(lib.mux)
    requires KeepsUsable(ServerDecorators(header, injected, external))
    ensures var r := Provided(lib, Provider(name, AsOpts(lib, external), lms), sf, h, AsOpts(lib, injected));
            r.Done? && r.err.None? ==>
              r.target.handler == Chain(Defaulted(h, lib.mux), ServerDecorators(header, injected, external))
  {
    AllDecorators(header, injected, external);
    var all := injected + HeaderStage(header) + external;
    NoStageLeavesNil(lib, all, sf.base.(handler := Defaulted(h, lib.mux)));
    HandlerIsOneChain(lib, name, lms, sf, header, h, injected, external);
  }

  /** The handler of the server with one more external option, made of the middleware `next`. */
  function ExtendedHandler<H, C, N, L>(
    lib: Library<H, C>, name: string, lms: seq<L -> L>, sf: Factory<H, C, N, L>, h: Value<H>,
    injected: seq<ServerOption<H, C, N, L>>, external: seq<ServerOption<H, C, N, L>>, next: seq<Decorator<H>>)
    : Value<H>
  {
    var sp := Provider(name, AsOpts(lib, external + [ServerMiddleware(next)]), lms);
    Provided(lib, sp, sf, h, AsOpts(lib, injected)).target.handler
  }

  /** And exactly when: a whole server whose handler is that chain so far goes on being one
      chain, with every further external middleware option, if and only if the handler it has
      can be used. */
  lemma {:induction false} ServerChainGoesOnIff<H, C, N, L>(
    lib: Library<H, C>, name: string, lms: seq<L -> L>, sf: Factory<H, C, N, L>, header: Option<Decorator<H>>,
    h: Value<H>, injected: seq<ServerOption<H, C, N, L>>, external: seq<ServerOption<H, C, N, L>>)
    requires sf.own == Some(HeaderOption(lib, header)) && sf.newErr.None? && Usable(lib.mux)
    requires Failures(injected) == []
    requires Provided(lib, Provider(name, AsOpts(lib, external), lms), sf, h, AsOpts(lib, injected)).target.handler
             == Chain(Defaulted(h, lib.mux), ServerDecorators(header, injected, external))
    ensures (forall next: seq<Decorator<H>> ::
               ExtendedHandler(lib, name, lms, sf, h, injected, external, next)
               == Chain(Defaulted(h, lib.mux), next + ServerDecorators(header, injected, external)))
            <==> Usable(Chain(Defaulted(h, lib.mux), ServerDecorators(header, injected, external)))
  {
    var all := injected + HeaderStage(header) + external;
    var s := sf.base.(handler := Defaulted(h, lib.mux));
    StagedConfigServer(lib, name, lms, sf, header, h, injected, external);
    AllDecorators(header, injected, external);
    StageBoundary(lib, all, s);
    forall next: seq<Decorator<H>>
      ensures ExtendedHandler(lib, name, lms, sf, h, injected, external, next)
              == After(lib, all + [ServerMiddleware(next)], s).handler
    {
      StagedConfigServer(lib, name, lms, sf, header, h, injected, external + [ServerMiddleware(next)]);
      assert injected + HeaderStage(header) + (external + [ServerMiddleware(next)]) == all + [ServerMiddleware(next)];
    }
    assert forall next :: NextStageIsFlat(lib, all, next, s) <==>
                          ExtendedHandler(lib, name, lms, sf, h, injected, external, next)
                          == Chain(s.handler, next + Decorators(all));
  }

  // ---------- Listeners ----------

  function Decorated<L>(opening: Result<L, Error>, m: seq<L -> L>): Result<L, Error> {
    match opening
    case Failure(e) => Failure(e)
    case Success(l) => Success(Chain(l, m))
  }

  /** `NewListener`: the factory or the default one, then the middleware. */
  method NewListener<H, C, N, L>(
    lf: Value<Server<H, C, N, L> -> Result<L, Error>>, defaultFactory: Server<H, C, N, L> -> Result<L, Error>,
    s: Server<H, C, N, L>, lm: seq<L -> L>) returns (r: Result<L, Error>)
    ensures r == Decorated(if Usable(lf) then (lf.v)(s) else defaultFactory(s), lm)
  {
    var safe := Safe(lf, Plain(defaultFactory));
    r := (safe.v)(s);
    if r.Success? {
      var l := ApplyMiddleware(r.value, lm);
      r := Success(l);
    }
  }

  /** `newListener`: external middleware goes around the injected middleware, in one chain. */
  method NewProviderListener<H, C, N, L>(
    sp: Provider<H, C, N, L>, sf: Factory<H, C, N, L>, s: Server<H, C, N, L>, injected: seq<L -> L>)
    returns (r: Result<L, Error>)
    ensures r == Decorated((sf.listen)(s), sp.listenerMiddleware + injected)
  {
    r := NewListener(Plain(sf.listen), sf.listen, s, injected);
    if r.Success? {
      ChainStages((sf.listen)(s).value, sp.listenerMiddleware, injected);
      var l := ApplyMiddleware(r.value, sp.listenerMiddleware);
      r := Success(l);
    }
  }

  // ---------- The dependency keys of a server ----------

  /** The name of a server's dependency, as the tag builder forms it under a pushed name. */
  function Key(name: string, v: string): string {
    name + "." + v
  }

  function OptionalNameTag(v: string): string {
    Pair("name", v) + " " + Pair("optional", "true")
  }

  function NewServerTags(name: string): seq<string> {
    [OptionalNameTag(Key(name, "config")), OptionalNameTag(Key(name, "handler")), Pair("group", Key(name, "options"))]
  }

  function BindServerTags(name: string): seq<string> {
    [OptionalNameTag(Key(name, "config")), Pair("name", name), "", "", Pair("group", Key(name, "listener.middleware"))]
  }

  lemma UnderName(name: string, v: string)
    requires name != ""
    ensures TagBuilders.Prefixed([name], v) == Key(name, v)
    ensures TagBuilders.Prefixed([name, ""], v) == v
  {
  }

  // The builder chains of ProvideServerCustom.

  function NewServerChain(name: string): seq<TagBuilders.Call> {
    [TagBuilders.Push(name), TagBuilders.OptionalName("config"), TagBuilders.OptionalName("handler"),
     TagBuilders.Group("options")]
  }

  function BindServerChain(name: string): seq<TagBuilders.Call> {
    [TagBuilders.Push(name), TagBuilders.OptionalName("config"), TagBuilders.Push(""), TagBuilders.Name(name),
     TagBuilders.Pop, TagBuilders.Skip, TagBuilders.Skip, TagBuilders.Group("listener.middleware")]
  }

  lemma Prefix(calls: seq<TagBuilders.Call>, n: nat)
    requires n < |calls|
    ensures TagBuilders.Run(TagBuilders.EMPTY, calls[..n + 1])
            == TagBuilders.Step(TagBuilders.Run(TagBuilders.EMPTY, calls[..n]), calls[n])
  {
    assert calls[..n + 1][..n] == calls[..n];
  }

  lemma NewServerChainTags(name: string)
    requires name != ""
    ensures TagBuilders.Run(TagBuilders.EMPTY, NewServerChain(name)).tags == NewServerTags(name)
  {
    var c := NewServerChain(name);
    UnderName(name, "config");
    UnderName(name, "handler");
    UnderName(name, "options");
    Prefix(c, 0);
    Prefix(c, 1);
    Prefix(c, 2);
    Prefix(c, 3);
    assert c[..4] == c;
  }

  /** The Push("") suspends the prefix for one call and the Pop brings it back. */
  lemma Suspended(name: string)
    requires name != ""
    ensures TagBuilders.Run(TagBuilders.EMPTY, BindServerChain(name)[..5])
            == TagBuilders.State([name], [OptionalNameTag(Key(name, "config")), Pair("name", name)])
  {
    var c := BindServerChain(name);
    UnderName(name, "config");
    UnderName(name, name);
    Prefix(c, 0);
    Prefix(c, 1);
    Prefix(c, 2);
    assert TagBuilders.Run(TagBuilders.EMPTY, c[..3])
        == TagBuilders.State([name, ""], [OptionalNameTag(Key(name, "config"))]);
    Prefix(c, 3);
    Prefix(c, 4);
  }

  lemma BindServerChainTags(name: string)
    requires name != ""
    ensures TagBuilders.Run(TagBuilders.EMPTY, BindServerChain(name)).tags == BindServerTags(name)
  {
    var c := BindServerChain(name);
    Suspended(name);
    UnderName(name, "listener.middleware");
    Prefix(c, 5);
    Prefix(c, 6);
    Prefix(c, 7);
    assert c[..8] == c;
  }

  /** The annotations of newServer and bindServer; without a name ProvideServerCustom stops
      before it builds them. */
  method ServerTags(name: string) returns (params: Slice<string>, results: Slice<string>, binds: Slice<string>)
    requires name != ""
    ensures params.Valid() && params.View() == NewServerTags(name)
    ensures results.Valid() && results.View() == [Pair("name", name)]
    ensures binds.Valid() && binds.View() == BindServerTags(name)
  {
    params := TagBuilders.TagsOf(NewServerChain(name));
    NewServerChainTags(name);
    results := TagBuilders.TagsOf([TagBuilders.Name(name)]);
    Prefix([TagBuilders.Name(name)], 0);
    assert [TagBuilders.Name(name)][..1] == [TagBuilders.Name(name)];
    binds := TagBuilders.TagsOf(BindServerChain(name));
    BindServerChainTags(name);
  }

  /** The documented dependencies of newServer, parameter by parameter. */
  function NewServerPairs(name: string): seq<map<string, string>> {
    [map["name" := Key(name, "config"), "optional" := "true"],
     map["name" := Key(name, "handler"), "optional" := "true"],
     map["group" := Key(name, "options")]]
  }

  /** Those of bindServer. */
  function BindServerPairs(name: string): seq<map<string, string>> {
    [map["name" := Key(name, "config"), "optional" := "true"],
     map["name" := name],
     map[],
     map[],
     map["group" := Key(name, "listener.middleware")]]
  }

  lemma CleanKey(name: string, v: string)
    requires Clean(v)
    ensures Clean(Key(name, v)) <==> Clean(name)
  {
    var k := Key(name, v);
    if Clean(k) {
      forall i | 0 <= i < |name| ensures name[i] == k[i] {}
    }
    if Clean(name) {
      forall i | 0 <= i < |k|
        ensures k[i] == if i < |name| then name[i] else if i == |name| then '.' else v[i - |name| - 1]
      {
      }
    }
  }

  lemma NamedDependency(v: string, esc: Decoder)
    requires EscapeRules(esc)
    ensures ReadsAs(OptionalNameTag(v), map["name" := v, "optional" := "true"], esc) <==> Clean(v)
  {
    TagBuilders.Keys();
    ReadsTwoPairs("name", v, "optional", "true", esc);
  }

  lemma GroupDependency(v: string, esc: Decoder)
    requires EscapeRules(esc)
    ensures ReadsAs(Pair("group", v), map["group" := v], esc) <==> Clean(v)
  {
    TagBuilders.Keys();
    ReadsPair("group", v, esc);
  }

  lemma CleanWords()
    ensures Clean("config") && Clean("handler") && Clean("options") && Clean("listener.middleware")
  {
  }

  /** Every parameter of newServer reads as its documented dependency, exactly when the
      server name needs no quoting. */
  lemma NewServerWiring(name: string, k: nat, esc: Decoder)
    requires EscapeRules(esc) && k < 3
    ensures ReadsAs(NewServerTags(name)[k], NewServerPairs(name)[k], esc) <==> Clean(name)
  {
    CleanWords();
    if k == 0 {
      CleanKey(name, "config");
      NamedDependency(Key(name, "config"), esc);
    } else if k == 1 {
      CleanKey(name, "handler");
      NamedDependency(Key(name, "handler"), esc);
    } else {
      CleanKey(name, "options");
      GroupDependency(Key(name, "options"), esc);
    }
  }

  /** So does every parameter of bindServer that has one; the others are never tagged. */
  lemma BindServerWiring(name: string, k: nat, esc: Decoder)
    requires EscapeRules(esc) && k < 5
    ensures ReadsAs(BindServerTags(name)[k], BindServerPairs(name)[k], esc) <==> Clean(name) || k == 2 || k == 3
  {
    CleanWords();
    if k == 0 {
      CleanKey(name, "config");
      NamedDependency(Key(name, "config"), esc);
    } else if k == 1 {
      TagBuilders.Keys();
      ReadsPair("name", name, esc);
    } else if k == 4 {
      CleanKey(name, "listener.middleware");
      GroupDependency(Key(name, "listener.middleware"), esc);
    } else {
      EmptyTag(esc);
    }
  }

  /** What bindServer asks for first and second is, whatever the name, the configuration that
      newServer gets and the component that newServer provides. */
  lemma SameComponents(name: string)
    requires name != ""
    ensures var provided := TagBuilders.Run(TagBuilders.EMPTY, [TagBuilders.Name(name)]).tags;
            var params := TagBuilders.Run(TagBuilders.EMPTY, NewServerChain(name)).tags;
            var binds := TagBuilders.Run(TagBuilders.EMPTY, BindServerChain(name)).tags;
            && |provided| == 1 && |params| == 3 && |binds| == 5
            && binds[0] == params[0] && binds[1] == provided[0]
  {
    NewServerChainTags(name);
    BindServerChainTags(name);
    Prefix([TagBuilders.Name(name)], 0);
    assert [TagBuilders.Name(name)][..1] == [TagBuilders.Name(name)];
  }

  /** What a server depends on, as component names and value groups. */
  function DependencyKeys(name: string): set<(string, string)> {
    {("name", Key(name, "config")), ("name", Key(name, "handler")),
     ("group", Key(name, "options")), ("group", Key(name, "listener.middleware"))}
  }

  function AllKeys(name: string): set<(string, string)> {
    DependencyKeys(name) + {("name", name)}
  }

  /** A parameter of newServer or bindServer reads as `v` under `kind`. */
  predicate Wires(name: string, kind: string, v: string) {
    exists i :: 0 <= i < 8 && WiresAt(NewServerPairs(name) + BindServerPairs(name), i, kind, v)
  }

  predicate WiresAt(ps: seq<map<string, string>>, i: nat, kind: string, v: string) {
    i < |ps| && kind in ps[i] && ps[i][kind] == v
  }

  /** Those are the names and groups that the parameters of newServer and bindServer read as. */
  lemma KeysAreWired(name: string, kind: string, v: string)
    ensures (kind, v) in AllKeys(name) <==> kind != "optional" && Wires(name, kind, v)
  {
    var ps := NewServerPairs(name) + BindServerPairs(name);
    assert "name"[0] != "group"[0] && "optional"[0] != "group"[0] && "optional"[0] != "name"[0];
    assert |ps| == 8 && ps[0] == ps[3] && ps[5] == ps[6] == map[];
    assert ps[0] == map["name" := Key(name, "config"), "optional" := "true"];
    assert ps[1] == map["name" := Key(name, "handler"), "optional" := "true"];
    assert ps[2] == map["group" := Key(name, "options")];
    assert ps[4] == map["name" := name];
    assert ps[7] == map["group" := Key(name, "listener.middleware")];
    if (kind, v) in AllKeys(name) {
      assert
        || WiresAt(ps, 0, kind, v) || WiresAt(ps, 1, kind, v) || WiresAt(ps, 2, kind, v)
        || WiresAt(ps, 4, kind, v) || WiresAt(ps, 7, kind, v);
    }
  }

  lemma KeyInjective(a: string, b: string, v: string)
    requires Key(a, v) == Key(b, v)
    ensures a == b
  {
    assert a == Key(a, v)[..|a|];
    assert b == Key(b, v)[..|b|];
  }

  lemma KeysDiffer(a: string, b: string, v: string, w: string)
    requires v != "" && w != "" && v[|v| - 1] != w[|w| - 1]
    ensures Key(a, v) != Key(b, w)
  {
    assert Key(a, v)[|Key(a, v)| - 1] == v[|v| - 1];
    assert Key(b, w)[|Key(b, w)| - 1] == w[|w| - 1];
  }

  /** Servers of different names never share a dependency. */
  lemma DependenciesDisjoint(a: string, b: string)
    requires a != b
    ensures DependencyKeys(a) !! DependencyKeys(b)
  {
    forall v: string ensures Key(a, v) != Key(b, v) {
      if Key(a, v) == Key(b, v) { KeyInjective(a, b, v); }
    }
    KeysDiffer(a, b, "config", "handler");
    KeysDiffer(b, a, "config", "handler");
    KeysDiffer(a, b, "options", "listener.middleware");
    KeysDiffer(b, a, "options", "listener.middleware");
    assert "name"[0] != "group"[0];
  }

  /** With the servers' own names counted in, keys are shared exactly when the names are
      equal or one is the other's configuration or handler name. */
  lemma NamesCollideIff(a: string, b: string)
    ensures AllKeys(a) !! AllKeys(b) <==>
            a != b && a !in {Key(b, "config"), Key(b, "handler")} && b !in {Key(a, "config"), Key(a, "handler")}
  {
    assert "name"[0] != "group"[0];
    assert ("name", a) in AllKeys(a) && ("name", b) in AllKeys(b);
    assert ("name", Key(a, "config")) in AllKeys(a) && ("name", Key(b, "config")) in AllKeys(b);
    assert ("name", Key(a, "handler")) in AllKeys(a) && ("name", Key(b, "handler")) in AllKeys(b);
    if a != b {
      DependenciesDisjoint(a, b);
    }
  }
}
