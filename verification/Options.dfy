/** `arrangehttp/option.go`: options that modify a target, and groups of them. */
module Options {
  import opened Wrappers
  import opened Errors

  /** A Go pointer to a value that options modify in place. */
  class Ref<T> {
    var value: T

    constructor (v: T)
      ensures value == v
    {
      value := v;
    }
  }

  /** How applying an option ends: with an error or none, or in a panic. */
  datatype Outcome<T> =
    | Done(target: T, err: Option<Error>)
    | Panicked(target: T)

  /** `Leaf` is an OptionFunc, `Group` an Options slice, which is itself an option. */
  datatype Opt<!T> =
    | Leaf(run: T -> Outcome<T>)
    | Group(opts: seq<Opt<T>>)

  // ---------- The code: nested loops ----------

  function Eval<T>(o: Opt<T>, t: T): Outcome<T>
    decreases o, 0
  {
    match o
    case Leaf(run) => run(t)
    case Group(opts) => EvalAll(opts, t, None)
  }

  function EvalAll<T>(opts: seq<Opt<T>>, t: T, err: Option<Error>): Outcome<T>
    decreases opts, 1
  {
    if opts == [] then Done(t, err)
    else
      match Eval(opts[0], t)
      case Panicked(t') => Panicked(t')
      case Done(t', e) => EvalAll(opts[1..], t', Append(err, e))
  }

  lemma {:induction false} EvalAllStep<T>(o: Opt<T>, rest: seq<Opt<T>>, t: T, err: Option<Error>)
    ensures var r := Eval(o, t);
            EvalAll([o] + rest, t, err) ==
              if r.Panicked? then r else EvalAll(rest, r.target, Append(err, r.err))
  {
    assert ([o] + rest)[1..] == rest;
  }

  method Apply<T>(o: Opt<T>, t: Ref<T>) returns (err: Option<Error>, panicked: bool)
    modifies t
    ensures Eval(o, old(t.value)) == if panicked then Panicked(t.value) else Done(t.value, err)
    decreases o, 0
  {
    match o
    case Leaf(run) =>
      var r := run(t.value);
      t.value := r.target;
      panicked := r.Panicked?;
      err := if panicked then None else r.err;
    case Group(opts) =>
      err, panicked := ApplyAll(opts, t);
  }

  /** `Options.Apply`: every option in order, errors collected on the way. */
  method ApplyAll<T>(opts: seq<Opt<T>>, t: Ref<T>) returns (err: Option<Error>, panicked: bool)
    modifies t
    ensures EvalAll(opts, old(t.value), None) == if panicked then Panicked(t.value) else Done(t.value, err)
    decreases opts, 1
  {
    err, panicked := None, false;
    for i := 0 to |opts|
      invariant EvalAll(opts, old(t.value), None) == EvalAll(opts[i..], t.value, err)
      invariant !panicked
    {
      var e, p := Apply(opts[i], t);
      assert opts[i..][1..] == opts[i + 1..];
      if p {
        panicked := true;
        return;
      }
      err := Append(err, e);
    }
  }

  /** `ApplyOptions`: the target comes back, for use with fx.Decorate. */
  method ApplyOptions<T>(t: Ref<T>, opts: seq<Opt<T>>)
    returns (result: Ref<T>, err: Option<Error>, panicked: bool)
    modifies t
    ensures result == t
    ensures EvalAll(opts, old(t.value), None) == if panicked then Panicked(t.value) else Done(t.value, err)
  {
    result := t;
    err, panicked := Apply(Group(opts), t);
  }

  // ---------- The meaning: one flat pass over the leaves ----------

  function Leaves<T>(o: Opt<T>): seq<T -> Outcome<T>>
    decreases o, 0
  {
    match o
    case Leaf(run) => [run]
    case Group(opts) => AllLeaves(opts)
  }

  function AllLeaves<T>(opts: seq<Opt<T>>): seq<T -> Outcome<T>>
    decreases opts, 1
  {
    if opts == [] then [] else Leaves(opts[0]) + AllLeaves(opts[1..])
  }

  /** The target after some leaves, the error of each leaf that returned, and whether the
      last leaf that ran panicked. */
  datatype Pass<T> = Pass(target: T, errs: seq<Option<Error>>, panicked: bool)

  function RunLeaves<T>(leaves: seq<T -> Outcome<T>>, t: T): (p: Pass<T>)
    ensures if p.panicked then |p.errs| < |leaves| else |p.errs| == |leaves|
  {
    if leaves == [] then Pass(t, [], false)
    else
      match leaves[0](t)
      case Panicked(t') => Pass(t', [], true)
      case Done(t', e) =>
        var rest := RunLeaves(leaves[1..], t');
        rest.(errs := [e] + rest.errs)
  }

  /** All errors, aggregates taken apart, in order. */
  function Flat(errs: seq<Option<Error>>): seq<Single> {
    if errs == [] then [] else List(errs[0]) + Flat(errs[1..])
  }

  /** The result of one aggregate call that behaves like the flat pass `p`, when the errors
      in `before` had already been collected. */
  ghost predicate Collects<T>(r: Outcome<T>, p: Pass<T>, before: seq<Single>) {
    && r.target == p.target
    && (r.Panicked? <==> p.panicked)
    && (r.Done? ==> List(r.err) == before + Flat(p.errs))
  }

  lemma {:induction false} FlatConcat(a: seq<Option<Error>>, b: seq<Option<Error>>)
    ensures Flat(a + b) == Flat(a) + Flat(b)
  {
    if a == [] {
      assert a + b == b;
    } else {
      assert (a + b)[1..] == a[1..] + b;
      FlatConcat(a[1..], b);
    }
  }

  lemma {:induction false} RunLeavesConcat<T>(a: seq<T -> Outcome<T>>, b: seq<T -> Outcome<T>>, t: T)
    ensures var p := RunLeaves(a, t);
            RunLeaves(a + b, t) ==
              if p.panicked then p
              else var q := RunLeaves(b, p.target); q.(errs := p.errs + q.errs)
  {
    if a == [] {
      assert a + b == b;
      var q := RunLeaves(b, t);
      assert [] + q.errs == q.errs;
    } else {
      assert (a + b)[1..] == a[1..] + b;
      match a[0](t)
      case Panicked(_) =>
      case Done(t', e) =>
        RunLeavesConcat(a[1..], b, t');
        var p := RunLeaves(a[1..], t');
        if !p.panicked {
          var q := RunLeaves(b, p.target);
          assert ([e] + p.errs) + q.errs == [e] + (p.errs + q.errs);
        }
    }
  }

  /** A pass in single steps: `targets` are the target before each leaf and after the last; every
      leaf runs once, on what the one before left behind, whatever errors there were. */
  ghost predicate StepByStep<T>(leaves: seq<T -> Outcome<T>>, t: T, targets: seq<T>, errs: seq<Option<Error>>) {
    && |targets| == |leaves| + 1 && |errs| == |leaves| && targets[0] == t
    && forall k :: 0 <= k < |leaves| ==> leaves[k](targets[k]) == Done(targets[k + 1], errs[k])
  }

  /** Leaves that return make such a pass; one that panics ends it at once. */
  lemma {:induction false} LeavesRunInOrder<T>(
    leaves: seq<T -> Outcome<T>>, t: T, targets: seq<T>, errs: seq<Option<Error>>, more: seq<T -> Outcome<T>>)
    requires StepByStep(leaves, t, targets, errs)
    ensures RunLeaves(leaves, t) == Pass(targets[|leaves|], errs, false)
    ensures more != [] && more[0](targets[|leaves|]).Panicked? ==>
              RunLeaves(leaves + more, t) == Pass(more[0](targets[|leaves|]).target, errs, true)
  {
    if leaves != [] {
      assert leaves[0](t) == Done(targets[1], errs[0]);
      forall k | 0 <= k < |leaves| - 1
        ensures leaves[1..][k](targets[1..][k]) == Done(targets[1..][k + 1], errs[1..][k])
      {
        assert leaves[k + 1](targets[k + 1]) == Done(targets[k + 2], errs[k + 1]);
      }
      LeavesRunInOrder(leaves[1..], targets[1], targets[1..], errs[1..], more);
      assert (leaves + more)[1..] == leaves[1..] + more;
    } else {
      assert leaves + more == more;
    }
  }

  /** An arbitrarily nested tree of options does what its leaves do, each applied once, left
      to right, whether or not earlier ones failed; only a panic cuts the pass short. */
  lemma {:induction false} NestedIsFlat<T>(o: Opt<T>, t: T)
    ensures Collects(Eval(o, t), RunLeaves(Leaves(o), t), [])
    decreases o, 0
  {
    match o
    case Leaf(run) =>
      assert Leaves(o)[1..] == [];
      var p := RunLeaves(Leaves(o), t);
      if !p.panicked {
        assert Flat(p.errs) == List(p.errs[0]) + Flat(p.errs[1..]);
      }
    case Group(opts) => AllNestedIsFlat(opts, t, None);
  }

  lemma Regroup<X>(a: seq<X>, b: seq<X>, c: seq<X>)
    ensures (a + b) + c == a + (b + c)
  {
  }

  lemma {:induction false} AllNestedIsFlat<T>(opts: seq<Opt<T>>, t: T, err: Option<Error>)
    ensures Collects(EvalAll(opts, t, err), RunLeaves(AllLeaves(opts), t), List(err))
    decreases opts, 1
  {
    if opts != [] {
      NestedIsFlat(opts[0], t);
      RunLeavesConcat(Leaves(opts[0]), AllLeaves(opts[1..]), t);
      var r := Eval(opts[0], t);
      var p := RunLeaves(Leaves(opts[0]), t);
      if r.Done? {
        var q := RunLeaves(AllLeaves(opts[1..]), r.target);
        AllNestedIsFlat(opts[1..], r.target, Append(err, r.err));
        FlatConcat(p.errs, q.errs);
        assert List(r.err) == Flat(p.errs);
        Regroup(List(err), Flat(p.errs), Flat(q.errs));
      }
    }
  }

  /** How options are grouped makes no difference, not even to the aggregate error value. */
  lemma GroupingIrrelevant<T>(a: Opt<T>, b: Opt<T>, t: T)
    requires Leaves(a) == Leaves(b)
    ensures Eval(a, t) == Eval(b, t)
  {
    NestedIsFlat(a, t);
    NestedIsFlat(b, t);
    if Eval(a, t).Done? {
      ListInjective(Eval(a, t).err, Eval(b, t).err);
    }
  }

  // ---------- Exit codes of aggregated option errors ----------

  function FirstCode(errs: seq<Option<Error>>): Option<int> {
    if errs == [] then None
    else Either(if errs[0].Some? then As(errs[0].value) else None, FirstCode(errs[1..]))
  }

  lemma {:induction false} AsSinglesConcat(a: seq<Single>, b: seq<Single>)
    ensures AsSingles(a + b) == Either(AsSingles(a), AsSingles(b))
  {
    if a == [] {
      assert a + b == b;
    } else {
      assert (a + b)[1..] == a[1..] + b;
      AsSinglesConcat(a[1..], b);
    }
  }

  lemma {:induction false} FlatCode(errs: seq<Option<Error>>)
    ensures AsSingles(Flat(errs)) == FirstCode(errs)
  {
    if errs != [] {
      FlatCode(errs[1..]);
      AggregateCode(errs[0]);
      AsSinglesConcat(List(errs[0]), Flat(errs[1..]));
    }
  }

  /** The exit code of what applying options returns is the code of the first leaf, in
      application order, whose error carries one. */
  lemma OptionsExitCode<T>(o: Opt<T>, t: T, coder: Option<ErrorCoder>)
    requires Eval(o, t).Done?
    ensures var first := FirstCode(RunLeaves(Leaves(o), t).errs);
            && (first.Some? ==> ExitCodeFor(Eval(o, t).err, coder) == first.value)
            && (first.None? && coder.None? ==>
                  ExitCodeFor(Eval(o, t).err, coder) ==
                  if Flat(RunLeaves(Leaves(o), t).errs) == [] then 0 else DEFAULT_ERROR_EXIT_CODE)
  {
    NestedIsFlat(o, t);
    assert List(Eval(o, t).err) == Flat(RunLeaves(Leaves(o), t).errs);
    FlatCode(RunLeaves(Leaves(o), t).errs);
    AggregateCode(Eval(o, t).err);
  }

  // ---------- Closures as options ----------

  /** A closure, with what a type assertion can see of it: `named` when its dynamic type is
      a declared type and not the bare function type. */
  datatype Closure<!T> =
    | Modifier(named: bool, change: T -> T)
    | Fallible(named: bool, attempt: T -> (T, Option<Error>))

  function AsOption<T>(f: Closure<T>): Opt<T> {
    if f.Fallible? && !f.named then
      Leaf(t => var r := (f.attempt)(t); Done(r.0, r.1))
    else
      Leaf(t => if f.Modifier? && !f.named then Done((f.change)(t), None) else Panicked(t))
  }

  function InvalidOption<T>(err: Option<Error>): Opt<T> {
    Leaf(t => Done(t, err))
  }

  /** The constraint admits every closure type, declared ones included, but exactly the bare
      function types work: an option made of any other panics when it is applied. */
  lemma AsOptionWorksIff<T>(f: Closure<T>, t: T)
    ensures Eval(AsOption(f), t).Panicked? <==> f.named
    ensures !f.named ==> Eval(AsOption(f), t) ==
                         match f
                         case Modifier(_, change) => Done(change(t), None)
                         case Fallible(_, attempt) => Done(attempt(t).0, attempt(t).1)
  {
  }
}
