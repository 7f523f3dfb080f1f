/** `shutdownWhenDone.go`, and the life of servers bound to an application by `bindServer` of
    `arrangehttp/server.go`: start hooks, serve goroutines and stop hooks in any interleaving. */
module Lifecycle {
  import opened Wrappers
  import opened Errors
  import Servers
  import ServerOptions

  // ---------- ShutdownWhenDone ----------

  /** An fx.Shutdowner, with the exit codes it was told to shut down with. */
  class Shutdowner {
    var codes: seq<int>

    constructor ()
      ensures codes == []
    {
      codes := [];
    }

    method Shutdown(code: int)
      modifies this
      ensures codes == old(codes) + [code]
    {
      codes := codes + [code];
    }
  }

  /** How running a task ends. */
  datatype End = Returns(err: Option<Error>) | Panics

  /** A task by its dynamic type: func(), func() error, or a declared type over one of them. */
  datatype Task =
    | Plain(run: () -> End)
    | Fallible(tryRun: () -> End)
    | Declared(ignored: () -> End)

  /** The application is shut down exactly once on every way out, a panic included: with the
      code of the error that was returned, or else with what the coder says of no error, or 0.
      Only the bare function types can be run, and the error of a func() is nil. */
  method ShutdownWhenDone(sh: Shutdowner, coder: Option<ErrorCoder>, task: Task)
    returns (err: Option<Error>, panicked: bool)
    modifies sh
    ensures sh.codes == old(sh.codes) + [ExitCodeFor(err, coder)]
    ensures err.None? ==> sh.codes == old(sh.codes) + [if coder.Some? then coder.value(None) else 0]
    ensures task.Declared? ==> panicked
    ensures task.Plain? ==> err.None? && (panicked <==> task.run().Panics?)
    ensures task.Fallible? ==> (panicked <==> task.tryRun().Panics?)
    ensures err == if task.Fallible? && task.tryRun().Returns? then task.tryRun().err else None
  {
    err, panicked := None, false;
    match task {
      case Plain(run) =>
        var end := run();
        panicked := end.Panics?;
      case Fallible(run) =>
        var end := run();
        if end.Panics? {
          panicked := true;
        } else {
          err := end.err;
        }
      case Declared(_) =>
        panicked := true;
    }
    sh.Shutdown(ExitCodeFor(err, coder));
  }

  // ---------- N servers ----------

  /** The goroutine of runServer: not there, waiting to be scheduled, inside Serve, past Serve
      with the deferred signal still to come, or done. */
  datatype Routine =
    | Absent
    | Spawned
    | Serving
    | Returned(err: Error)
    | Signalled(why: Error)

  datatype Hook = NotStarted | StartFailed | Started

  datatype Server = Server(hook: Hook, routine: Routine, shutdown: bool)

  /** All servers, and the shutdown signals sent so far: which server, which code. */
  datatype System = System(servers: seq<Server>, signals: seq<(nat, int)>)

  /** What can happen to server `i`.  Start hooks succeed or fail with their listener. */
  datatype Action =
    | Start(i: nat)
    | FailStart(i: nat)
    | Enter(i: nat)
    | Leave(i: nat, err: Error)
    | Signal(i: nat)
    | Stop(i: nat)

  const CLOSED := One(Basic(ServerClosed, None))

  function CodeOf(err: Error): int {
    ExitCodeFor(Some(err), Some(ServerCoder))
  }

  function Init(n: nat): System {
    System(seq(n, i => Server(NotStarted, Absent, false)), [])
  }

  /** Serve always returns an error, and it is ErrServerClosed once Shutdown was called, even
      if that was before Serve; fx runs the stop hooks of the servers that started. */
  predicate Enabled(sys: System, a: Action) {
    a.i < |sys.servers| &&
    var s := sys.servers[a.i];
    match a
    case Start(_) => s.hook.NotStarted?
    case FailStart(_) => s.hook.NotStarted?
    case Enter(_) => s.routine.Spawned?
    case Leave(_, err) => s.routine.Serving? && (s.shutdown ==> err == CLOSED)
    case Signal(_) => s.routine.Returned?
    case Stop(_) => s.hook.Started?
  }

  function After(s: Server, a: Action): Server {
    match a
    case Start(_) => s.(hook := Started, routine := Spawned)
    case FailStart(_) => s.(hook := StartFailed)
    case Enter(_) => s.(routine := Serving)
    case Leave(_, err) => s.(routine := Returned(err))
    case Signal(_) => if s.routine.Returned? then s.(routine := Signalled(s.routine.err)) else s
    case Stop(_) => s.(shutdown := true)
  }

  function Step(sys: System, a: Action): System
    requires Enabled(sys, a)
  {
    var s := sys.servers[a.i];
    System(
      sys.servers[a.i := After(s, a)],
      if a.Signal? then sys.signals + [(a.i, CodeOf(s.routine.err))] else sys.signals)
  }

  /** Where the actions `acts`, in this order, take `n` new servers; nothing if one of them
      cannot happen. */
  function TryRun(n: nat, acts: seq<Action>): (r: Option<System>)
    ensures r.Some? ==> |r.value.servers| == n
  {
    if acts == [] then Some(Init(n))
    else
      var r := TryRun(n, acts[..|acts| - 1]);
      if r.Some? && Enabled(r.value, acts[|acts| - 1]) then Some(Step(r.value, acts[|acts| - 1])) else None
  }

  predicate IsRun(n: nat, acts: seq<Action>) {
    TryRun(n, acts).Some?
  }

  function Reach(n: nat, acts: seq<Action>): (sys: System)
    requires IsRun(n, acts)
    ensures |sys.servers| == n
  {
    TryRun(n, acts).value
  }

  // ---------- Safety, over every interleaving ----------

  /** What a run does to server `i`, stop hooks aside. */
  function Mine(acts: seq<Action>, i: nat): seq<Action> {
    if acts == [] then []
    else
      var a := acts[|acts| - 1];
      var before := Mine(acts[..|acts| - 1], i);
      if a.i == i && !a.Stop? then before + [a] else before
  }

  /** The only story a server can have: nothing, a failed start, or some beginning of
      start, Serve entered, Serve left, one signal. */
  function Story(i: nat, s: Server): seq<Action> {
    match s.hook
    case NotStarted => []
    case StartFailed => [FailStart(i)]
    case Started =>
      match s.routine
      case Absent => []
      case Spawned => [Start(i)]
      case Serving => [Start(i), Enter(i)]
      case Returned(err) => [Start(i), Enter(i), Leave(i, err)]
      case Signalled(err) => [Start(i), Enter(i), Leave(i, err), Signal(i)]
  }

  /** The signals server `i` sent. */
  function SignalsOf(signals: seq<(nat, int)>, i: nat): seq<int> {
    if signals == [] then []
    else
      var last := signals[|signals| - 1];
      var before := SignalsOf(signals[..|signals| - 1], i);
      if last.0 == i then before + [last.1] else before
  }

  /** A goroutine exists exactly when the start hook succeeded, and only then a stop hook ran. */
  predicate Consistent(s: Server) {
    (s.hook.Started? <==> !s.routine.Absent?) && (s.shutdown ==> s.hook.Started?)
  }

  lemma StoryGoesOn(sys: System, a: Action)
    requires Enabled(sys, a) && Consistent(sys.servers[a.i])
    ensures var s, s' := sys.servers[a.i], Step(sys, a).servers[a.i];
            && Consistent(s')
            && Story(a.i, s') == if a.Stop? then Story(a.i, s) else Story(a.i, s) + [a]
  {
  }

  lemma {:induction false} StoryOfRun(n: nat, acts: seq<Action>, i: nat)
    requires IsRun(n, acts) && i < n
    ensures Consistent(Reach(n, acts).servers[i])
    ensures Mine(acts, i) == Story(i, Reach(n, acts).servers[i])
  {
    if acts != [] {
      var before, a := acts[..|acts| - 1], acts[|acts| - 1];
      StoryOfRun(n, before, i);
      if a.i == i {
        StoryGoesOn(Reach(n, before), a);
      }
    }
  }

  /** What a server must have signalled in its state. */
  function Codes(s: Server): seq<int> {
    if s.routine.Signalled? then [CodeOf(s.routine.why)] else []
  }

  lemma {:induction false} SignalsOfRun(n: nat, acts: seq<Action>, i: nat)
    requires IsRun(n, acts) && i < n
    ensures SignalsOf(Reach(n, acts).signals, i) == Codes(Reach(n, acts).servers[i])
  {
    if acts != [] {
      var before, a := acts[..|acts| - 1], acts[|acts| - 1];
      SignalsOfRun(n, before, i);
      StoryOfRun(n, before, i);
      var sent := Reach(n, acts).signals;
      if a.Signal? {
        assert sent[..|sent| - 1] == Reach(n, before).signals;
      }
    }
  }

  /** In every run of any number of servers, what happened to a server is a beginning of that
      story - so at most one signal, and that only after its Serve returned, and for a failed
      start no goroutine and no signal - and its signals are the code of that return. */
  lemma EveryRunTellsTheStory(n: nat, acts: seq<Action>, i: nat)
    requires IsRun(n, acts) && i < n
    ensures var sys := Reach(n, acts);
            && Consistent(sys.servers[i])
            && Mine(acts, i) == Story(i, sys.servers[i])
            && SignalsOf(sys.signals, i) == Codes(sys.servers[i])
  {
    StoryOfRun(n, acts, i);
    SignalsOfRun(n, acts, i);
  }

  lemma {:induction false} MineMember(acts: seq<Action>, a: Action)
    requires !a.Stop?
    ensures a in Mine(acts, a.i) <==> a in acts
  {
    if acts != [] {
      MineMember(acts[..|acts| - 1], a);
      assert acts == acts[..|acts| - 1] + [acts[|acts| - 1]];
    }
  }

  lemma {:induction false} StoppedIff(n: nat, acts: seq<Action>, i: nat)
    requires IsRun(n, acts) && i < n
    ensures Reach(n, acts).servers[i].shutdown <==> Stop(i) in acts
  {
    if acts != [] {
      StoppedIff(n, acts[..|acts| - 1], i);
      assert acts == acts[..|acts| - 1] + [acts[|acts| - 1]];
    }
  }

  /** Serve of server `i` returned. */
  ghost predicate HasLeft(acts: seq<Action>, i: nat) {
    exists err :: Leave(i, err) in acts
  }

  lemma StateOfRun(n: nat, acts: seq<Action>, i: nat)
    requires IsRun(n, acts) && i < n
    ensures var s := Reach(n, acts).servers[i];
            && Consistent(s)
            && (s.shutdown <==> Stop(i) in acts)
            && (s.hook.Started? <==> Start(i) in acts)
            && (s.hook.StartFailed? <==> FailStart(i) in acts)
            && (s.routine.Spawned? <==> Start(i) in acts && Enter(i) !in acts)
            && (s.routine.Serving? <==> Enter(i) in acts && !HasLeft(acts, i))
            && (s.routine.Returned? <==> HasLeft(acts, i) && Signal(i) !in acts)
  {
    EveryRunTellsTheStory(n, acts, i);
    StoppedIff(n, acts, i);
    MineMember(acts, Start(i));
    MineMember(acts, FailStart(i));
    MineMember(acts, Enter(i));
    MineMember(acts, Signal(i));
    forall err ensures Leave(i, err) in acts <==> Leave(i, err) in Mine(acts, i) {
      MineMember(acts, Leave(i, err));
    }
    var s := Reach(n, acts).servers[i];
    if s.routine.Returned? {
      assert Leave(i, s.routine.err) in Mine(acts, i);
    } else if s.routine.Signalled? {
      assert Leave(i, s.routine.why) in Mine(acts, i);
    }
  }

  /** Exactly what can happen after a run, told by what happened in it: a start hook runs once;
      Serve is entered once after it; Serve that was entered can return once, at any time and
      with any error, but only with ErrServerClosed once the server was stopped; one signal
      follows the return; and a started server can be stopped at any time, before its goroutine
      ran and after it ended. */
  lemma WhatCanHappen(n: nat, acts: seq<Action>, a: Action)
    requires IsRun(n, acts)
    ensures IsRun(n, acts + [a]) <==>
            && a.i < n
            && if a.Start? || a.FailStart? then Start(a.i) !in acts && FailStart(a.i) !in acts
               else if a.Enter? then Start(a.i) in acts && Enter(a.i) !in acts
               else if a.Leave? then
                 Enter(a.i) in acts && !HasLeft(acts, a.i) && (Stop(a.i) in acts ==> a.err == CLOSED)
               else if a.Signal? then HasLeft(acts, a.i) && Signal(a.i) !in acts
               else Start(a.i) in acts
  {
    assert (acts + [a])[..|acts|] == acts;
    if a.i < n {
      StateOfRun(n, acts, a.i);
    }
  }

  lemma {:induction false} StoppedStaysStopped(n: nat, acts: seq<Action>, k: nat)
    requires IsRun(n, acts) && k < |acts| && acts[k].Stop?
    ensures acts[k].i < n && Reach(n, acts).servers[acts[k].i].shutdown
  {
    var before := acts[..|acts| - 1];
    if k < |before| {
      StoppedStaysStopped(n, before, k);
    }
  }

  /** A run cut off at any point is a run. */
  lemma {:induction false} PrefixIsRun(n: nat, acts: seq<Action>, k: nat)
    requires IsRun(n, acts) && k <= |acts|
    ensures IsRun(n, acts[..k])
    ensures k < |acts| ==> Enabled(Reach(n, acts[..k]), acts[k])
  {
    if k < |acts| {
      var before := acts[..|acts| - 1];
      assert before[..k] == acts[..k];
      PrefixIsRun(n, before, k);
    } else {
      assert acts[..k] == acts;
    }
  }

  /** A server whose stop hook ran before Serve returned - before the goroutine was even
      scheduled, say - never ends with anything but code 0. */
  lemma StopMeansZero(n: nat, acts: seq<Action>, stop: nat, leave: nat)
    requires IsRun(n, acts) && stop < leave < |acts|
    requires acts[stop].Stop? && acts[leave].Leave? && acts[stop].i == acts[leave].i
    ensures acts[leave].err == CLOSED
    ensures SignalsOf(Reach(n, acts).signals, acts[leave].i) <= [0]
  {
    var i := acts[leave].i;
    PrefixIsRun(n, acts, leave);
    assert acts[..leave][stop] == acts[stop];
    StoppedStaysStopped(n, acts[..leave], stop);
    EveryRunTellsTheStory(n, acts, i);
    LeaveInStory(n, acts, leave);
    ServerExitCode(CLOSED);
  }

  /** A server whose Serve fails with an error that carries no code and is not ErrServerClosed
      signals 255, if it signals; and a code that the error carries is the one signalled. */
  lemma FailureMeansItsCode(n: nat, acts: seq<Action>, leave: nat)
    requires IsRun(n, acts) && leave < |acts| && acts[leave].Leave?
    ensures var nodes := Nodes(acts[leave].err);
            var code := if CodeIn(nodes).Some? then CodeIn(nodes).value else if HasClosed(nodes) then 0 else 255;
            SignalsOf(Reach(n, acts).signals, acts[leave].i) <= [code]
  {
    LeaveInStory(n, acts, leave);
    EveryRunTellsTheStory(n, acts, acts[leave].i);
    ExitCodeOfTree(acts[leave].err, Some(ServerCoder));
    ServerExitCode(acts[leave].err);
  }

  /** The error with which Serve returned stays the one that is reported. */
  lemma {:induction false} LeaveInStory(n: nat, acts: seq<Action>, k: nat)
    requires IsRun(n, acts) && k < |acts| && acts[k].Leave?
    ensures acts[k].i < n
    ensures var r := Reach(n, acts).servers[acts[k].i].routine;
            r == Returned(acts[k].err) || r == Signalled(acts[k].err)
  {
    var before := acts[..|acts| - 1];
    if k < |before| {
      LeaveInStory(n, before, k);
      EveryRunTellsTheStory(n, before, acts[k].i);
    }
  }

  lemma {:induction false} SignalListed(signals: seq<(nat, int)>, k: nat)
    requires k < |signals|
    ensures signals[k].1 in SignalsOf(signals, signals[k].0)
  {
    if k < |signals| - 1 {
      SignalListed(signals[..|signals| - 1], k);
    }
  }

  /** Signal number `k` was sent by a server that exists and had its Serve return. */
  lemma {:induction false} SenderLeft(n: nat, acts: seq<Action>, k: nat) returns (leave: nat)
    requires IsRun(n, acts) && k < |Reach(n, acts).signals|
    ensures leave < |acts| && acts[leave].Leave? && acts[leave].i == Reach(n, acts).signals[k].0
  {
    var before, a := acts[..|acts| - 1], acts[|acts| - 1];
    if k < |Reach(n, before).signals| {
      leave := SenderLeft(n, before, k);
    } else {
      leave := LeaveBefore(n, before, a.i);
    }
  }

  lemma {:induction false} LeaveBefore(n: nat, acts: seq<Action>, i: nat) returns (k: nat)
    requires IsRun(n, acts) && i < n && Reach(n, acts).servers[i].routine.Returned?
    ensures k < |acts| && acts[k].Leave? && acts[k].i == i
  {
    var before, a := acts[..|acts| - 1], acts[|acts| - 1];
    if a.Leave? && a.i == i {
      k := |acts| - 1;
    } else {
      k := LeaveBefore(n, before, i);
    }
  }

  /** When no Serve returns before its server is stopped, every signal of the application,
      whichever it hears first, says 0. */
  lemma OrderlyShutdownIsClean(n: nat, acts: seq<Action>, k: nat)
    requires IsRun(n, acts) && k < |Reach(n, acts).signals|
    requires forall m :: 0 <= m < |acts| && acts[m].Leave? ==>
               exists stop :: 0 <= stop < m && acts[stop] == Stop(acts[m].i)
    ensures Reach(n, acts).signals[k].1 == 0
  {
    var signals := Reach(n, acts).signals;
    var leave := SenderLeft(n, acts, k);
    var stop :| 0 <= stop < leave && acts[stop] == Stop(acts[leave].i);
    StopMeansZero(n, acts, stop, leave);
    SignalListed(signals, k);
    assert SignalsOf(signals, signals[k].0) <= [0];
  }

  // ---------- The code behind the actions ----------

  /** The start hook of bindServer for server `i`: it spawns the goroutine exactly when the
      listener could be opened, and otherwise reports the error. */
  method StartHook<H, C, N, L>(
    sp: Servers.Provider<H, C, N, L>, sf: Servers.Factory<H, C, N, L>, s: ServerOptions.Server<H, C, N, L>,
    injected: seq<L -> L>, i: nat) returns (a: Action, l: Option<L>, err: Option<Error>)
    ensures match (sf.listen)(s)
            case Failure(e) => a == FailStart(i) && l == None && err == Some(e)
            case Success(base) =>
              a == Start(i) && err == None &&
              l == Some(Servers.Middlewares.Chain(base, sp.listenerMiddleware + injected))
  {
    var r := Servers.NewProviderListener(sp, sf, s, injected);
    match r
    case Failure(e) => a, l, err := FailStart(i), None, Some(e);
    case Success(x) => a, l, err := Start(i), Some(x), None;
  }

  /** The goroutine of runServer, when Serve returns `err`: entering, leaving and signalling
      come to this when nothing happens in between. */
  method ServeGoroutine(sh: Shutdowner, err: Error)
    modifies sh
    ensures sh.codes == old(sh.codes) + [CodeOf(err)]
  {
    var _, _ := ShutdownWhenDone(sh, Some(ServerCoder), Fallible(() => Returns(Some(err))));
  }

  // ---------- Progress ----------

  /** The steps a server's goroutine has left. */
  function Left(s: Server): nat {
    match s.routine
    case Spawned => 3
    case Serving => 2
    case Returned(_) => 1
    case _ => 0
  }

  function Total(servers: seq<Server>): nat {
    if servers == [] then 0 else Left(servers[0]) + Total(servers[1..])
  }

  predicate ByGoroutine(a: Action) {
    a.Enter? || a.Leave? || a.Signal?
  }

  lemma {:induction false} TotalUpdate(servers: seq<Server>, i: nat, s: Server)
    requires i < |servers|
    ensures Total(servers[i := s]) == Total(servers) - Left(servers[i]) + Left(s)
    ensures Total(servers) >= Left(servers[i])
  {
    if i > 0 {
      assert servers[i := s][1..] == servers[1..][i - 1 := s];
      TotalUpdate(servers[1..], i - 1, s);
    } else {
      assert servers[i := s][1..] == servers[1..];
    }
  }

  /** Goroutine steps use the total up one by one; stop hooks and failed starts do not add to it. */
  lemma StepsUseUpTotal(sys: System, a: Action)
    requires Enabled(sys, a)
    ensures ByGoroutine(a) ==> Total(Step(sys, a).servers) == Total(sys.servers) - 1
    ensures a.Stop? || a.FailStart? ==> Total(Step(sys, a).servers) == Total(sys.servers)
  {
    TotalUpdate(sys.servers, a.i, After(sys.servers[a.i], a));
  }

  /** A stopped server that has not signalled yet can always take its next step. */
  lemma StoppedCanProceed(n: nat, acts: seq<Action>, i: nat) returns (a: Action)
    requires IsRun(n, acts) && i < n
    requires var s := Reach(n, acts).servers[i]; s.shutdown && !s.routine.Signalled?
    ensures ByGoroutine(a) && a.i == i && Enabled(Reach(n, acts), a)
  {
    EveryRunTellsTheStory(n, acts, i);
    var s := Reach(n, acts).servers[i];
    a := if s.routine.Spawned? then Enter(i) else if s.routine.Serving? then Leave(i, CLOSED) else Signal(i);
  }

  /** Every started server has been stopped. */
  predicate AllStopped(sys: System) {
    forall i :: 0 <= i < |sys.servers| && sys.servers[i].hook.Started? ==> sys.servers[i].shutdown
  }

  predicate Quiet(sys: System) {
    forall i :: 0 <= i < |sys.servers| ==> Left(sys.servers[i]) == 0
  }

  /** Once nothing is left to do after the stop hooks, every started server has sent exactly
      one signal and every other server none. */
  lemma QuietMeansSignalledOnce(n: nat, acts: seq<Action>, i: nat)
    requires IsRun(n, acts) && i < n && Quiet(Reach(n, acts))
    ensures |SignalsOf(Reach(n, acts).signals, i)| == if Reach(n, acts).servers[i].hook.Started? then 1 else 0
  {
    EveryRunTellsTheStory(n, acts, i);
    assert Left(Reach(n, acts).servers[i]) == 0;
  }

  /** And that point is always reached: as long as something is left, a goroutine can move, and
      scheduling goroutines `Total` times, in whatever way, ends there. */
  lemma {:induction false} RunsDrain(n: nat, acts: seq<Action>) returns (more: seq<Action>)
    requires IsRun(n, acts) && AllStopped(Reach(n, acts))
    ensures IsRun(n, acts + more) && Quiet(Reach(n, acts + more))
    ensures |more| == Total(Reach(n, acts).servers)
    ensures forall k :: 0 <= k < |more| ==> ByGoroutine(more[k])
    decreases Total(Reach(n, acts).servers)
  {
    var sys := Reach(n, acts);
    if Quiet(sys) {
      more := [];
      assert acts + more == acts;
      QuietTotal(sys.servers);
    } else {
      var i :| 0 <= i < n && Left(sys.servers[i]) != 0;
      StoryOfRun(n, acts, i);
      var a := StoppedCanProceed(n, acts, i);
      OneMore(n, acts, a);
      StepsUseUpTotal(sys, a);
      var rest := RunsDrain(n, acts + [a]);
      more := [a] + rest;
      assert acts + more == acts + [a] + rest;
    }
  }

  lemma OneMore(n: nat, acts: seq<Action>, a: Action)
    requires IsRun(n, acts) && Enabled(Reach(n, acts), a)
    ensures IsRun(n, acts + [a]) && Reach(n, acts + [a]) == Step(Reach(n, acts), a)
  {
    assert (acts + [a])[..|acts|] == acts;
  }

  lemma {:induction false} QuietTotal(servers: seq<Server>)
    requires forall i :: 0 <= i < |servers| ==> Left(servers[i]) == 0
    ensures Total(servers) == 0
  {
    if servers != [] {
      QuietTotal(servers[1..]);
    }
  }

  function GoroutineSteps(acts: seq<Action>): nat {
    if acts == [] then 0
    else GoroutineSteps(acts[..|acts| - 1]) + if ByGoroutine(acts[|acts| - 1]) then 1 else 0
  }

  /** Any schedule, not just one: as long as no further server starts, each step of a goroutine
      uses up one of the `Total` steps left, whatever stop hooks and failed starts come in
      between; so no schedule has more, and one that has them all ends with none left. */
  lemma {:induction false} AnyScheduleDrains(n: nat, acts: seq<Action>, more: seq<Action>)
    requires IsRun(n, acts + more)
    requires forall k :: 0 <= k < |more| ==> !more[k].Start?
    ensures IsRun(n, acts)
    ensures GoroutineSteps(more) + Total(Reach(n, acts + more).servers) == Total(Reach(n, acts).servers)
    decreases |more|
  {
    if more == [] {
      assert acts + more == acts;
    } else {
      var init, a := more[..|more| - 1], more[|more| - 1];
      assert (acts + more)[..|acts + more| - 1] == acts + init;
      AnyScheduleDrains(n, acts, init);
      assert !a.Start?;
      StepsUseUpTotal(Reach(n, acts + init), a);
    }
  }

  /** The end of the story: after the stop hooks, a run in which no goroutine can take a step has
      exactly one signal from every server that started and none from the others. */
  lemma StuckMeansSignalledOnce(n: nat, acts: seq<Action>, i: nat)
    requires IsRun(n, acts) && i < n && AllStopped(Reach(n, acts))
    requires forall a :: ByGoroutine(a) ==> !Enabled(Reach(n, acts), a)
    ensures |SignalsOf(Reach(n, acts).signals, i)| == if Reach(n, acts).servers[i].hook.Started? then 1 else 0
  {
    var sys := Reach(n, acts);
    forall j | 0 <= j < |sys.servers| ensures Left(sys.servers[j]) == 0 {
      EveryRunTellsTheStory(n, acts, j);
      if sys.servers[j].shutdown && !sys.servers[j].routine.Signalled? {
        var a := StoppedCanProceed(n, acts, j);
      }
    }
    QuietMeansSignalledOnce(n, acts, i);
  }
}
