/** The CPU profiler of `arrangepprof/profilers.go` and the file handles it opens. */
module CpuProfiles {
  import opened Wrappers
  import opened Errors

  /** The operating system: handles are numbered in the order they are opened. */
  class Files {
    var handles: nat
    var closed: seq<nat>  // every attempt to close a handle

    constructor ()
      ensures handles == 0 && closed == []
    {
      handles, closed := 0, [];
    }

    method Open(fails: Option<Error>) returns (file: Option<nat>, err: Option<Error>)
      modifies this
      ensures closed == old(closed) && err == fails
      ensures if fails.None? then file == Some(old(handles)) && handles == old(handles) + 1
              else file == None && handles == old(handles)
    {
      file, err := None, fails;
      if fails.None? {
        file := Some(handles);
        handles := handles + 1;
      }
    }

    method Close(h: nat, fails: Option<Error>) returns (err: Option<Error>)
      modifies this
      ensures handles == old(handles) && closed == old(closed) + [h] && err == fails
    {
      closed := closed + [h];
      err := fails;
    }
  }

  /** One call on a profiler, with what the calls it makes return. */
  datatype Call =
    | Start(openFails: Option<Error>, profileFails: Option<Error>)
    | Stop(closeFails: Option<Error>)

  /** The handle a profiler holds, how many were opened, and the closes in order. */
  datatype Ledger = Ledger(file: Option<nat>, handles: nat, closed: seq<nat>)

  function Step(path: string, l: Ledger, c: Call): Ledger {
    match c
    case Start(openFails, _) =>
      if path == "" || l.file.Some? then l
      else if openFails.Some? then l
      else Ledger(Some(l.handles), l.handles + 1, l.closed)
    case Stop(_) =>
      if l.file.Some? then Ledger(None, l.handles, l.closed + [l.file.value]) else l
  }

  const ALREADY_PROFILING := One(Basic(AlreadyProfiling, None))

  /** What Start returns on a profiler that holds no handle. */
  function StartError(path: string, c: Call): Option<Error>
    requires c.Start?
  {
    if path == "" then None else if c.openFails.Some? then c.openFails else c.profileFails
  }

  class CPU {
    const path: string
    var file: Option<nat>

    constructor (path: string)
      ensures this.path == path && file == None
    {
      this.path, file := path, None;
    }

    function Account(files: Files): Ledger
      reads this, files
    {
      Ledger(file, files.handles, files.closed)
    }

    method Start(files: Files, openFails: Option<Error>, profileFails: Option<Error>) returns (err: Option<Error>)
      modifies this, files
      ensures Account(files) == Step(path, old(Account(files)), Call.Start(openFails, profileFails))
      ensures err == if path == "" then None
                     else if old(file).Some? then Some(ALREADY_PROFILING)
                     else if openFails.Some? then openFails
                     else profileFails
      ensures old(file).None? ==> err == StartError(path, Call.Start(openFails, profileFails))
    {
      if |path| == 0 {
        return None;
      }
      if file != None {
        return Some(ALREADY_PROFILING);
      }
      file, err := files.Open(openFails);
      if err.None? {
        err := profileFails;
      }
    }

    method Stop(files: Files, closeFails: Option<Error>) returns (err: Option<Error>)
      modifies this, files
      ensures Account(files) == Step(path, old(Account(files)), Call.Stop(closeFails))
      ensures file == None
      ensures err == if old(file).Some? then closeFails else None
    {
      err := None;
      if file != None {
        err := files.Close(file.value, closeFails);
        file := None;
      }
    }

    /** Any sequence of calls on one profiler. */
    method Use(files: Files, calls: seq<Call>)
      requires file == None && files.handles == 0 && files.closed == []
      modifies this, files
      ensures Account(files) == Run(path, calls)
    {
      for i := 0 to |calls|
        invariant Account(files) == Run(path, calls[..i])
      {
        assert calls[..i + 1][..i] == calls[..i];
        match calls[i]
        case Start(o, p) => var _ := Start(files, o, p);
        case Stop(c) => var _ := Stop(files, c);
      }
      assert calls[..|calls|] == calls;
    }
  }

  function Run(path: string, calls: seq<Call>): Ledger {
    if calls == [] then Ledger(None, 0, [])
    else Step(path, Run(path, calls[..|calls| - 1]), calls[|calls| - 1])
  }

  /** Whatever fails: a handle is open exactly while the profiler holds one, it is the last one
      opened, and every other handle was closed exactly once, in the order of opening. */
  lemma {:induction false} HandlesConserved(path: string, calls: seq<Call>)
    ensures var l := Run(path, calls);
            && l.handles == |l.closed| + (if l.file.Some? then 1 else 0)
            && (l.file.Some? ==> l.file.value == l.handles - 1)
            && (forall k :: 0 <= k < |l.closed| ==> l.closed[k] == k)
            && (path == "" ==> l.handles == 0)
    ensures calls != [] && calls[|calls| - 1].Stop? ==>
              Run(path, calls).file.None? && Run(path, calls).handles == |Run(path, calls).closed|
  {
    if calls != [] {
      HandlesConserved(path, calls[..|calls| - 1]);
    }
  }

  /** fx runs the stop hook only when the start hook succeeded; so a handle is left open for
      good exactly when the file opens and starting the profile then fails. */
  lemma HookLeaksIff(path: string, start: Call, stop: Call)
    requires start.Start? && stop.Stop?
    ensures var l := Run(path, if StartError(path, start).None? then [start, stop] else [start]);
            l.file.Some? <==> path != "" && start.openFails.None? && start.profileFails.Some?
  {
    assert [start, stop][..1] == [start] && [start][..0] == [];
    assert Run(path, [start]) == Step(path, Run(path, []), start);
  }
}
