/** Persistence of `PeerVerifiers`, over every program that uses them. */
module PeerVerifierClients {
  import opened Wrappers
  import opened GoSlices
  import opened Sequences = PeerVerifiers
  import GoTls

  /** One step of a program that uses sequences.  The variadic arguments of NewPeerVerifiers
      and Append are windows `lo..hi` of an array the program owns, has spare room in and may
      overwrite; `p` and `q` number the sequences made so far.  A step that names nothing does
      nothing. */
  datatype Instr<V> =
    | FromNew(lo: nat, hi: nat)
    | FromAppend(p: nat, lo: nat, hi: nat)
    | FromExtend(p: nat, q: nat)
    | Overwrite(i: nat, x: V)
    | Install(p: nat)

  /** What the program should see, on values: its array, the sequences it made, and the
      sequence behind the installed verification function. */
  datatype World<V> = World(buffer: seq<V>, table: seq<seq<V>>, installed: Option<seq<V>>)

  function Step<V>(w: World<V>, i: Instr<V>): World<V> {
    match i
    case FromNew(lo, hi) =>
      if lo <= hi <= |w.buffer| then w.(table := w.table + [w.buffer[lo..hi]]) else w
    case FromAppend(p, lo, hi) =>
      if p < |w.table| && lo <= hi <= |w.buffer|
      then w.(table := w.table + [w.table[p] + w.buffer[lo..hi]]) else w
    case FromExtend(p, q) =>
      if p < |w.table| && q < |w.table| then w.(table := w.table + [w.table[p] + w.table[q]]) else w
    case Overwrite(k, x) =>
      if k < |w.buffer| then w.(buffer := w.buffer[k := x]) else w
    case Install(p) =>
      if p < |w.table| && w.table[p] != [] then w.(installed := Some(w.table[p])) else w
  }

  function Run<V>(w: World<V>, prog: seq<Instr<V>>): World<V> {
    if prog == [] then w else Step(Run(w, prog[..|prog| - 1]), prog[|prog| - 1])
  }

  /** No sequence ever changes: what a program has made stays, whatever runs afterwards. */
  lemma {:induction false} SequencesPersist<V>(w: World<V>, prog: seq<Instr<V>>, later: seq<Instr<V>>)
    ensures Run(w, prog).table <= Run(w, prog + later).table
    ensures (forall i :: 0 <= i < |later| ==> !later[i].Install?) ==>
              Run(w, prog + later).installed == Run(w, prog).installed
    decreases |later|
  {
    if later == [] {
      assert prog + later == prog;
    } else {
      var init := later[..|later| - 1];
      assert (prog + later)[..|prog + later| - 1] == prog + init;
      SequencesPersist(w, prog, init);
    }
  }

  ghost predicate Shows<V>(s: PeerVerifiers<V>, seen: seq<V>, buffer: array<V>)
    reads s.v.arr
  {
    s.v.Valid() && s.v.View() == seen && s.v.arr != buffer
  }

  /** The heap shows what `w` says. */
  ghost predicate Represents<X, K, V>(
    buffer: array<V>, table: seq<PeerVerifiers<V>>, tc: GoTls.Config<X, K, PeerVerifiers<V>>, w: World<V>)
    reads buffer, tc`verifyPeerCertificate, set s | s in table :: s.v.arr,
          if tc.verifyPeerCertificate.Some? then {tc.verifyPeerCertificate.value.v.arr} else {}
  {
    && buffer[..] == w.buffer
    && |table| == |w.table|
    && (forall k :: 0 <= k < |table| ==> Shows(table[k], w.table[k], buffer))
    && (tc.verifyPeerCertificate.Some? <==> w.installed.Some?)
    && (w.installed.Some? ==> Shows(tc.verifyPeerCertificate.value, w.installed.value, buffer))
  }

  /** The steps that make a sequence write nothing that was there before. */
  method Make<V(0)>(i: Instr<V>, buffer: array<V>, table: seq<PeerVerifiers<V>>, ghost w: World<V>)
    returns (r: PeerVerifiers<V>)
    requires i.FromNew? || i.FromAppend? || i.FromExtend?
    requires buffer[..] == w.buffer && |table| == |w.table|
    requires forall k :: 0 <= k < |table| ==> Shows(table[k], w.table[k], buffer)
    requires i.FromNew? || i.FromAppend? ==> i.lo <= i.hi <= buffer.Length
    requires i.FromAppend? || i.FromExtend? ==> i.p < |table|
    requires i.FromExtend? ==> i.q < |table|
    ensures r.v.Valid() && Shows(r, r.v.View(), buffer)
    ensures Step(w, i) == w.(table := w.table + [r.v.View()])
    ensures i.FromNew? ==> r.v.View() == w.buffer[i.lo..i.hi]
    ensures i.FromAppend? ==> r.v.View() == w.table[i.p] + w.buffer[i.lo..i.hi]
    ensures i.FromExtend? ==> r.v.View() == w.table[i.p] + w.table[i.q]
  {
    match i
    case FromNew(lo, hi) =>
      r := NewPeerVerifiers(Slice(buffer, lo, hi - lo, buffer.Length - lo));
    case FromAppend(p, lo, hi) =>
      assert Shows(table[p], w.table[p], buffer);
      r := Sequences.Append(table[p], Slice(buffer, lo, hi - lo, buffer.Length - lo));
    case FromExtend(p, q) =>
      assert Shows(table[p], w.table[p], buffer) && Shows(table[q], w.table[q], buffer);
      r := Extend(table[p], table[q]);
  }

  predicate Makes<V>(i: Instr<V>, buffer: nat, table: nat) {
    match i
    case FromNew(lo, hi) => lo <= hi <= buffer
    case FromAppend(p, lo, hi) => p < table && lo <= hi <= buffer
    case FromExtend(p, q) => p < table && q < table
    case _ => false
  }

  method StepClient<X, K, V(0)>(
    i: Instr<V>, buffer: array<V>, table: seq<PeerVerifiers<V>>, tc: GoTls.Config<X, K, PeerVerifiers<V>>,
    ghost w: World<V>) returns (table': seq<PeerVerifiers<V>>)
    requires Represents(buffer, table, tc, w)
    modifies buffer, tc`verifyPeerCertificate
    ensures Represents(buffer, table', tc, Step(w, i))
    ensures table' == table || (|table'| == |table| + 1 && table == table'[..|table|])
    ensures tc.verifyPeerCertificate == old(tc.verifyPeerCertificate)
            || exists p :: 0 <= p < |table| && tc.verifyPeerCertificate == Some(table[p])
  {
    table' := table;
    if Makes(i, buffer.Length, |table|) {
      var r := Make(i, buffer, table, w);
      table' := table + [r];
    } else if i.Overwrite? && i.i < buffer.Length {
      buffer[i.i] := i.x;
    } else if i.Install? && i.p < |table| {
      assert Shows(table[i.p], w.table[i.p], buffer);
      SetTo(table[i.p], tc);
    }
  }

  /** Slices, shared arrays and in-place writes notwithstanding, every client program sees
      immutable sequences.  From any point on, whatever the program does, the heap shows what
      it means on values, and the sequences made before are still there and show the same. */
  method ContinueClient<X, K, V(0)>(
    prog: seq<Instr<V>>, buffer: array<V>, table: seq<PeerVerifiers<V>>,
    tc: GoTls.Config<X, K, PeerVerifiers<V>>, ghost w: World<V>) returns (table': seq<PeerVerifiers<V>>)
    requires Represents(buffer, table, tc, w)
    modifies buffer, tc`verifyPeerCertificate
    ensures Represents(buffer, table', tc, Run(w, prog))
    ensures table <= table'
    ensures forall k :: 0 <= k < |table| ==> table[k].v.Valid() && table[k].v.View() == w.table[k]
  {
    table' := table;
    for i := 0 to |prog|
      invariant Represents(buffer, table', tc, Run(w, prog[..i])) && table <= table'
    {
      assert prog[..i + 1][..i] == prog[..i];
      table' := StepClient(prog[i], buffer, table', tc, Run(w, prog[..i]));
    }
    assert prog[..|prog|] == prog;
    SequencesPersist(w, [], prog);
    assert [] + prog == prog;
    forall k | 0 <= k < |table| ensures table[k].v.Valid() && table[k].v.View() == w.table[k] {
      assert Shows(table'[k], Run(w, prog).table[k], buffer);
    }
  }

  /** In particular a program that begins with nothing. */
  method RunClient<X, K, V(0)>(
    prog: seq<Instr<V>>, buffer: array<V>, tc: GoTls.Config<X, K, PeerVerifiers<V>>)
    returns (table: seq<PeerVerifiers<V>>)
    requires tc.verifyPeerCertificate.None?
    modifies buffer, tc`verifyPeerCertificate
    ensures Represents(buffer, table, tc, Run(World(old(buffer[..]), [], None), prog))
  {
    table := ContinueClient(prog, buffer, [], tc, World(buffer[..], [], None));
  }
}
