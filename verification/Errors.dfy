/** Go error trees, `go.uber.org/multierr` aggregation, and `exitCoder.go`. */
module Errors {
  import opened Wrappers

  /** What identifies an error that wraps nothing. */
  datatype Kind =
    | ServerClosed
    | NameRequired
    | InvalidExternal(typeName: string)
    | AlreadyProfiling
    | Other(id: int)

  /** An error that is not a multierr aggregate; `coder` is its own exit code when its type
      has an ExitCode method.  `Coded` is what UseExitCode returns, `Wrapped` any error with
      one wrapped error, `Joined` any error with a list of them. */
  datatype Single =
    | Basic(kind: Kind, coder: Option<int>)
    | Coded(inner: Error, exitCode: int)
    | Wrapped(inner: Error, coder: Option<int>)
    | Joined(parts: seq<Error>, coder: Option<int>)

  /** An aggregate holds at least two errors, none of them an aggregate. */
  datatype Error =
    | One(single: Single)
    | Aggregate(first: Single, second: Single, rest: seq<Single>)

  // ---------- multierr ----------

  /** `multierr.Errors`. */
  function List(e: Option<Error>): (l: seq<Single>)
    ensures e.None? <==> l == []
  {
    match e
    case None => []
    case Some(One(s)) => [s]
    case Some(Aggregate(a, b, rest)) => [a, b] + rest
  }

  function FromList(l: seq<Single>): (e: Option<Error>)
    ensures List(e) == l
  {
    if |l| == 0 then None
    else if |l| == 1 then Some(One(l[0]))
    else Some(Aggregate(l[0], l[1], l[2..]))
  }

  /** `multierr.Append`: nil is the identity, a single error stays as it is, and aggregates
      are flattened. */
  function Append(left: Option<Error>, right: Option<Error>): (e: Option<Error>)
    ensures List(e) == List(left) + List(right)
  {
    if left.None? then right
    else if right.None? then left
    else FromList(List(left) + List(right))
  }

  /** An error is determined by the list of errors in it. */
  lemma ListInjective(a: Option<Error>, b: Option<Error>)
    requires List(a) == List(b)
    ensures a == b
  {
    forall e: Option<Error> ensures FromList(List(e)) == e {
      match e
      case Some(Aggregate(x, y, rest)) => assert ([x, y] + rest)[2..] == rest;
      case _ =>
    }
    assert FromList(List(a)) == FromList(List(b));
  }

  // ---------- The tree that errors.As and errors.Is search ----------

  /** All errors in a tree, depth first, an error before the errors it wraps. */
  function Nodes(e: Error): seq<Node>
    decreases e, 1
  {
    match e
    case One(s) => SingleNodes(s)
    case Aggregate(a, b, rest) =>
      [Node(None, None)] + SingleNodes(a) + SingleNodes(b) + SinglesNodes(rest)
  }

  function SingleNodes(s: Single): seq<Node>
    decreases s, 0
  {
    match s
    case Basic(k, c) => [Node(Some(k), c)]
    case Coded(inner, code) => [Node(None, Some(code))] + Nodes(inner)
    case Wrapped(inner, c) => [Node(None, c)] + Nodes(inner)
    case Joined(parts, c) => [Node(None, c)] + AllNodes(parts)
  }

  function SinglesNodes(l: seq<Single>): seq<Node> {
    if l == [] then [] else SingleNodes(l[0]) + SinglesNodes(l[1..])
  }

  function AllNodes(l: seq<Error>): seq<Node> {
    if l == [] then [] else Nodes(l[0]) + AllNodes(l[1..])
  }

  /** One error of a tree: what it is, and the code it carries. */
  datatype Node = Node(kind: Option<Kind>, code: Option<int>)

  /** The index of the first node that carries a code, or the length. */
  function FirstCoder(nodes: seq<Node>): (i: nat)
    ensures i <= |nodes|
    ensures i < |nodes| ==> nodes[i].code.Some?
    ensures forall j :: 0 <= j < i ==> nodes[j].code.None?
  {
    if nodes == [] || nodes[0].code.Some? then 0 else 1 + FirstCoder(nodes[1..])
  }

  function CodeIn(nodes: seq<Node>): Option<int> {
    var i := FirstCoder(nodes);
    if i < |nodes| then nodes[i].code else None
  }

  // errors.As with an ExitCoder target: the error itself first, then what it wraps in order.

  function As(e: Error): Option<int>
    decreases e, 1
  {
    match e
    case One(s) => AsSingle(s)
    case Aggregate(a, b, rest) => Either(AsSingle(a), Either(AsSingle(b), AsSingles(rest)))
  }

  function AsSingle(s: Single): Option<int>
    decreases s, 0
  {
    match s
    case Basic(_, c) => c
    case Coded(_, code) => Some(code)
    case Wrapped(inner, c) => Either(c, As(inner))
    case Joined(parts, c) => Either(c, AsAll(parts))
  }

  function AsSingles(l: seq<Single>): Option<int> {
    if l == [] then None else Either(AsSingle(l[0]), AsSingles(l[1..]))
  }

  function AsAll(l: seq<Error>): Option<int> {
    if l == [] then None else Either(As(l[0]), AsAll(l[1..]))
  }

  // errors.Is with http.ErrServerClosed.

  predicate IsClosed(e: Error)
    decreases e, 1
  {
    match e
    case One(s) => IsClosedSingle(s)
    case Aggregate(a, b, rest) => IsClosedSingle(a) || IsClosedSingle(b) || IsClosedSingles(rest)
  }

  predicate IsClosedSingle(s: Single)
    decreases s, 0
  {
    match s
    case Basic(k, _) => k == ServerClosed
    case Coded(inner, _) => IsClosed(inner)
    case Wrapped(inner, _) => IsClosed(inner)
    case Joined(parts, _) => IsClosedAll(parts)
  }

  predicate IsClosedSingles(l: seq<Single>) {
    l != [] && (IsClosedSingle(l[0]) || IsClosedSingles(l[1..]))
  }

  predicate IsClosedAll(l: seq<Error>) {
    l != [] && (IsClosed(l[0]) || IsClosedAll(l[1..]))
  }

  predicate HasClosed(nodes: seq<Node>) {
    exists i :: 0 <= i < |nodes| && nodes[i].kind == Some(ServerClosed)
  }

  // ---------- The searches, against the flat list of nodes ----------

  lemma {:induction false} FirstCoderConcat(a: seq<Node>, b: seq<Node>)
    ensures FirstCoder(a + b) == if FirstCoder(a) < |a| then FirstCoder(a) else |a| + FirstCoder(b)
  {
    var i, j, k := FirstCoder(a), FirstCoder(b), FirstCoder(a + b);
    if i < |a| {
      assert (a + b)[i] == a[i];
      assert k <= i;
      assert (a + b)[k] == a[k];
    } else {
      assert k >= |a|;
      if j < |b| {
        assert (a + b)[|a| + j] == b[j];
      }
      if k < |a| + |b| {
        assert (a + b)[k] == b[k - |a|];
      }
    }
  }

  lemma HasClosedConcat(a: seq<Node>, b: seq<Node>)
    ensures HasClosed(a + b) <==> HasClosed(a) || HasClosed(b)
  {
    if i :| 0 <= i < |a| && a[i].kind == Some(ServerClosed) {
      assert (a + b)[i] == a[i];
    }
    if i :| 0 <= i < |b| && b[i].kind == Some(ServerClosed) {
      assert (a + b)[|a| + i] == b[i];
    }
  }

  lemma Both(a: seq<Node>, b: seq<Node>)
    ensures CodeIn(a + b) == Either(CodeIn(a), CodeIn(b))
    ensures HasClosed(a + b) <==> HasClosed(a) || HasClosed(b)
  {
    FirstCoderConcat(a, b);
    HasClosedConcat(a, b);
  }

  lemma Head(n: Node)
    ensures CodeIn([n]) == n.code
    ensures HasClosed([n]) <==> n.kind == Some(ServerClosed)
  {
    assert n.kind == Some(ServerClosed) ==> [n][0].kind == Some(ServerClosed);
  }

  /** Searching the tree is searching the list of its nodes: the first code in depth-first
      pre-order, and an occurrence of ErrServerClosed anywhere. */
  lemma {:induction false} SearchIsPreOrder(e: Error)
    ensures As(e) == CodeIn(Nodes(e))
    ensures IsClosed(e) <==> HasClosed(Nodes(e))
    decreases e, 1
  {
    match e
    case One(s) => SingleSearch(s);
    case Aggregate(a, b, rest) =>
      var top := [Node(None, None)];
      Head(top[0]);
      SingleSearch(a);
      SingleSearch(b);
      SinglesSearch(rest);
      Both(top, SingleNodes(a));
      Both(top + SingleNodes(a), SingleNodes(b));
      Both(top + SingleNodes(a) + SingleNodes(b), SinglesNodes(rest));
  }

  lemma {:induction false} SingleSearch(s: Single)
    ensures AsSingle(s) == CodeIn(SingleNodes(s))
    ensures IsClosedSingle(s) <==> HasClosed(SingleNodes(s))
    decreases s, 0
  {
    Head(SingleNodes(s)[0]);
    match s
    case Basic(_, _) =>
    case Coded(inner, code) =>
      SearchIsPreOrder(inner);
      Both([Node(None, Some(code))], Nodes(inner));
    case Wrapped(inner, c) =>
      SearchIsPreOrder(inner);
      Both([Node(None, c)], Nodes(inner));
    case Joined(parts, c) =>
      AllSearch(parts);
      Both([Node(None, c)], AllNodes(parts));
  }

  lemma {:induction false} SinglesSearch(l: seq<Single>)
    ensures AsSingles(l) == CodeIn(SinglesNodes(l))
    ensures IsClosedSingles(l) <==> HasClosed(SinglesNodes(l))
  {
    if l != [] {
      SingleSearch(l[0]);
      SinglesSearch(l[1..]);
      Both(SingleNodes(l[0]), SinglesNodes(l[1..]));
    }
  }

  lemma {:induction false} AllSearch(l: seq<Error>)
    ensures AsAll(l) == CodeIn(AllNodes(l))
    ensures IsClosedAll(l) <==> HasClosed(AllNodes(l))
  {
    if l != [] {
      SearchIsPreOrder(l[0]);
      AllSearch(l[1..]);
      Both(Nodes(l[0]), AllNodes(l[1..]));
    }
  }

  // ---------- exitCoder.go ----------

  const DEFAULT_ERROR_EXIT_CODE := 1

  /** A coder is also asked about the nil error. */
  type ErrorCoder = Option<Error> -> int

  /** `None` is the panic on a nil error. */
  function UseExitCode(err: Option<Error>, exitCode: int): Option<Error> {
    match err
    case None => None
    case Some(e) => Some(One(Coded(e, exitCode)))
  }

  function ExitCodeFor(err: Option<Error>, coder: Option<ErrorCoder>): int {
    if err.Some? && As(err.value).Some? then As(err.value).value
    else if coder.Some? then coder.value(err)
    else if err.Some? then DEFAULT_ERROR_EXIT_CODE
    else 0
  }

  /** Without an error the coder decides all the same, and without a coder the code is 0; and
      only without an error there is nothing to give a code to. */
  lemma NoErrorCode(err: Option<Error>, coder: ErrorCoder, exitCode: int)
    ensures ExitCodeFor(None, Some(coder)) == coder(None)
    ensures ExitCodeFor(None, None) == 0
    ensures UseExitCode(err, exitCode).None? <==> err.None?
  {
  }

  /** The exit code of any error tree: the code of the first node in depth-first pre-order
      that carries one; only when there is none are the coder and the default asked. */
  lemma ExitCodeOfTree(e: Error, coder: Option<ErrorCoder>)
    ensures var nodes := Nodes(e);
            var i := FirstCoder(nodes);
            ExitCodeFor(Some(e), coder) ==
              if i < |nodes| then nodes[i].code.value
              else if coder.Some? then coder.value(Some(e))
              else 1
  {
    SearchIsPreOrder(e);
  }

  /** What an error can be wrapped in: UseExitCode, or any other wrapper, which may have an
      exit code of its own. */
  datatype Layer = UseCode(exitCode: int) | Wrap(coder: Option<int>)

  /** `e` under any number of layers, the first of them outermost. */
  function Layers(e: Error, layers: seq<Layer>): Error {
    if layers == [] then e
    else
      var inner := Layers(e, layers[1..]);
      match layers[0]
      case UseCode(code) => UseExitCode(Some(inner), code).value
      case Wrap(coder) => One(Wrapped(inner, coder))
  }

  predicate HasCode(l: Layer) {
    l.UseCode? || l.coder.Some?
  }

  /** The outermost layer with a code wins at any depth, and wrapping never hides a code. */
  lemma {:induction false} OutermostWins(e: Error, layers: seq<Layer>, coder: Option<ErrorCoder>, k: nat)
    requires k <= |layers| && forall i :: 0 <= i < k ==> !HasCode(layers[i])
    requires k < |layers| ==> HasCode(layers[k])
    ensures var code := if k == |layers| then As(e)
                        else if layers[k].UseCode? then Some(layers[k].exitCode) else layers[k].coder;
            && As(Layers(e, layers)) == code
            && (code.Some? ==> ExitCodeFor(Some(Layers(e, layers)), coder) == code.value)
    ensures IsClosed(Layers(e, layers)) <==> IsClosed(e)
  {
    if k > 0 {
      OutermostWins(e, layers[1..], coder, k - 1);
    } else if layers != [] {
      ClosedUnderLayers(e, layers);
    }
  }

  lemma {:induction false} ClosedUnderLayers(e: Error, layers: seq<Layer>)
    ensures IsClosed(Layers(e, layers)) <==> IsClosed(e)
  {
    if layers != [] {
      ClosedUnderLayers(e, layers[1..]);
    }
  }

  /** The code of an aggregate is the code of the first error in it that has one. */
  lemma {:induction false} AggregateCode(err: Option<Error>)
    ensures (if err.Some? then As(err.value) else None) == AsSingles(List(err))
  {
    match err
    case Some(Aggregate(a, b, rest)) =>
      assert ([a, b] + rest)[1..] == [b] + rest;
      assert ([b] + rest)[1..] == rest;
    case _ =>
  }

  /** In an aggregate and in any other error that wraps a list, the first part with a code
      decides, unless that other error has one itself; and one part that is or wraps
      ErrServerClosed is enough. */
  lemma {:induction false} PartsInOrder(parts: seq<Error>, k: nat)
    requires k < |parts| && As(parts[k]).Some? && forall i :: 0 <= i < k ==> As(parts[i]).None?
    ensures AsAll(parts) == As(parts[k])
    ensures As(One(Joined(parts, None))) == As(parts[k])
  {
    if k > 0 {
      PartsInOrder(parts[1..], k - 1);
    }
  }

  lemma {:induction false} SinglesInOrder(err: Error, k: nat)
    requires k < |List(Some(err))| && AsSingle(List(Some(err))[k]).Some?
    requires forall i :: 0 <= i < k ==> AsSingle(List(Some(err))[i]).None?
    ensures As(err) == AsSingle(List(Some(err))[k])
  {
    AggregateCode(Some(err));
    FirstOfSingles(List(Some(err)), k);
  }

  lemma {:induction false} FirstOfSingles(l: seq<Single>, k: nat)
    requires k < |l| && AsSingle(l[k]).Some? && forall i :: 0 <= i < k ==> AsSingle(l[i]).None?
    ensures AsSingles(l) == AsSingle(l[k])
  {
    if k > 0 {
      FirstOfSingles(l[1..], k - 1);
    }
  }

  lemma AnyPartClosed(parts: seq<Error>, coder: Option<int>)
    ensures IsClosed(One(Joined(parts, coder))) <==> exists i :: 0 <= i < |parts| && IsClosed(parts[i])
  {
    AnyClosed(parts);
    assert IsClosed(One(Joined(parts, coder))) <==> IsClosedSingle(Joined(parts, coder));
  }

  lemma {:induction false} AnyClosed(parts: seq<Error>)
    ensures IsClosedAll(parts) <==> exists i :: 0 <= i < |parts| && IsClosed(parts[i])
  {
    if parts != [] {
      AnyClosed(parts[1..]);
      forall i | 0 < i < |parts| ensures parts[i] == parts[1..][i - 1] {}
      if i :| 0 <= i < |parts[1..]| && IsClosed(parts[1..][i]) {
        assert IsClosed(parts[i + 1]);
      }
    }
  }

  // ---------- The coder of runServer ----------

  const SERVER_ABNORMAL_EXIT_CODE := 255

  function ServerCoder(err: Option<Error>): int {
    if err.Some? && IsClosed(err.value) then 0 else SERVER_ABNORMAL_EXIT_CODE
  }

  /** When a server exits cleanly: the code is 0 if and only if the first code in the tree
      is 0 or, in a tree without codes, ErrServerClosed occurs in it. */
  lemma ServerExitCode(e: Error)
    ensures var nodes := Nodes(e);
            var i := FirstCoder(nodes);
            var code := ExitCodeFor(Some(e), Some(ServerCoder));
            && (i == |nodes| ==> code == if HasClosed(nodes) then 0 else 255)
            && (code == 0 <==> if i < |nodes| then nodes[i].code == Some(0) else HasClosed(nodes))
    ensures ExitCodeFor(None, Some(ServerCoder)) == 255
  {
    SearchIsPreOrder(e);
  }
}
