/** `tagBuilder.go`: a builder of fx struct tags with a stack of name prefixes. */
module TagBuilders {
  import opened Wrappers
  import opened GoSlices
  import opened StructTags

  /** One call on a builder. */
  datatype Call =
    | Push(prefix: string)
    | Pop
    | Skip
    | Optional
    | Name(value: string)
    | OptionalName(value: string)
    | Group(value: string)
  {
    predicate Emits() { !Push? && !Pop? }
  }

  /** The abstract value of a builder. */
  datatype State = State(prefixes: seq<string>, tags: seq<string>)

  const EMPTY := State([], [])

  /** What a builder writes for `v`: its top prefix and a dot come first unless blank. */
  function Prefixed(prefixes: seq<string>, v: string): string {
    if prefixes != [] && prefixes[|prefixes| - 1] != ""
    then prefixes[|prefixes| - 1] + "." + v
    else v
  }

  function TagText(prefixes: seq<string>, c: Call): string
    requires c.Emits()
  {
    match c
    case Skip => ""
    case Optional => Pair("optional", "true")
    case Name(v) => Pair("name", Prefixed(prefixes, v))
    case OptionalName(v) => Pair("name", Prefixed(prefixes, v)) + " " + Pair("optional", "true")
    case Group(v) => Pair("group", Prefixed(prefixes, v))
  }

  function Step(s: State, c: Call): State {
    match c
    case Push(p) => s.(prefixes := s.prefixes + [p])
    case Pop => if s.prefixes == [] then s else s.(prefixes := s.prefixes[..|s.prefixes| - 1])
    case _ => s.(tags := s.tags + [TagText(s.prefixes, c)])
  }

  function Run(s: State, calls: seq<Call>): State {
    if calls == [] then s
    else Step(Run(s, calls[..|calls| - 1]), calls[|calls| - 1])
  }

  // ---------- What a sequence of calls means, without a stack ----------

  /** The prefix of the nearest enclosing Push that no Pop has closed, found by walking
      backwards over the calls; `closed` counts the Pops still waiting for their Push. */
  function InForce(calls: seq<Call>, closed: nat): Option<string> {
    if calls == [] then None
    else
      var before := calls[..|calls| - 1];
      match calls[|calls| - 1]
      case Push(p) => if closed == 0 then Some(p) else InForce(before, closed - 1)
      case Pop => InForce(before, closed + 1)
      case _ => InForce(before, closed)
  }

  /** The name a call asks for: under its prefix when one is in force and not blank. */
  function Scoped(scope: Option<string>, v: string): string {
    if scope.Some? && scope.value != "" then scope.value + "." + v else v
  }

  /** The component name or group that call `k` asks for; blank when it asks for none. */
  function Wanted(calls: seq<Call>, k: nat): string
    requires k < |calls|
  {
    if calls[k].Name? || calls[k].OptionalName? || calls[k].Group?
    then Scoped(InForce(calls[..k], 0), calls[k].value)
    else ""
  }

  /** The key/value pairs call `c` asks for, when the name or group it wants is `wanted`. */
  function Pairs(c: Call, wanted: string): map<string, string> {
    match c
    case Optional => map["optional" := "true"]
    case Name(_) => map["name" := wanted]
    case OptionalName(_) => map["name" := wanted, "optional" := "true"]
    case Group(_) => map["group" := wanted]
    case _ => map[]
  }

  /** How many of the calls produce a tag. */
  function Emitted(calls: seq<Call>): nat {
    if calls == [] then 0
    else Emitted(calls[..|calls| - 1]) + if calls[|calls| - 1].Emits() then 1 else 0
  }

  // ---------- The stack implements the scopes ----------

  lemma {:induction false} StackIsScopes(calls: seq<Call>, closed: nat)
    ensures var p := Run(EMPTY, calls).prefixes;
            InForce(calls, closed) == if closed < |p| then Some(p[|p| - 1 - closed]) else None
  {
    if calls != [] {
      var before := calls[..|calls| - 1];
      match calls[|calls| - 1]
      case Push(_) => if closed > 0 { StackIsScopes(before, closed - 1); }
      case Pop => StackIsScopes(before, closed + 1);
      case _ => StackIsScopes(before, closed);
    }
  }

  /** Tags are only ever added at the end, one for each call that produces one. */
  lemma {:induction false} TagsGrow(calls: seq<Call>, k: nat)
    requires k <= |calls|
    ensures Run(EMPTY, calls[..k]).tags <= Run(EMPTY, calls).tags
    ensures |Run(EMPTY, calls).tags| == Emitted(calls)
    decreases |calls|
  {
    if calls != [] {
      var before := calls[..|calls| - 1];
      if k < |calls| {
        assert before[..k] == calls[..k];
        TagsGrow(before, k);
      } else {
        assert calls[..k] == calls;
        TagsGrow(before, 0);
      }
    }
  }

  lemma Keys()
    ensures IsName("name") && IsName("group") && IsName("optional")
    ensures Clean("optional") && Clean("true") && "name" != "optional"
  {
    assert "name"[0] != "optional"[0];
  }

  /** One tag under a given stack, read back. */
  lemma TextReadsAs(prefixes: seq<string>, c: Call, wanted: string, esc: Decoder)
    requires EscapeRules(esc) && c.Emits()
    requires wanted == if c.Skip? || c.Optional? then "" else Prefixed(prefixes, c.value)
    ensures ReadsAs(TagText(prefixes, c), Pairs(c, wanted), esc) <==> Clean(wanted)
  {
    Keys();
    match c
    case Skip => EmptyTag(esc);
    case Optional => ReadsPair("optional", "true", esc);
    case Name(v) => ReadsPair("name", wanted, esc);
    case OptionalName(v) => ReadsTwoPairs("name", wanted, "optional", "true", esc);
    case Group(v) => ReadsPair("group", wanted, esc);
  }

  /** Call `k` put its own tag at its own place, and that tag is still there at the end. */
  lemma TagOfCall(calls: seq<Call>, k: nat)
    requires k < |calls| && calls[k].Emits()
    ensures var tags := Run(EMPTY, calls).tags;
            && |tags| == Emitted(calls)
            && Emitted(calls[..k]) < |tags|
            && tags[Emitted(calls[..k])] == TagText(Run(EMPTY, calls[..k]).prefixes, calls[k])
  {
    TagsGrow(calls[..k], 0);
    assert calls[..k + 1][..k] == calls[..k];
    TagsGrow(calls, k + 1);
  }

  lemma WantedIsPrefixed(calls: seq<Call>, k: nat)
    requires k < |calls|
    ensures Wanted(calls, k) ==
            if calls[k].Name? || calls[k].OptionalName? || calls[k].Group?
            then Prefixed(Run(EMPTY, calls[..k]).prefixes, calls[k].value) else ""
  {
    StackIsScopes(calls[..k], 0);
  }

  /** Printer and parser, over every sequence of calls: the tag of call `k` reads back as
      exactly the pairs that call asks for - and as nothing else - if and only if the wanted
      name is free of quotes, backslashes and newlines. */
  lemma {:induction false} RoundTrip(calls: seq<Call>, k: nat, esc: Decoder)
    requires EscapeRules(esc)
    requires k < |calls| && calls[k].Emits()
    ensures var tags := Run(EMPTY, calls).tags;
            && |tags| == Emitted(calls)
            && Emitted(calls[..k]) < |tags|
            && (ReadsAs(tags[Emitted(calls[..k])], Pairs(calls[k], Wanted(calls, k)), esc)
                <==> Clean(Wanted(calls, k)))
  {
    TagOfCall(calls, k);
    WantedIsPrefixed(calls, k);
    TextReadsAs(Run(EMPTY, calls[..k]).prefixes, calls[k], Wanted(calls, k), esc);
  }

  lemma PairSplit(k: string, v: string, x: string, y: string)
    requires x + "\"" == "\"" + y
    ensures Pair(k, v + x) == Pair(k, v) + y
  {
    calc {
      Pair(k, v + x);
      (k + ":\"" + v) + (x + "\"");
      (k + ":\"" + v) + ("\"" + y);
      Pair(k, v) + y;
    }
  }

  /** The failing family in one input: with a quote in it, a plain name prints the tag of an
      optional one, and reads back as that. */
  lemma QuoteSplitsName(prefixes: seq<string>, v: string, x: string)
    requires x + "\"" == "\"" + (" " + Pair("optional", "true"))
    ensures TagText(prefixes, Name(v + x)) == TagText(prefixes, OptionalName(v))
  {
    var p := Prefixed(prefixes, v);
    assert Prefixed(prefixes, v + x) == p + x;
    PairSplit("name", p, x, " " + Pair("optional", "true"));
    assert Pair("name", p) + (" " + Pair("optional", "true")) == Pair("name", p) + " " + Pair("optional", "true");
  }

  /** The shortest names that do not come back: one quote, one backslash, one newline; and some
      that do although they look like syntax. */
  lemma QuoteExample(v: string, esc: Decoder)
    requires EscapeRules(esc)
    ensures v == "\"" || v == "\\" || v == "\n" ==> !ReadsAs(TagText([], Name(v)), Pairs(Name(v), v), esc)
    ensures v == ":" || v == " " || v == "a.b" || v == "" ==> ReadsAs(TagText([], Name(v)), Pairs(Name(v), v), esc)
  {
    assert "\""[0] == '"' && "\\"[0] == '\\' && "\n"[0] == '\n';
    TextReadsAs([], Name(v), v, esc);
  }

  lemma OptionalNameText(v: string)
    ensures "name:\"" + v + "\" optional:\"true\"" == Pair("name", v) + " " + Pair("optional", "true")
  {
    assert "\" optional:\"true\"" == "\"" + (" " + Pair("optional", "true"));
    assert "name:\"" == "name" + ":\"";
  }

  // ---------- The builder itself, on Go slices ----------

  /** A slice handed out of a builder, and the tags it showed at that moment. */
  datatype Handout = Handout(slice: Slice<string>, shown: seq<string>)

  /** A new slice with room for exactly the elements of `s`, filled one by one. */
  method Copied(s: Slice<string>) returns (r: Slice<string>)
    requires s.Valid()
    ensures r.Valid() && r.View() == s.View()
    ensures r.arr != null && fresh(r.arr)
  {
    var a := new string[s.len];
    r := Slice(a, 0, 0, s.len);
    for i := 0 to s.len
      invariant r == Slice(a, 0, i, s.len)
      invariant a[..i] == s.View()[..i]
    {
      r := AppendOne(r, s.arr[s.off + i]);
    }
  }

  class TagBuilder {
    var prefixes: Slice<string>
    var tags: Slice<string>
    ghost var value: State  // what the two slices show
    ghost var handed: seq<Handout>  // every slice given away so far
    ghost var Repr: set<object>

    /** No handed-out slice reaches into the cells that a later append may write, and none
        lives in the prefix array, whose cells Pop clears. */
    ghost predicate Valid()
      reads this, Repr
    {
      && this in Repr
      && (prefixes.arr != null ==> prefixes.arr in Repr)
      && (tags.arr != null ==> tags.arr in Repr)
      && prefixes.Valid() && tags.Valid()
      && value == State(prefixes.View(), tags.View())
      && (prefixes.arr != null ==> prefixes.arr != tags.arr)
      && forall i :: 0 <= i < |handed| ==> Kept(handed[i])
    }

    ghost predicate Kept(h: Handout)
      reads this, Repr
    {
      && (h.slice.arr != null ==> h.slice.arr in Repr && h.slice.arr != prefixes.arr)
      && h.slice.Valid() && |h.shown| == h.slice.len
      && (forall j :: 0 <= j < |h.shown| ==> h.slice.arr[h.slice.off + j] == h.shown[j])
      && (h.slice.arr != null && h.slice.arr == tags.arr ==> h.slice.off + h.slice.len <= tags.off + tags.len)
    }

    constructor ()
      ensures Valid() && fresh(Repr) && value == EMPTY && handed == []
    {
      prefixes, tags := Nil(), Nil();
      value, handed := EMPTY, [];
      Repr := {this};
    }

    method Push(prefix: string)
      requires Valid()
      modifies Repr
      ensures Valid() && fresh(Repr - old(Repr)) && handed == old(handed)
      ensures value == Step(old(value), Call.Push(prefix))
    {
      prefixes := AppendOne(prefixes, prefix);
      value := Step(value, Call.Push(prefix));
      Repr := Repr + {prefixes.arr};
    }

    method Pop()
      requires Valid()
      modifies Repr
      ensures Valid() && fresh(Repr - old(Repr)) && handed == old(handed)
      ensures value == Step(old(value), Call.Pop)
      ensures tags == old(tags) && Repr == old(Repr)
      ensures old(prefixes.len) == 0 ==> prefixes == old(prefixes)
      ensures old(prefixes.len) > 0 ==>
                && prefixes == old(prefixes).(len := old(prefixes.len) - 1)
                && prefixes.arr != null && prefixes.off + prefixes.len < prefixes.arr.Length
                && prefixes.arr[prefixes.off + prefixes.len] == ""
    {
      if prefixes.len > 0 {
        prefixes.arr[prefixes.off + prefixes.len - 1] := "";
        prefixes := prefixes.(len := prefixes.len - 1);
        value := Step(value, Call.Pop);
      }
    }

    /** Appends the prefixed form of `v` to the text in `o`. */
    method WritePrefixedValue(o: string, v: string) returns (r: string)
      requires Valid()
      ensures r == o + Prefixed(value.prefixes, v)
    {
      r := o;
      if prefixes.len > 0 {
        var prefix := prefixes.arr[prefixes.off + prefixes.len - 1];
        if |prefix| > 0 {
          r := r + prefix;
          r := r + ".";
        }
      }
      r := r + v;
    }

    method AddTag(tag: string)
      requires Valid()
      modifies Repr
      ensures Valid() && fresh(Repr - old(Repr)) && handed == old(handed)
      ensures value == old(value).(tags := old(value.tags) + [tag])
    {
      tags := AppendOne(tags, tag);
      value := value.(tags := value.tags + [tag]);
      Repr := Repr + {tags.arr};
    }

    method Skip()
      requires Valid()
      modifies Repr
      ensures Valid() && fresh(Repr - old(Repr)) && handed == old(handed)
      ensures value == Step(old(value), Call.Skip)
    {
      AddTag("");
    }

    method Optional()
      requires Valid()
      modifies Repr
      ensures Valid() && fresh(Repr - old(Repr)) && handed == old(handed)
      ensures value == Step(old(value), Call.Optional)
    {
      AddTag("optional:\"true\"");
      assert Pair("optional", "true") == "optional:\"true\"";
    }

    method Name(v: string)
      requires Valid()
      modifies Repr
      ensures Valid() && fresh(Repr - old(Repr)) && handed == old(handed)
      ensures value == Step(old(value), Call.Name(v))
    {
      var o := WritePrefixedValue("name:\"", v);
      o := o + "\"";
      assert o == Pair("name", Prefixed(value.prefixes, v));
      AddTag(o);
    }

    method OptionalName(v: string)
      requires Valid()
      modifies Repr
      ensures Valid() && fresh(Repr - old(Repr)) && handed == old(handed)
      ensures value == Step(old(value), Call.OptionalName(v))
    {
      var o := WritePrefixedValue("name:\"", v);
      o := o + "\" optional:\"true\"";
      OptionalNameText(Prefixed(value.prefixes, v));
      AddTag(o);
    }

    method Group(v: string)
      requires Valid()
      modifies Repr
      ensures Valid() && fresh(Repr - old(Repr)) && handed == old(handed)
      ensures value == Step(old(value), Call.Group(v))
    {
      var o := WritePrefixedValue("group:\"", v);
      o := o + "\"";
      assert o == Pair("group", Prefixed(value.prefixes, v));
      AddTag(o);
    }

    /** A new slice with a copy of the tags. */
    method StructTags() returns (r: Slice<string>)
      requires Valid()
      ensures r.Valid() && r.View() == value.tags
      ensures r.arr != null && fresh(r.arr)
    {
      r := Copied(tags);
    }

    /** The annotation keeps the builder's own slice. */
    method ParamTags() returns (r: Slice<string>)
      requires Valid()
      modifies this`handed
      ensures Valid()
      ensures r == tags && handed == old(handed) + [Handout(r, value.tags)]
    {
      r := tags;
      handed := handed + [Handout(tags, tags.View())];
    }

    method ResultTags() returns (r: Slice<string>)
      requires Valid()
      modifies this`handed
      ensures Valid()
      ensures r == tags && handed == old(handed) + [Handout(r, value.tags)]
    {
      r := tags;
      handed := handed + [Handout(tags, tags.View())];
    }

    method Do(c: Call)
      requires Valid()
      modifies Repr
      ensures Valid() && fresh(Repr - old(Repr)) && handed == old(handed)
      ensures value == Step(old(value), c)
    {
      match c
      case Push(p) => Push(p);
      case Pop => Pop();
      case Skip => Skip();
      case Optional => Optional();
      case Name(v) => Name(v);
      case OptionalName(v) => OptionalName(v);
      case Group(v) => Group(v);
    }
  }

  /** `Tags()` followed by a chain of calls. */
  method Chained(calls: seq<Call>) returns (tb: TagBuilder)
    ensures tb.Valid() && fresh(tb.Repr) && tb.value == Run(EMPTY, calls)
  {
    tb := new TagBuilder();
    for i := 0 to |calls|
      invariant tb.Valid() && fresh(tb.Repr)
      invariant tb.value == Run(EMPTY, calls[..i])
    {
      assert calls[..i + 1] == calls[..i] + [calls[i]];
      RunStep(calls[..i], calls[i]);
      tb.Do(calls[i]);
    }
    assert calls[..|calls|] == calls;
  }

  /** The annotation at the end of such a chain shows what its calls mean, one after the other. */
  method TagsOf(calls: seq<Call>) returns (tags: Slice<string>)
    ensures tags.Valid() && tags.View() == Run(EMPTY, calls).tags
  {
    var tb := Chained(calls);
    tags := tb.ParamTags();
  }

  /** Any use of a builder: its calls, and requests for an annotation in between. */
  datatype Use = Build(call: Call) | AskParamTags | AskResultTags

  function Calls(uses: seq<Use>): seq<Call> {
    if uses == [] then []
    else
      var before := Calls(uses[..|uses| - 1]);
      if uses[|uses| - 1].Build? then before + [uses[|uses| - 1].call] else before
  }

  /** For each request along a run, the tags of the calls made before it. */
  function Asked(uses: seq<Use>): seq<seq<string>> {
    if uses == [] then []
    else
      var before := uses[..|uses| - 1];
      if uses[|uses| - 1].Build? then Asked(before) else Asked(before) + [Run(EMPTY, Calls(before)).tags]
  }

  lemma UseStep(before: seq<Use>, u: Use)
    ensures Calls(before + [u]) == if u.Build? then Calls(before) + [u.call] else Calls(before)
    ensures Asked(before + [u]) == if u.Build? then Asked(before) else Asked(before) + [Run(EMPTY, Calls(before)).tags]
    ensures Run(EMPTY, Calls(before + [u])) ==
            if u.Build? then Step(Run(EMPTY, Calls(before)), u.call) else Run(EMPTY, Calls(before))
  {
    assert (before + [u])[..|before|] == before;
    if u.Build? {
      RunStep(Calls(before), u.call);
    }
  }

  lemma RunStep(calls: seq<Call>, c: Call)
    ensures Run(EMPTY, calls + [c]) == Step(Run(EMPTY, calls), c)
  {
    assert (calls + [c])[..|calls|] == calls;
  }

  method Perform(tb: TagBuilder, u: Use) returns (view: Slice<string>)
    requires tb.Valid()
    modifies tb.Repr
    ensures tb.Valid() && fresh(tb.Repr - old(tb.Repr))
    ensures tb.value == if u.Build? then Step(old(tb.value), u.call) else old(tb.value)
    ensures tb.handed == if u.Build? then old(tb.handed) else old(tb.handed) + [Handout(view, old(tb.value.tags))]
  {
    match u
    case Build(c) =>
      view := Nil();
      tb.Do(c);
    case AskParamTags =>
      view := tb.ParamTags();
    case AskResultTags =>
      view := tb.ResultTags();
  }

  /** The builder is where `uses` leave it, and has handed out `views` on the way. */
  ghost predicate Tracks(tb: TagBuilder, views: seq<Slice<string>>, uses: seq<Use>)
    reads tb, tb.Repr
  {
    && tb.Valid()
    && tb.value == Run(EMPTY, Calls(uses))
    && |views| == |tb.handed| == |Asked(uses)|
    && forall k :: 0 <= k < |views| ==> tb.handed[k] == Handout(views[k], Asked(uses)[k])
  }

  method UseOnce(tb: TagBuilder, views: seq<Slice<string>>, ghost before: seq<Use>, u: Use)
    returns (views': seq<Slice<string>>)
    requires Tracks(tb, views, before)
    modifies tb.Repr
    ensures fresh(tb.Repr - old(tb.Repr))
    ensures Tracks(tb, views', before + [u])
  {
    UseStep(before, u);
    var v := Perform(tb, u);
    views' := if u.Build? then views else views + [v];
  }

  /** Along an arbitrary run, the slices in `views` are those that the builder handed out, in
      order and none besides, and each still shows, at the end of the run, the tags of the
      calls made before it was handed out. */
  method StableViews(uses: seq<Use>) returns (tb: TagBuilder, views: seq<Slice<string>>)
    ensures tb.Valid() && tb.value == Run(EMPTY, Calls(uses))
    ensures |views| == |tb.handed| == |Asked(uses)|
    ensures forall k :: 0 <= k < |views| ==> tb.handed[k] == Handout(views[k], Asked(uses)[k])
    ensures forall k :: 0 <= k < |views| ==> views[k].Valid() && views[k].View() == Asked(uses)[k]
  {
    tb := new TagBuilder();
    views := [];
    for i := 0 to |uses|
      invariant Tracks(tb, views, uses[..i]) && fresh(tb.Repr)
    {
      assert uses[..i + 1] == uses[..i] + [uses[i]];
      views := UseOnce(tb, views, uses[..i], uses[i]);
    }
    assert uses[..|uses|] == uses;
    forall k | 0 <= k < |views| ensures views[k].Valid() && views[k].View() == Asked(uses)[k] {
      assert tb.Kept(tb.handed[k]);
      assert views[k].View() == tb.handed[k].shown;
    }
  }
}
