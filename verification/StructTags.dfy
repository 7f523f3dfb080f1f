/** The reader of struct tags, `reflect.StructTag.Lookup` in the Go standard library:
    the tag builder writes this small language and fx reads it back.

    A Dafny `string` is a sequence of Unicode scalar values, that is, exactly a valid
    UTF-8 Go string; every test the scanner makes is on an ASCII byte. */
module StructTags {
  import opened Wrappers

  /** The escape decoder of `strconv.Unquote`: given text that starts with a backslash,
      the character it stands for and how much text it takes, or nothing when malformed. */
  type Decoder = string -> Option<(char, nat)>

  /** An escape is a backslash and at least one more character, none of them a colon. */
  ghost predicate EscapeRules(esc: Decoder) {
    forall s: string :: esc(s).Some? ==>
      2 <= esc(s).value.1 <= |s| &&
      forall i :: 0 <= i < esc(s).value.1 ==> s[i] != ':'
  }

  /** `strconv.Unquote` on the text between two double quotes. */
  function Unescape(s: string, esc: Decoder): (r: Option<string>)
    requires EscapeRules(esc)
    ensures r.Some? ==> |r.value| <= |s|
    decreases |s|
  {
    if s == "" then Some("")
    else if s[0] == '"' || s[0] == '\n' then None
    else if s[0] == '\\' then
      match esc(s)
      case None => None
      case Some((c, n)) => Prepend(c, Unescape(s[n..], esc))
    else Prepend(s[0], Unescape(s[1..], esc))
  }

  function Prepend(c: char, r: Option<string>): Option<string> {
    match r
    case None => None
    case Some(t) => Some([c] + t)
  }

  /** Text that needs no quoting at all. */
  predicate Clean(s: string) {
    forall i :: 0 <= i < |s| ==> s[i] != '"' && s[i] != '\\' && s[i] != '\n'
  }

  function SkipSpaces(t: string): (r: string)
    ensures |r| <= |t|
  {
    if t != "" && t[0] == ' ' then SkipSpaces(t[1..]) else t
  }

  predicate IsNameChar(c: char) {
    c > ' ' && c != ':' && c != '"' && c != '\U{7F}'
  }

  /** How many characters the key at the front of `t` has. */
  function NameLength(t: string): (n: nat)
    ensures n <= |t|
  {
    if t != "" && IsNameChar(t[0]) then 1 + NameLength(t[1..]) else 0
  }

  /** Where the first quote not hidden by a backslash is, from `i` on. */
  function QuoteEnd(q: string, i: nat): (j: nat)
    ensures i <= j
    decreases |q| - i
  {
    if i >= |q| || q[i] == '"' then i
    else if q[i] == '\\' then QuoteEnd(q, i + 2)
    else QuoteEnd(q, i + 1)
  }

  function Lookup(tag: string, key: string, esc: Decoder): Option<string>
    requires EscapeRules(esc)
    decreases |tag|, 1
  {
    Scan(SkipSpaces(tag), key, esc)
  }

  /** `Lookup` on a tag without leading spaces. */
  function Scan(t: string, key: string, esc: Decoder): Option<string>
    requires EscapeRules(esc)
    decreases |t|, 0
  {
    var n := NameLength(t);
    if n == 0 || n + 1 >= |t| || t[n] != ':' || t[n + 1] != '"' then None
    else
      var q := t[n + 1..];
      var j := QuoteEnd(q, 1);
      if j >= |q| then None
      else if key == t[..n] then Unescape(q[1..j], esc)
      else Lookup(q[j + 1..], key, esc)
  }

  /** One `key:"value"` pair, as the builder writes it. */
  function Pair(key: string, value: string): string {
    key + ":\"" + value + "\""
  }

  predicate IsName(k: string) {
    k != "" && forall i :: 0 <= i < |k| ==> IsNameChar(k[i])
  }

  /** The tag reads back as exactly the map `m`: its keys with their values, and no other key. */
  ghost predicate ReadsAs(tag: string, m: map<string, string>, esc: Decoder)
    requires EscapeRules(esc)
  {
    forall key: string :: Lookup(tag, key, esc) == if key in m then Some(m[key]) else None
  }

  lemma {:induction false} NameLengthOf(k: string, rest: string)
    requires forall i :: 0 <= i < |k| ==> IsNameChar(k[i])
    requires rest != "" && !IsNameChar(rest[0])
    ensures NameLength(k + rest) == |k|
  {
    if k == "" {
      assert k + rest == rest;
    } else {
      assert (k + rest)[1..] == k[1..] + rest;
      NameLengthOf(k[1..], rest);
    }
  }

  /** Over clean text the scanner reaches the quote that follows it. */
  lemma {:induction false} QuoteEndOf(q: string, i: nat, p: nat)
    requires i <= p < |q| && q[p] == '"' && Clean(q[i..p])
    ensures QuoteEnd(q, i) == p
    decreases p - i
  {
    if i < p {
      assert q[i..p][0] == q[i];
      assert q[i + 1..p] == q[i..p][1..];
      QuoteEndOf(q, i + 1, p);
    }
  }

  /** A quote the scanner runs past is hidden by the backslash before it. */
  lemma {:induction false} QuoteHidden(q: string, i: nat, p: nat)
    requires i <= p < |q| && q[p] == '"' && QuoteEnd(q, i) > p
    ensures i < p && q[p - 1] == '\\'
    ensures QuoteEnd(q, i) == QuoteEnd(q, p + 1)
    decreases p - i
  {
    if q[i] != '\\' {
      QuoteHidden(q, i + 1, p);
    } else if i + 1 < p {
      QuoteHidden(q, i + 2, p);
    }
  }

  /** A colon at the end is never swallowed by an escape. */
  lemma {:induction false} UnescapeKeepsColon(s: string, esc: Decoder)
    requires EscapeRules(esc) && s != "" && s[|s| - 1] == ':'
    ensures var r := Unescape(s, esc); r.Some? ==> r.value != "" && r.value[|r.value| - 1] == ':'
    decreases |s|
  {
    if s[0] == '\\' && esc(s).Some? {
      var n := esc(s).value.1;
      UnescapeKeepsColon(s[n..], esc);
    } else if |s| > 1 {
      UnescapeKeepsColon(s[1..], esc);
    }
  }

  /** What follows the colon of a pair: the value in quotes and the rest of the tag. */
  function Quoted(v: string, rest: string): string {
    "\"" + v + "\"" + rest
  }

  lemma QuotedShape(v: string, rest: string)
    ensures var q := Quoted(v, rest);
            && |q| == |v| + 2 + |rest|
            && q[0] == '"' && q[1..|v| + 1] == v && q[|v| + 1] == '"' && q[|v| + 2..] == rest
  {
  }

  /** The first steps of `Lookup` on a tag that starts with a pair. */
  lemma LookupPair(k: string, v: string, rest: string, key: string, esc: Decoder)
    requires EscapeRules(esc) && IsName(k)
    ensures var q := Quoted(v, rest);
            var j := QuoteEnd(q, 1);
            Lookup(Pair(k, v) + rest, key, esc) ==
              if j >= |q| then None
              else if key == k then Unescape(q[1..j], esc)
              else Lookup(q[j + 1..], key, esc)
  {
    var tag := Pair(k, v) + rest;
    var q := Quoted(v, rest);
    assert tag == k + (":" + q);
    assert tag[0] == k[0];
    assert SkipSpaces(tag) == tag;
    NameLengthOf(k, ":" + q);
    assert tag[|k| + 1..] == q;
    assert tag[..|k|] == k;
  }

  lemma LookupCleanPair(k: string, v: string, rest: string, key: string, esc: Decoder)
    requires EscapeRules(esc) && IsName(k) && Clean(v)
    ensures Lookup(Pair(k, v) + rest, key, esc) == if key == k then Some(v) else Lookup(rest, key, esc)
  {
    var q := Quoted(v, rest);
    LookupPair(k, v, rest, key, esc);
    QuotedShape(v, rest);
    QuoteEndOf(q, 1, 1 + |v|);
    UnescapeFixpoint(v, esc);
  }

  /** Unquoting leaves a text as it is exactly when there is nothing to quote in it. */
  lemma {:induction false} UnescapeFixpoint(s: string, esc: Decoder)
    requires EscapeRules(esc)
    ensures Unescape(s, esc) == Some(s) <==> Clean(s)
    decreases |s|
  {
    if s != "" {
      assert Clean(s) <==> Clean([s[0]]) && Clean(s[1..]) by {
        assert s == [s[0]] + s[1..];
      }
      UnescapeFixpoint(s[1..], esc);
      assert forall t: string :: s == [s[0]] + t <==> t == s[1..];
    }
  }

  /** When the closing quote of `v` is hidden, what the scanner takes for the value ends in
      the colon of the next pair, and `v` does not. */
  lemma {:induction false} HiddenClosingQuote(q: string, v: string, e: nat, esc: Decoder)
    requires EscapeRules(esc)
    requires |v| + 1 < |q| && q[1..1 + |v|] == v && q[|v| + 1] == '"'
    requires QuoteEnd(q, 1) > |v| + 1
    requires |q| == |v| + 2 ||
             (|v| + 2 < e < |q| && Clean(q[|v| + 2..e]) && q[e - 1] == ':' && q[e] == '"')
    ensures var j := QuoteEnd(q, 1); j >= |q| || Unescape(q[1..j], esc) != Some(v)
  {
    QuoteHidden(q, 1, |v| + 1);
    if |q| > |v| + 2 {
      QuoteEndOf(q, |v| + 2, e);
      UnescapeKeepsColon(q[1..e], esc);
      assert v[|v| - 1] == q[|v|];
    }
  }

  /** Whatever the scanner cuts out where a value that is not clean was written, it is not
      that value. */
  lemma DirtyScan(q: string, v: string, e: nat, esc: Decoder)
    requires EscapeRules(esc) && !Clean(v)
    requires |v| + 1 < |q| && q[1..1 + |v|] == v && q[|v| + 1] == '"'
    requires |q| == |v| + 2 ||
             (|v| + 2 < e < |q| && Clean(q[|v| + 2..e]) && q[e - 1] == ':' && q[e] == '"')
    ensures var j := QuoteEnd(q, 1); j >= |q| || Unescape(q[1..j], esc) != Some(v)
  {
    var j := QuoteEnd(q, 1);
    if j == |v| + 1 {
      UnescapeFixpoint(v, esc);
    } else if j > |v| + 1 {
      HiddenClosingQuote(q, v, e, esc);
    }
  }

  /** A value that is not clean never comes back, whether it ends the tag (`rest` empty) or
      is followed by another pair, whose opening quote is at `e`. */
  lemma LookupDirtyPair(k: string, v: string, rest: string, e: nat, esc: Decoder)
    requires EscapeRules(esc) && IsName(k) && !Clean(v)
    requires rest == "" || (0 < e < |rest| && Clean(rest[..e]) && rest[e - 1] == ':' && rest[e] == '"')
    ensures Lookup(Pair(k, v) + rest, k, esc) != Some(v)
  {
    var q := Quoted(v, rest);
    QuotedShape(v, rest);
    if rest != "" {
      assert q[|v| + 2..|v| + 2 + e] == q[|v| + 2..][..e];
    }
    DirtyScan(q, v, |v| + 2 + e, esc);
    LookupPair(k, v, rest, k, esc);
  }

  lemma EmptyTag(esc: Decoder)
    requires EscapeRules(esc)
    ensures ReadsAs("", map[], esc)
  {
  }

  /** A lone pair reads back as itself exactly when its value is clean. */
  lemma ReadsPair(k: string, v: string, esc: Decoder)
    requires EscapeRules(esc) && IsName(k)
    ensures ReadsAs(Pair(k, v), map[k := v], esc) <==> Clean(v)
  {
    assert Pair(k, v) + "" == Pair(k, v);
    if Clean(v) {
      forall key: string
        ensures Lookup(Pair(k, v), key, esc) == if key in map[k := v] then Some(map[k := v][key]) else None
      {
        LookupCleanPair(k, v, "", key, esc);
        EmptyTag(esc);
      }
    } else {
      LookupDirtyPair(k, v, "", 0, esc);
      assert k in map[k := v];
    }
  }

  /** The same for a pair followed by a second, clean one under another key. */
  lemma ReadsTwoPairs(k: string, v: string, k2: string, v2: string, esc: Decoder)
    requires EscapeRules(esc) && IsName(k) && IsName(k2) && Clean(k2) && k != k2 && Clean(v2)
    ensures ReadsAs(Pair(k, v) + " " + Pair(k2, v2), map[k := v, k2 := v2], esc) <==> Clean(v)
  {
    var m := map[k := v, k2 := v2];
    var second := Pair(k2, v2);
    var rest := " " + second;
    var tag := Pair(k, v) + rest;
    assert tag == Pair(k, v) + " " + second;
    if Clean(v) {
      forall key: string ensures Lookup(tag, key, esc) == if key in m then Some(m[key]) else None {
        LookupCleanPair(k, v, rest, key, esc);
        LookupAfterSpace(second, key, esc);
        assert second == second + "";
        LookupCleanPair(k2, v2, "", key, esc);
        EmptyTag(esc);
      }
    } else {
      var e := |k2| + 2;
      assert rest[..e] == " " + k2 + ":";
      assert Clean(rest[..e]);
      assert rest[e - 1] == rest[..e][e - 1];
      LookupDirtyPair(k, v, rest, e, esc);
      assert k in m && m[k] == v;
    }
  }

  lemma LookupAfterSpace(tag: string, key: string, esc: Decoder)
    requires EscapeRules(esc)
    ensures Lookup(" " + tag, key, esc) == Lookup(tag, key, esc)
  {
    assert (" " + tag)[1..] == tag;
    assert SkipSpaces(" " + tag) == SkipSpaces(tag);
  }
}
