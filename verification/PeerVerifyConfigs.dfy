/** `PeerVerifyConfig` of `arrangetls/tls.go`: matching peer certificates by name. */
module PeerVerifyConfigs {
  import opened Wrappers
  import opened GoSlices

  /** A parsed certificate, as far as matching looks at it. */
  datatype Certificate = Certificate(dnsNames: seq<string>, commonName: string, serial: int)

  datatype MatchError = NoMatch(certificate: Certificate)

  // ---------- Strings ----------

  /** strings.ToLower on ASCII; other characters stay. */
  function LowerChar(c: char): char {
    if 'A' <= c <= 'Z' then c + (32 as char) else c
  }

  function Lower(s: string): (r: string)
    ensures |r| == |s|
    ensures forall i :: 0 <= i < |s| ==> r[i] == LowerChar(s[i])
  {
    seq(|s|, i requires 0 <= i < |s| => LowerChar(s[i]))
  }

  predicate HasSuffix(s: string, suffix: string) {
    |suffix| <= |s| && s[|s| - |suffix|..] == suffix
  }

  function LowerAll(ss: seq<string>): (r: seq<string>)
    ensures |r| == |ss|
    ensures forall i :: 0 <= i < |ss| ==> r[i] == Lower(ss[i])
  {
    seq(|ss|, i requires 0 <= i < |ss| => Lower(ss[i]))
  }

  // ---------- What a configuration means ----------

  /** The same character, or one ASCII letter in upper and in lower case. */
  predicate SameLetter(a: char, b: char) {
    || a == b
    || ('A' <= a <= 'Z' && b as int == a as int + 32)
    || ('A' <= b <= 'Z' && a as int == b as int + 32)
  }

  predicate SameButCase(s: string, t: string) {
    |s| == |t| && forall i :: 0 <= i < |s| ==> SameLetter(s[i], t[i])
  }

  predicate EndsWith(name: string, suffix: string) {
    |suffix| <= |name| && SameButCase(name[|name| - |suffix|..], suffix)
  }

  /** A name of the certificate ends in `suffix`, whatever the case of either. */
  predicate EndsIn(cert: Certificate, suffix: string) {
    EndsWith(cert.commonName, suffix) || exists name :: name in cert.dnsNames && EndsWith(name, suffix)
  }

  /** The promise: some suffix matches, or a listed common name is the certificate's exactly. */
  predicate Accepts(suffixes: seq<string>, names: seq<string>, cert: Certificate) {
    || (exists i :: 0 <= i < |suffixes| && EndsIn(cert, suffixes[i]))
    || cert.commonName in names
  }

  /** What the closure's copy of the configuration decides, its suffixes in lower case already. */
  predicate Matches(lowered: seq<string>, names: seq<string>, cert: Certificate) {
    || (exists i :: 0 <= i < |lowered| && MatchesSuffix(cert, lowered[i]))
    || cert.commonName in names
  }

  predicate MatchesSuffix(cert: Certificate, lowered: string) {
    || (exists j :: 0 <= j < |cert.dnsNames| && HasSuffix(Lower(cert.dnsNames[j]), lowered))
    || HasSuffix(Lower(cert.commonName), lowered)
  }

  /** Lowering changes nothing but case and leaves no capital letter. */
  lemma LowerChangesCase(s: string)
    ensures SameButCase(s, Lower(s))
    ensures forall i :: 0 <= i < |s| ==> !('A' <= Lower(s)[i] <= 'Z')
  {
  }

  /** Lowered strings are equal exactly when only case tells the strings apart. */
  lemma LowerEqualIff(s: string, t: string)
    ensures Lower(s) == Lower(t) <==> SameButCase(s, t)
  {
    if Lower(s) == Lower(t) {
      forall i | 0 <= i < |s| ensures SameLetter(s[i], t[i]) {
        assert Lower(s)[i] == Lower(t)[i];
      }
    }
  }

  lemma SuffixIgnoresCase(name: string, suffix: string)
    ensures HasSuffix(Lower(name), Lower(suffix)) <==> EndsWith(name, suffix)
  {
    if |suffix| <= |name| {
      var end := name[|name| - |suffix|..];
      assert Lower(name)[|name| - |suffix|..] == Lower(end);
      LowerEqualIff(end, suffix);
    }
  }

  lemma {:induction false} CopyMeansSame(suffixes: seq<string>, names: seq<string>, cert: Certificate)
    ensures Matches(LowerAll(suffixes), names, cert) <==> Accepts(suffixes, names, cert)
  {
    var lowered := LowerAll(suffixes);
    forall i | 0 <= i < |suffixes| ensures MatchesSuffix(cert, lowered[i]) <==> EndsIn(cert, suffixes[i]) {
      SuffixMeansSame(cert, suffixes[i]);
    }
    if i :| 0 <= i < |suffixes| && EndsIn(cert, suffixes[i]) {
      assert MatchesSuffix(cert, lowered[i]);
    }
  }

  lemma SuffixMeansSame(cert: Certificate, suffix: string)
    ensures MatchesSuffix(cert, Lower(suffix)) <==> EndsIn(cert, suffix)
  {
    SuffixIgnoresCase(cert.commonName, suffix);
    forall j | 0 <= j < |cert.dnsNames|
      ensures HasSuffix(Lower(cert.dnsNames[j]), Lower(suffix)) <==> EndsWith(cert.dnsNames[j], suffix)
    {
      SuffixIgnoresCase(cert.dnsNames[j], suffix);
    }
    if name :| name in cert.dnsNames && EndsWith(name, suffix) {
      var j :| 0 <= j < |cert.dnsNames| && cert.dnsNames[j] == name;
      assert HasSuffix(Lower(cert.dnsNames[j]), Lower(suffix));
    }
  }

  // ---------- The code ----------

  /** The copy that the closure returned by Verifier holds. */
  datatype Clone = Clone(suffixes: Slice<string>, names: Slice<string>) {
    ghost predicate Valid() { suffixes.Valid() && names.Valid() }
  }

  class PeerVerifyConfig {
    var dnsSuffixes: Slice<string>
    var commonNames: Slice<string>

    ghost predicate Valid()
      reads this
    {
      dnsSuffixes.Valid() && commonNames.Valid()
    }

    constructor (dnsSuffixes: Slice<string>, commonNames: Slice<string>)
      requires dnsSuffixes.Valid() && commonNames.Valid()
      ensures Valid() && this.dnsSuffixes == dnsSuffixes && this.commonNames == commonNames
    {
      this.dnsSuffixes, this.commonNames := dnsSuffixes, commonNames;
    }

    /** Nothing when nothing is configured; else a closure over new arrays of its own. */
    method Verifier() returns (v: Option<Clone>)
      requires Valid()
      ensures v.Some? <==> dnsSuffixes.len > 0 || commonNames.len > 0
      ensures v.Some? ==>
                && v.value.Valid()
                && (v.value.suffixes.arr != null ==> fresh(v.value.suffixes.arr))
                && (v.value.names.arr != null ==> fresh(v.value.names.arr))
                && v.value.suffixes.View() == LowerAll(dnsSuffixes.View())
                && v.value.names.View() == commonNames.View()
    {
      v := None;
      if dnsSuffixes.len > 0 || commonNames.len > 0 {
        var clone := Clone(Nil(), Nil());
        if dnsSuffixes.len > 0 {
          var a := new string[dnsSuffixes.len];
          for i := 0 to dnsSuffixes.len
            invariant a[..i] == LowerAll(dnsSuffixes.View())[..i]
          {
            a[i] := Lower(dnsSuffixes.arr[dnsSuffixes.off + i]);
          }
          clone := clone.(suffixes := Whole(a));
        }
        if commonNames.len > 0 {
          var names := GoSlices.Append(clone.names, commonNames);
          clone := clone.(names := names);
        }
        v := Some(clone);
      }
    }
  }

  /** `verify`: suffixes against DNS names and the common name, then exact common names. */
  method Verify(clone: Clone, peerCert: Certificate) returns (err: Option<MatchError>)
    requires clone.Valid()
    ensures err == if Matches(clone.suffixes.View(), clone.names.View(), peerCert) then None
                   else Some(NoMatch(peerCert))
  {
    err := None;
    var suffixes, names := clone.suffixes.View(), clone.names.View();
    for i := 0 to |suffixes|
      invariant forall k :: 0 <= k < i ==> !MatchesSuffix(peerCert, suffixes[k])
    {
      for j := 0 to |peerCert.dnsNames|
        invariant forall k :: 0 <= k < j ==> !HasSuffix(Lower(peerCert.dnsNames[k]), suffixes[i])
      {
        if HasSuffix(Lower(peerCert.dnsNames[j]), suffixes[i]) {
          assert MatchesSuffix(peerCert, suffixes[i]);
          return;
        }
      }
      if HasSuffix(Lower(peerCert.commonName), suffixes[i]) {
        assert MatchesSuffix(peerCert, suffixes[i]);
        return;
      }
    }
    for i := 0 to |names|
      invariant peerCert.commonName !in names[..i]
    {
      if names[i] == peerCert.commonName {
        return;
      }
    }
    assert names[..|names|] == names;
    err := Some(NoMatch(peerCert));
  }

  // ---------- The closure and later changes ----------

  /** Something done to a configuration: a write into one of its lists, a list cut down or
      stretched over its spare capacity, or new lists.  An append is a stretch and a write when
      there is capacity, and a new list otherwise. */
  datatype Change =
    | WriteSuffix(i: nat, s: string)
    | WriteName(i: nat, s: string)
    | ResliceSuffixes(lo: nat, hi: nat)
    | ResliceNames(lo: nat, hi: nat)
    | Replace(suffixes: seq<string>, names: seq<string>)

  /** The cells a list can reach, of which the first `len` are its elements. */
  datatype Window = Window(cells: seq<string>, len: nat) {
    function Written(i: int, s: string): Window {
      if 0 <= i < |cells| then this.(cells := cells[i := s]) else this
    }

    function Resliced(lo: nat, hi: nat): Window
      requires lo <= hi <= |cells|
    {
      Window(cells[lo..], hi - lo)
    }
  }

  /** The lists of a configuration, and how many cells the names start after the suffixes when
      both are windows into the same array. */
  datatype Fields = Fields(suffixes: Window, names: Window, shared: Option<int>)

  function Shifted(shared: Option<int>, d: int): Option<int> {
    if shared.Some? then Some(shared.value + d) else None
  }

  /** The effect of one change, on values; out of bounds there is none.  A write into a shared
      array may be seen through both lists. */
  function Changed(f: Fields, change: Change): Fields {
    match change
    case WriteSuffix(i, s) =>
      if i >= f.suffixes.len then f
      else
        f.(suffixes := f.suffixes.Written(i, s),
           names := if f.shared.Some? then f.names.Written(i - f.shared.value, s) else f.names)
    case WriteName(i, s) =>
      if i >= f.names.len then f
      else
        f.(suffixes := if f.shared.Some? then f.suffixes.Written(i + f.shared.value, s) else f.suffixes,
           names := f.names.Written(i, s))
    case ResliceSuffixes(lo, hi) =>
      if lo <= hi <= |f.suffixes.cells|
      then f.(suffixes := f.suffixes.Resliced(lo, hi), shared := Shifted(f.shared, 0 - lo)) else f
    case ResliceNames(lo, hi) =>
      if lo <= hi <= |f.names.cells|
      then f.(names := f.names.Resliced(lo, hi), shared := Shifted(f.shared, lo)) else f
    case Replace(suffixes, names) => Fields(Window(suffixes, |suffixes|), Window(names, |names|), None)
  }

  function ChangeAll(f: Fields, changes: seq<Change>): Fields {
    if changes == [] then f
    else Changed(ChangeAll(f, changes[..|changes| - 1]), changes[|changes| - 1])
  }

  function WindowOf(s: Slice<string>): (w: Window)
    requires s.Valid()
    reads s.arr
    ensures |w.cells| == s.cap
  {
    Window(if s.arr == null then [] else s.arr[s.off..s.off + s.cap], s.len)
  }

  function FieldsOf(suffixes: Slice<string>, names: Slice<string>): Fields
    requires suffixes.Valid() && names.Valid()
    reads suffixes.arr, names.arr
  {
    var shared := if names.arr != null && suffixes.arr == names.arr then Some(names.off - suffixes.off) else None;
    Fields(WindowOf(suffixes), WindowOf(names), shared)
  }

  /** A write through one slice, and what a second slice sees of it. */
  method WriteThrough(w: Slice<string>, seen: Slice<string>, i: nat, s: string)
    requires w.Valid() && seen.Valid() && i < w.len
    modifies w.arr
    ensures WindowOf(w) == old(WindowOf(w)).Written(i, s)
    ensures WindowOf(seen) ==
            if seen.arr == w.arr then old(WindowOf(seen)).Written(i - (seen.off - w.off), s)
            else old(WindowOf(seen))
  {
    w.arr[w.off + i] := s;
  }

  /** The Go expression `s[lo:hi]`. */
  function Reslice(s: Slice<string>, lo: nat, hi: nat): (r: Slice<string>)
    requires s.Valid() && lo <= hi <= s.cap
    ensures r.Valid()
  {
    Slice(s.arr, s.off + lo, hi - lo, s.cap - lo)
  }

  lemma ResliceWindow(s: Slice<string>, lo: nat, hi: nat)
    requires s.Valid() && lo <= hi <= s.cap
    ensures WindowOf(Reslice(s, lo, hi)) == WindowOf(s).Resliced(lo, hi)
  {
    if s.arr != null {
      assert s.arr[s.off + lo..s.off + s.cap] == s.arr[s.off..s.off + s.cap][lo..];
    }
  }

  method Literal(ss: seq<string>) returns (r: Slice<string>)
    ensures r.Valid() && r.arr != null && fresh(r.arr) && WindowOf(r) == Window(ss, |ss|)
  {
    var a := new string[|ss|](i requires 0 <= i < |ss| => ss[i]);
    r := Whole(a);
  }

  /** The configuration's lists are what `f` says. */
  ghost predicate Holds(c: PeerVerifyConfig, f: Fields)
    reads c, c.dnsSuffixes.arr, c.commonNames.arr
  {
    c.Valid() && FieldsOf(c.dnsSuffixes, c.commonNames) == f
  }

  method ApplyWrite(c: PeerVerifyConfig, change: Change, ghost f: Fields)
    requires Holds(c, f) && (change.WriteSuffix? || change.WriteName?)
    modifies c.dnsSuffixes.arr, c.commonNames.arr
    ensures Holds(c, Changed(f, change))
  {
    if change.WriteSuffix? {
      if change.i < c.dnsSuffixes.len {
        WriteThrough(c.dnsSuffixes, c.commonNames, change.i, change.s);
      }
    } else if change.i < c.commonNames.len {
      WriteThrough(c.commonNames, c.dnsSuffixes, change.i, change.s);
    }
  }

  lemma ResliceSuffixesFields(suffixes: Slice<string>, names: Slice<string>, lo: nat, hi: nat)
    requires suffixes.Valid() && names.Valid() && lo <= hi <= suffixes.cap
    ensures FieldsOf(Reslice(suffixes, lo, hi), names) == Changed(FieldsOf(suffixes, names), ResliceSuffixes(lo, hi))
  {
    ResliceWindow(suffixes, lo, hi);
  }

  lemma ResliceNamesFields(suffixes: Slice<string>, names: Slice<string>, lo: nat, hi: nat)
    requires suffixes.Valid() && names.Valid() && lo <= hi <= names.cap
    ensures FieldsOf(suffixes, Reslice(names, lo, hi)) == Changed(FieldsOf(suffixes, names), ResliceNames(lo, hi))
  {
    ResliceWindow(names, lo, hi);
  }

  method ApplyReslice(suffixes: Slice<string>, names: Slice<string>, change: Change)
    returns (suffixes': Slice<string>, names': Slice<string>)
    requires suffixes.Valid() && names.Valid() && (change.ResliceSuffixes? || change.ResliceNames?)
    ensures suffixes'.Valid() && names'.Valid() && suffixes'.arr == suffixes.arr && names'.arr == names.arr
    ensures FieldsOf(suffixes', names') == Changed(FieldsOf(suffixes, names), change)
  {
    var lo, hi := change.lo, change.hi;
    suffixes', names' := suffixes, names;
    if change.ResliceSuffixes? {
      if lo <= hi <= suffixes.cap {
        suffixes' := Reslice(suffixes, lo, hi);
        ResliceSuffixesFields(suffixes, names, lo, hi);
      }
    } else if lo <= hi <= names.cap {
      names' := Reslice(names, lo, hi);
      ResliceNamesFields(suffixes, names, lo, hi);
    }
  }

  /** One change does to a configuration what it means on values. */
  method Apply(c: PeerVerifyConfig, change: Change, ghost f: Fields)
    requires Holds(c, f)
    modifies c, c.dnsSuffixes.arr, c.commonNames.arr
    ensures Holds(c, Changed(f, change))
    ensures c.dnsSuffixes.arr == old(c.dnsSuffixes.arr) || fresh(c.dnsSuffixes.arr)
    ensures c.commonNames.arr == old(c.commonNames.arr) || fresh(c.commonNames.arr)
  {
    if change.WriteSuffix? || change.WriteName? {
      ApplyWrite(c, change, f);
    } else if change.ResliceSuffixes? || change.ResliceNames? {
      var suffixes, names := ApplyReslice(c.dnsSuffixes, c.commonNames, change);
      c.dnsSuffixes, c.commonNames := suffixes, names;
    } else {
      var suffixes := Literal(change.suffixes);
      var names := Literal(change.names);
      c.dnsSuffixes, c.commonNames := suffixes, names;
    }
  }

  predicate Apart(s: Slice<string>, t: Slice<string>) {
    s.arr == null || s.arr != t.arr
  }

  /** No field of the configuration reaches into an array of the closure. */
  ghost predicate Separate(clone: Clone, c: PeerVerifyConfig)
    reads c
  {
    && Apart(clone.suffixes, c.dnsSuffixes) && Apart(clone.suffixes, c.commonNames)
    && Apart(clone.names, c.dnsSuffixes) && Apart(clone.names, c.commonNames)
  }

  method ChangeConfig(c: PeerVerifyConfig, changes: seq<Change>, ghost clone: Clone, ghost f: Fields)
    requires Holds(c, f) && Separate(clone, c)
    modifies c, c.dnsSuffixes.arr, c.commonNames.arr
    ensures Holds(c, ChangeAll(f, changes)) && Separate(clone, c)
  {
    for k := 0 to |changes|
      invariant Holds(c, ChangeAll(f, changes[..k])) && Separate(clone, c)
      invariant c.dnsSuffixes.arr == old(c.dnsSuffixes.arr) || fresh(c.dnsSuffixes.arr)
      invariant c.commonNames.arr == old(c.commonNames.arr) || fresh(c.commonNames.arr)
    {
      assert changes[..k + 1][..k] == changes[..k];
      Apply(c, changes[k], ChangeAll(f, changes[..k]));
    }
    assert changes[..|changes|] == changes;
  }

  ghost predicate Shows(clone: Clone, suffixes: seq<string>, names: seq<string>)
    reads clone.suffixes.arr, clone.names.arr
  {
    clone.Valid() && clone.suffixes.View() == suffixes && clone.names.View() == names
  }

  /** A verifier is made, then anything is done to its configuration, and then the verifier sees
      a certificate.  The configuration shows all the changes; the closure shows none of them
      and decides by what was configured when it was made. */
  method VerifierIsFrozen(c: PeerVerifyConfig, changes: seq<Change>, cert: Certificate)
    returns (clone: Clone, err: Option<MatchError>)
    requires c.Valid() && (c.dnsSuffixes.len > 0 || c.commonNames.len > 0)
    modifies c, c.dnsSuffixes.arr, c.commonNames.arr
    ensures Holds(c, ChangeAll(old(FieldsOf(c.dnsSuffixes, c.commonNames)), changes)) && Separate(clone, c)
    ensures Shows(clone, LowerAll(old(c.dnsSuffixes.View())), old(c.commonNames.View()))
    ensures err == if Matches(clone.suffixes.View(), clone.names.View(), cert) then None else Some(NoMatch(cert))
    ensures err.None? <==> Accepts(old(c.dnsSuffixes.View()), old(c.commonNames.View()), cert)
  {
    ghost var suffixes, names := c.dnsSuffixes.View(), c.commonNames.View();
    ghost var before := FieldsOf(c.dnsSuffixes, c.commonNames);
    var v := c.Verifier();
    clone := v.value;
    ChangeConfig(c, changes, clone, before);
    err := Verify(clone, cert);
    CopyMeansSame(suffixes, names, cert);
  }

  // ---------- What matching does not depend on ----------

  /** Every string of `a` is in `b`, up to case. */
  predicate Covered(a: seq<string>, b: seq<string>) {
    forall s :: s in a ==> exists t :: t in b && SameButCase(s, t)
  }

  lemma EndsWithAnyCase(name: string, suffix: string, name': string, suffix': string)
    requires SameButCase(name, name') && SameButCase(suffix, suffix') && EndsWith(name, suffix)
    ensures EndsWith(name', suffix')
  {
    var d := |name| - |suffix|;
    forall i | 0 <= i < |suffix| ensures SameLetter(name'[d..][i], suffix'[i]) {
      assert SameLetter(name[d + i], name'[d + i]);
      assert SameLetter(name[d..][i], suffix[i]);
    }
  }

  lemma AcceptsCovered(
    suffixes: seq<string>, suffixes': seq<string>, names: seq<string>, names': seq<string>,
    cert: Certificate, cert': Certificate)
    requires Covered(suffixes, suffixes') && (forall n :: n in names ==> n in names')
    requires Covered(cert.dnsNames, cert'.dnsNames) && cert.commonName == cert'.commonName
    requires Accepts(suffixes, names, cert)
    ensures Accepts(suffixes', names', cert')
  {
    if i :| 0 <= i < |suffixes| && EndsIn(cert, suffixes[i]) {
      assert suffixes[i] in suffixes;
      var t :| t in suffixes' && SameButCase(suffixes[i], t);
      var k :| 0 <= k < |suffixes'| && suffixes'[k] == t;
      if EndsWith(cert.commonName, suffixes[i]) {
        EndsWithAnyCase(cert.commonName, suffixes[i], cert.commonName, t);
      } else {
        var name :| name in cert.dnsNames && EndsWith(name, suffixes[i]);
        var name' :| name' in cert'.dnsNames && SameButCase(name, name');
        EndsWithAnyCase(name, suffixes[i], name', t);
      }
      assert EndsIn(cert', suffixes'[k]);
    }
  }

  /** Order, repetition and case of suffixes and DNS names make no difference; the common name
      and the listed common names count as they are. */
  lemma CaseAndOrderIrrelevant(
    suffixes: seq<string>, suffixes': seq<string>, names: seq<string>, names': seq<string>,
    cert: Certificate, cert': Certificate)
    requires Covered(suffixes, suffixes') && Covered(suffixes', suffixes)
    requires forall n :: n in names <==> n in names'
    requires Covered(cert.dnsNames, cert'.dnsNames) && Covered(cert'.dnsNames, cert.dnsNames)
    requires cert.commonName == cert'.commonName
    ensures Accepts(suffixes, names, cert) <==> Accepts(suffixes', names', cert')
  {
    if Accepts(suffixes, names, cert) {
      AcceptsCovered(suffixes, suffixes', names, names', cert, cert');
    }
    if Accepts(suffixes', names', cert') {
      AcceptsCovered(suffixes', suffixes, names', names, cert', cert);
    }
  }

  /** Case is all that is overlooked: of names as long as the suffix, a verifier accepts exactly
      those that differ from it in case alone - a letter from its capital, but not an at sign
      from the grave accent or a bracket from the brace, which are as far apart. */
  lemma OnlyCaseIsOverlooked(suffix: string, name: string)
    requires suffix != "" && |name| == |suffix|
    ensures Matches(LowerAll([suffix]), [], Certificate([name], "", 0)) <==> SameButCase(name, suffix)
    ensures SameLetter('B', 'b') && SameLetter('b', 'B') && !SameLetter('@', '`') && !SameLetter('[', '{')
  {
    var cert := Certificate([name], "", 0);
    CopyMeansSame([suffix], [], cert);
    assert name[|name| - |suffix|..] == name;
    assert name in cert.dnsNames;
    assert EndsIn(cert, suffix) <==> EndsIn(cert, [suffix][0]);
  }

  /** More entries never make a certificate fail. */
  lemma MoreEntriesAcceptMore(
    suffixes: seq<string>, names: seq<string>, more: seq<string>, moreNames: seq<string>, cert: Certificate)
    ensures Accepts(suffixes, names, cert) ==> Accepts(suffixes + more, names + moreNames, cert)
  {
    if i :| 0 <= i < |suffixes| && EndsIn(cert, suffixes[i]) {
      assert (suffixes + more)[i] == suffixes[i];
    }
  }

  /** A blank suffix accepts every certificate; and without a blank entry a certificate
      without names is never accepted. */
  lemma BlankEntries(suffixes: seq<string>, names: seq<string>, cert: Certificate)
    ensures "" in suffixes ==> Accepts(suffixes, names, cert)
    ensures cert.dnsNames == [] && cert.commonName == "" ==>
              (Accepts(suffixes, names, cert) <==> "" in suffixes || "" in names)
  {
    if "" in suffixes {
      var i :| 0 <= i < |suffixes| && suffixes[i] == "";
      assert EndsIn(cert, suffixes[i]);
    }
  }
}
