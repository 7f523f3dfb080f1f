/** `arrangetls/tls.go`: loading certificates and pools, and building a tls.Config. */
module TlsConfigs {
  import opened Wrappers
  import opened GoSlices
  import opened Sequences = PeerVerifiers
  import opened PeerVerifyConfigs
  import PeerVerification
  import GoTls

  /** The package's own errors, and errors from outside. */
  datatype LoadError<E> =
    | CertificateRequired
    | UnableToAddClientCA
    | External(e: E)

  /** What loading reads: key pairs by file names, file contents B, and the certificates found
      in PEM data.  K is a key pair, X a parsed certificate. */
  datatype Files<!K, !B, !X, !E> = Files(
    loadPair: (string, string) -> Result<K, E>,
    readFile: string -> Result<B, E>,
    pemCertificates: B -> set<X>)

  datatype ExternalCertificate = ExternalCertificate(certificateFile: string, keyFile: string)

  // ---------- Certificates ----------

  function Load<K, B, X, E>(f: Files<K, B, X, E>, ec: ExternalCertificate): Result<K, LoadError<E>> {
    if |ec.certificateFile| > 0 && |ec.keyFile| > 0 then
      match (f.loadPair)(ec.certificateFile, ec.keyFile)
      case Success(k) => Success(k)
      case Failure(e) => Failure(External(e))
    else Failure(CertificateRequired)
  }

  /** The first certificate that does not load, or their number. */
  function FirstBadCertificate<K, B, X, E>(f: Files<K, B, X, E>, ecs: seq<ExternalCertificate>): (k: nat)
    ensures k <= |ecs|
    ensures k < |ecs| ==> Load(f, ecs[k]).Failure?
    ensures forall i :: 0 <= i < k ==> Load(f, ecs[i]).Success?
  {
    if ecs == [] || Load(f, ecs[0]).Failure? then 0 else 1 + FirstBadCertificate(f, ecs[1..])
  }

  function Loaded<K, B, X, E>(f: Files<K, B, X, E>, ecs: seq<ExternalCertificate>, k: nat): (r: seq<K>)
    requires k <= FirstBadCertificate(f, ecs)
    ensures |r| == k && forall i :: 0 <= i < k ==> Load(f, ecs[i]) == Success(r[i])
  {
    seq(k, i requires 0 <= i < k => Load(f, ecs[i]).value)
  }

  function CertificatesError<K, B, X, E>(f: Files<K, B, X, E>, ecs: seq<ExternalCertificate>): Option<LoadError<E>> {
    var k := FirstBadCertificate(f, ecs);
    if k < |ecs| then Some(Load(f, ecs[k]).error) else None
  }

  /** Both file names are there, and together they make the key pair `k`. */
  ghost predicate MakesPair<K, B, X, E>(f: Files<K, B, X, E>, ec: ExternalCertificate, k: K) {
    && ec.certificateFile != "" && ec.keyFile != ""
    && (f.loadPair)(ec.certificateFile, ec.keyFile) == Success(k)
  }

  /** The error `e` is what keeps the entry from making a key pair. */
  ghost predicate FailsWith<K, B, X, E>(f: Files<K, B, X, E>, ec: ExternalCertificate, e: LoadError<E>) {
    if ec.certificateFile == "" || ec.keyFile == "" then e == CertificateRequired
    else e.External? && (f.loadPair)(ec.certificateFile, ec.keyFile) == Failure(e.e)
  }

  ghost predicate MakePairs<K, B, X, E>(f: Files<K, B, X, E>, ecs: seq<ExternalCertificate>, ks: seq<K>) {
    |ks| == |ecs| && forall i :: 0 <= i < |ecs| ==> MakesPair(f, ecs[i], ks[i])
  }

  /** The error is that of the first entry that makes no key pair. */
  lemma CertificatesErrorIs<K, B, X, E>(f: Files<K, B, X, E>, ecs: seq<ExternalCertificate>)
    ensures var k := FirstBadCertificate(f, ecs);
            && MakePairs(f, ecs[..k], Loaded(f, ecs, k))
            && (CertificatesError(f, ecs).None? <==> k == |ecs|)
            && (k < |ecs| ==> FailsWith(f, ecs[k], CertificatesError(f, ecs).value))
  {
    var k := FirstBadCertificate(f, ecs);
    forall i | 0 <= i < k ensures MakesPair(f, ecs[i], Loaded(f, ecs, k)[i]) {
      assert Load(f, ecs[i]) == Success(Loaded(f, ecs, k)[i]);
    }
  }

  /** `ExternalCertificates.AppendTo`: exactly the certificates before the first that fails. */
  method AppendCertificates<K, B, X, E>(f: Files<K, B, X, E>, ecs: seq<ExternalCertificate>, certs: seq<K>)
    returns (r: seq<K>, err: Option<LoadError<E>>)
    ensures r == certs + Loaded(f, ecs, FirstBadCertificate(f, ecs))
    ensures err == CertificatesError(f, ecs)
    ensures |certs| <= |r| <= |certs| + |ecs| && certs == r[..|certs|]
    ensures var k := |r| - |certs|;
            && MakePairs(f, ecs[..k], r[|certs|..])
            && if err.None? then k == |ecs| else k < |ecs| && FailsWith(f, ecs[k], err.value)
  {
    CertificatesErrorIs(f, ecs);
    r, err := certs, None;
    for i := 0 to |ecs|
      invariant i <= FirstBadCertificate(f, ecs)
      invariant r == certs + Loaded(f, ecs, i)
    {
      match Load(f, ecs[i])
      case Failure(e) => return r, Some(e);
      case Success(cert) => r := r + [cert];
    }
  }

  // ---------- Pools ----------

  /** What goes wrong with one file of a pool, if anything. */
  function FileError<K, B, X, E>(f: Files<K, B, X, E>, name: string): Option<LoadError<E>> {
    match (f.readFile)(name)
    case Failure(e) => Some(External(e))
    case Success(b) => if (f.pemCertificates)(b) == {} then Some(UnableToAddClientCA) else None
  }

  function FirstBadFile<K, B, X, E>(f: Files<K, B, X, E>, names: seq<string>): (k: nat)
    ensures k <= |names|
    ensures k < |names| ==> FileError(f, names[k]).Some?
    ensures forall i :: 0 <= i < k ==> FileError(f, names[i]).None?
  {
    if names == [] || FileError(f, names[0]).Some? then 0 else 1 + FirstBadFile(f, names[1..])
  }

  function PoolError<K, B, X, E>(f: Files<K, B, X, E>, names: seq<string>): Option<LoadError<E>> {
    var k := FirstBadFile(f, names);
    if k < |names| then FileError(f, names[k]) else None
  }

  /** The certificates in one file. */
  function FileCertificates<K, B, X, E>(f: Files<K, B, X, E>, name: string): set<X> {
    match (f.readFile)(name)
    case Failure(_) => {}
    case Success(b) => (f.pemCertificates)(b)
  }

  /** The certificates in the first `k` files. */
  function PoolCertificates<K, B, X, E>(f: Files<K, B, X, E>, names: seq<string>, k: nat): set<X>
    requires k <= |names|
  {
    if k == 0 then {}
    else PoolCertificates(f, names, k - 1) + FileCertificates(f, names[k - 1])
  }

  /** The file can be read and has the certificate in it. */
  ghost predicate InFile<K, B, X, E>(f: Files<K, B, X, E>, name: string, x: X) {
    (f.readFile)(name).Success? && x in (f.pemCertificates)((f.readFile)(name).value)
  }

  lemma {:induction false} PoolMembers<K, B, X, E>(f: Files<K, B, X, E>, names: seq<string>, k: nat, x: X)
    requires k <= |names|
    ensures x in PoolCertificates(f, names, k) <==> exists i :: 0 <= i < k && InFile(f, names[i], x)
  {
    if k > 0 {
      PoolMembers(f, names, k - 1, x);
      assert InFile(f, names[k - 1], x) <==> x in FileCertificates(f, names[k - 1]);
    }
  }

  /** What keeps a file out of a pool: it cannot be read, or there is no certificate in it. */
  ghost predicate FileFailsWith<K, B, X, E>(f: Files<K, B, X, E>, name: string, e: LoadError<E>) {
    match (f.readFile)(name)
    case Failure(err) => e == External(err)
    case Success(b) => (f.pemCertificates)(b) == {} && e == UnableToAddClientCA
  }

  ghost predicate HasCertificates<K, B, X, E>(f: Files<K, B, X, E>, name: string) {
    (f.readFile)(name).Success? && (f.pemCertificates)((f.readFile)(name).value) != {}
  }

  /** The error is that of the first file that adds nothing to the pool. */
  lemma PoolErrorIs<K, B, X, E>(f: Files<K, B, X, E>, names: seq<string>)
    ensures var k := FirstBadFile(f, names);
            && (forall i :: 0 <= i < k ==> HasCertificates(f, names[i]))
            && (PoolError(f, names).None? <==> k == |names|)
            && (k < |names| ==> FileFailsWith(f, names[k], PoolError(f, names).value))
  {
    forall i | 0 <= i < FirstBadFile(f, names) ensures HasCertificates(f, names[i]) {
      assert FileError(f, names[i]).None?;
    }
  }

  /** Every file has certificates, and `certs` are exactly those. */
  ghost predicate Holds<K, B, X, E>(f: Files<K, B, X, E>, names: seq<string>, certs: set<X>) {
    && (forall i :: 0 <= i < |names| ==> HasCertificates(f, names[i]))
    && (forall x :: x in certs ==> exists i :: 0 <= i < |names| && InFile(f, names[i], x))
    && (forall i :: 0 <= i < |names| ==> (f.pemCertificates)((f.readFile)(names[i]).value) <= certs)
  }

  lemma PoolHolds<K, B, X, E>(f: Files<K, B, X, E>, names: seq<string>)
    requires PoolError(f, names).None?
    ensures FirstBadFile(f, names) == |names|
    ensures Holds(f, names, PoolCertificates(f, names, |names|))
  {
    PoolErrorIs(f, names);
    var all := PoolCertificates(f, names, |names|);
    forall x | x in all ensures exists i :: 0 <= i < |names| && InFile(f, names[i], x) {
      PoolMembers(f, names, |names|, x);
    }
    forall i | 0 <= i < |names|
      ensures HasCertificates(f, names[i])
      ensures (f.pemCertificates)((f.readFile)(names[i]).value) <= all
    {
      forall x | x in (f.pemCertificates)((f.readFile)(names[i]).value) ensures x in all {
        assert InFile(f, names[i], x);
        PoolMembers(f, names, |names|, x);
      }
    }
  }

  /** `ExternalCertPool.AppendTo`: the files before the first that fails, and their number. */
  method AppendToPool<K, B, X(==), E>(f: Files<K, B, X, E>, names: seq<string>, pool: GoTls.CertPool<X>)
    returns (loaded: nat, err: Option<LoadError<E>>)
    modifies pool
    ensures loaded == FirstBadFile(f, names) && err == PoolError(f, names)
    ensures pool.certs == old(pool.certs) + PoolCertificates(f, names, loaded)
  {
    loaded, err := 0, None;
    for i := 0 to |names|
      invariant loaded == i <= FirstBadFile(f, names)
      invariant pool.certs == old(pool.certs) + PoolCertificates(f, names, i)
    {
      match (f.readFile)(names[i])
      case Failure(e) =>
        err := Some(External(e));
        return;
      case Success(pemCert) =>
        var found := (f.pemCertificates)(pemCert);
        pool.certs := pool.certs + found;
        if found != {} {
          loaded := loaded + 1;
        } else {
          err := Some(UnableToAddClientCA);
          return;
        }
    }
  }

  // ---------- Verifiers ----------

  /** A PeerVerifier value: the closure a PeerVerifyConfig made, or application code.  Nothing
      but the closure holds its arrays and it never writes them, so it is what it was made of. */
  datatype Verifier =
    | Match(lowered: seq<string>, names: seq<string>)
    | Custom(id: int)

  /** The suffixes and names to check, if there is a configuration and it has an entry. */
  ghost function NamesIn(pvc: PeerVerifyConfig?): Option<(seq<string>, seq<string>)>
    requires pvc != null ==> pvc.Valid()
    reads pvc, if pvc != null then {pvc.dnsSuffixes.arr, pvc.commonNames.arr} else {}
  {
    if pvc != null && (pvc.dnsSuffixes.len > 0 || pvc.commonNames.len > 0)
    then Some((pvc.dnsSuffixes.View(), pvc.commonNames.View()))
    else None
  }

  /** What that contributes: one verifier, or none. */
  function VerifiersFor(configured: Option<(seq<string>, seq<string>)>): seq<Verifier> {
    if configured.Some? then [Match(LowerAll(configured.value.0), configured.value.1)] else []
  }

  /** `PeerVerifyConfig.AppendTo`, also on a nil configuration. */
  method AppendConfigured(pvc: PeerVerifyConfig?, pvs: PeerVerifiers<Verifier>) returns (r: PeerVerifiers<Verifier>)
    requires pvc != null ==> pvc.Valid()
    requires pvs.v.Valid()
    ensures r.v.Valid() && r.v.View() == pvs.v.View() + VerifiersFor(NamesIn(pvc))
  {
    r := pvs;
    if pvc != null {
      var v := pvc.Verifier();
      if v.Some? {
        var one := new Verifier[] [Match(v.value.suffixes.View(), v.value.names.View())];
        assert one[..] == VerifiersFor(NamesIn(pvc));
        r := Sequences.Append(pvs, Whole(one));
      }
    }
  }

  // ---------- The configuration ----------

  class Config {
    var certificates: seq<ExternalCertificate>
    var rootCAs: seq<string>
    var clientCAs: seq<string>
    var serverName: string
    var insecureSkipVerify: bool
    var nextProtos: seq<string>
    var minVersion: GoTls.uint16
    var maxVersion: GoTls.uint16
    var peerVerify: PeerVerifyConfig?
  }

  /** crypto/tls's TLS_ECDHE_ECDSA_WITH_AES_256_GCM_SHA384 and TLS_ECDHE_RSA_WITH_AES_256_GCM_SHA384. */
  const STRONG_CIPHER_SUITES: seq<GoTls.uint16> := [0xc02c, 0xc030]

  method NextProtos(c: Config) returns (protos: seq<string>)
    ensures protos == if c.nextProtos == [] then ["http/1.1"] else c.nextProtos
  {
    protos := [] + c.nextProtos;
    if |protos| == 0 {
      protos := protos + ["http/1.1"];
    }
  }

  function LowestVersion(min: GoTls.uint16): GoTls.uint16 {
    if min == 0 then GoTls.VERSION_TLS13 else min
  }

  function HighestVersion(min: GoTls.uint16, max: GoTls.uint16): GoTls.uint16 {
    if 0 < max < LowestVersion(min) then LowestVersion(min) else max
  }

  /** The versions of a finished configuration are always usable: without a minimum it is TLS
      1.3, which has number 0x0304, a minimum that is set stays, and a maximum stays unless it
      is set and below the minimum. */
  lemma VersionsUsable(min: GoTls.uint16, max: GoTls.uint16)
    ensures min == 0 ==> LowestVersion(min) == 0x0304
    ensures min != 0 ==> LowestVersion(min) == min
    ensures HighestVersion(min, max) == 0 || HighestVersion(min, max) >= LowestVersion(min)
    ensures HighestVersion(min, max) != max <==> 0 < max < LowestVersion(min)
    ensures HighestVersion(min, max) != max ==> HighestVersion(min, max) == LowestVersion(min)
  {
  }

  method EnforceVersions<X, K, F>(tc: GoTls.Config<X, K, F>)
    modifies tc`minVersion, tc`maxVersion
    ensures tc.minVersion == LowestVersion(old(tc.minVersion))
    ensures tc.maxVersion == HighestVersion(old(tc.minVersion), old(tc.maxVersion))
  {
    if tc.minVersion == 0 {
      tc.minVersion := GoTls.VERSION_TLS13;
    }
    if tc.maxVersion != 0 && tc.maxVersion < tc.minVersion {
      tc.maxVersion := tc.minVersion;
    }
  }

  /** The configured verifier first, then the extra ones; nothing is installed without any. */
  method InstallVerifiers<X, K>(
    c: Config, tc: GoTls.Config<X, K, PeerVerifiers<Verifier>>, extra: Slice<Verifier>)
    requires c.peerVerify != null ==> c.peerVerify.Valid()
    requires extra.Valid() && tc.verifyPeerCertificate.None?
    modifies tc`verifyPeerCertificate
    ensures Installed(tc.verifyPeerCertificate, VerifiersFor(NamesIn(c.peerVerify)) + extra.View())
  {
    ghost var mine, more := VerifiersFor(NamesIn(c.peerVerify)), extra.View();
    var none: PeerVerifiers<Verifier> := PeerVerifiers(Nil());
    var pvs := AppendConfigured(c.peerVerify, none);
    assert pvs.v.View() == mine;
    pvs := Sequences.Append(pvs, extra);
    ghost var all := pvs.v.View();
    assert all == mine + more;
    Sequences.SetTo(pvs, tc);
    assert pvs.v.View() == all;
  }

  /** The verification function runs exactly the verifiers `vs`, and is nil without any. */
  ghost predicate Installed(verify: Option<PeerVerifiers<Verifier>>, vs: seq<Verifier>)
    reads if verify.Some? then {verify.value.v.arr} else {}
  {
    if verify.None? then vs == []
    else vs != [] && verify.value.v.Valid() && verify.value.v.View() == vs
  }

  /** What stops loading first: the certificates, then the root pool, then the client pool. */
  function FirstError<K, B, X, E>(
    f: Files<K, B, X, E>, certificates: seq<ExternalCertificate>, rootCAs: seq<string>, clientCAs: seq<string>)
    : Option<LoadError<E>>
  {
    if CertificatesError(f, certificates).Some? then CertificatesError(f, certificates)
    else if PoolError(f, rootCAs).Some? then PoolError(f, rootCAs)
    else PoolError(f, clientCAs)
  }

  /** A pool field: nil without files, else a pool of the certificates in all files. */
  ghost predicate PoolOf<K, B, X, E>(f: Files<K, B, X, E>, names: seq<string>, pool: GoTls.CertPool?<X>)
    reads pool
  {
    && (pool == null <==> names == [])
    && PoolError(f, names).None?
    && (pool != null ==> pool.certs == PoolCertificates(f, names, |names|))
  }

  /** Everything that `c` names is loaded: one key pair per entry, in order, the pools, and
      client certificates demanded exactly when there is a client pool. */
  ghost predicate AllLoaded<K, B, X, E>(
    f: Files<K, B, X, E>, c: Config, tc: GoTls.Config<X, K, PeerVerifiers<Verifier>>)
    reads c, tc, tc.rootCAs, tc.clientCAs
  {
    && MakePairs(f, c.certificates, tc.certificates)
    && PoolOf(f, c.rootCAs, tc.rootCAs)
    && PoolOf(f, c.clientCAs, tc.clientCAs)
    && (tc.clientAuth == GoTls.RequireAndVerifyClientCert <==> c.clientCAs != [])
  }

  /** What stops New, entry by entry and file by file: the first certificate that makes no key
      pair; only when all do, the first file without certificates of the root pool; and only
      when all of those have some, that of the client pool. */
  lemma FirstErrorIs<K, B, X, E>(
    f: Files<K, B, X, E>, certificates: seq<ExternalCertificate>, rootCAs: seq<string>, clientCAs: seq<string>)
    ensures var err := FirstError(f, certificates, rootCAs, clientCAs);
            var k, r, l := FirstBadCertificate(f, certificates), FirstBadFile(f, rootCAs), FirstBadFile(f, clientCAs);
            && MakePairs(f, certificates[..k], Loaded(f, certificates, k))
            && (forall i :: 0 <= i < r ==> HasCertificates(f, rootCAs[i]))
            && (forall i :: 0 <= i < l ==> HasCertificates(f, clientCAs[i]))
            && if k < |certificates| then err.Some? && FailsWith(f, certificates[k], err.value)
               else if r < |rootCAs| then err.Some? && FileFailsWith(f, rootCAs[r], err.value)
               else if l < |clientCAs| then err.Some? && FileFailsWith(f, clientCAs[l], err.value)
               else err.None?
  {
    CertificatesErrorIs(f, certificates);
    PoolErrorIs(f, rootCAs);
    PoolErrorIs(f, clientCAs);
  }

  /** What `PoolOf` means, file by file. */
  lemma PoolOfMeans<K, B, X, E>(f: Files<K, B, X, E>, names: seq<string>, pool: GoTls.CertPool?<X>)
    requires PoolOf(f, names, pool)
    ensures if names == [] then pool == null else pool != null && Holds(f, names, pool.certs)
  {
    PoolHolds(f, names);
  }

  method LoadPool<K, B, X(==), E>(f: Files<K, B, X, E>, names: seq<string>)
    returns (pool: GoTls.CertPool?<X>, err: Option<LoadError<E>>)
    ensures err == PoolError(f, names)
    ensures err.None? ==> PoolOf(f, names, pool)
    ensures pool != null ==> fresh(pool)
  {
    pool, err := null, None;
    if |names| > 0 {
      var p := new GoTls.CertPool<X>();
      var count;
      count, err := AppendToPool(f, names, p);
      if err.None? && count > 0 {
        pool := p;
      }
    }
  }

  /** `certificates`: key pairs, then root pool, then client pool, each only after the one before. */
  method LoadCertificates<K, B, X(==), E>(
    f: Files<K, B, X, E>, c: Config, tc: GoTls.Config<X, K, PeerVerifiers<Verifier>>)
    returns (err: Option<LoadError<E>>)
    requires tc.rootCAs == null && tc.clientCAs == null && tc.clientAuth == GoTls.NoClientCert
    modifies tc`certificates, tc`rootCAs, tc`clientCAs, tc`clientAuth
    ensures err == FirstError(f, c.certificates, c.rootCAs, c.clientCAs)
    ensures err.None? ==> AllLoaded(f, c, tc)
  {
    var certs;
    certs, err := AppendCertificates(f, c.certificates, []);
    if err.Some? {
      return;
    }
    tc.certificates := certs;
    var pool;
    pool, err := LoadPool(f, c.rootCAs);
    if err.Some? {
      return;
    }
    tc.rootCAs := pool;
    pool, err := LoadPool(f, c.clientCAs);
    if err.Some? {
      return;
    }
    if pool != null {
      tc.clientCAs := pool;
      tc.clientAuth := GoTls.RequireAndVerifyClientCert;
    }
  }

  /** The fields that come straight from the configuration. */
  ghost predicate Configured<X, K, F>(c: Config, tc: GoTls.Config<X, K, F>)
    reads c, tc
  {
    && tc.minVersion == LowestVersion(c.minVersion)
    && tc.maxVersion == HighestVersion(c.minVersion, c.maxVersion)
    && tc.nextProtos == (if c.nextProtos == [] then ["http/1.1"] else c.nextProtos)
    && tc.serverName == c.serverName && tc.insecureSkipVerify == c.insecureSkipVerify
    && tc.cipherSuites == STRONG_CIPHER_SUITES
  }

  /** The part of `New` that cannot fail. */
  method Prepare<K, X(==)>(c: Config, extra: Slice<Verifier>)
    returns (tc: GoTls.Config<X, K, PeerVerifiers<Verifier>>)
    requires c.peerVerify != null ==> c.peerVerify.Valid()
    requires extra.Valid()
    ensures fresh(tc) && Configured(c, tc)
    ensures tc.rootCAs == null && tc.clientCAs == null && tc.clientAuth == GoTls.NoClientCert
    ensures Installed(tc.verifyPeerCertificate, VerifiersFor(NamesIn(c.peerVerify)) + extra.View())
  {
    var protos := NextProtos(c);
    tc := new GoTls.Config<X, K, PeerVerifiers<Verifier>>(
      c.minVersion, c.maxVersion, protos, c.serverName, c.insecureSkipVerify, STRONG_CIPHER_SUITES);
    EnforceVersions(tc);
    InstallVerifiers(c, tc, extra);
  }

  /** `Config.New`: nil for a nil configuration, nil and the first error when loading fails,
      and otherwise a new tls.Config of which every field is determined. */
  method New<K, B, X(==), E>(f: Files<K, B, X, E>, c: Config?, extra: Slice<Verifier>)
    returns (tc: GoTls.Config?<X, K, PeerVerifiers<Verifier>>, err: Option<LoadError<E>>)
    requires c != null && c.peerVerify != null ==> c.peerVerify.Valid()
    requires extra.Valid()
    ensures err == if c == null then None else FirstError(f, c.certificates, c.rootCAs, c.clientCAs)
    ensures tc == null <==> c == null || err.Some?
    ensures tc != null ==> fresh(tc) && AllLoaded(f, c, tc) && Configured(c, tc)
    ensures tc != null ==>
              Installed(tc.verifyPeerCertificate, VerifiersFor(NamesIn(c.peerVerify)) + extra.View())
  {
    tc, err := null, None;
    if c == null {
      return;
    }
    var made := Prepare<K, X>(c, extra);
    ghost var vs := VerifiersFor(NamesIn(c.peerVerify)) + extra.View();
    err := LoadCertificates(f, c, made);
    assert VerifiersFor(NamesIn(c.peerVerify)) + extra.View() == vs;
    if err.None? {
      tc := made;
    }
  }

  // ---------- What the installed function accepts ----------

  /** A verifier made from a configuration answers by matching names. */
  ghost predicate MatchesNames<R, E>(c: PeerVerification.Crypto<R, Certificate, Verifier, E>) {
    forall suffixes, names, x ::
      (c.judge)([], Match(suffixes, names), x).None? <==> Matches(suffixes, names, x)
  }

  /** What verification asks of one raw certificate: it parses, its names match what is
      configured, if anything is, and every extra verifier accepts it. */
  ghost predicate Trusted<R, E>(
    c: PeerVerification.Crypto<R, Certificate, Verifier, E>, raw: R,
    configured: Option<(seq<string>, seq<string>)>, extra: seq<Verifier>)
  {
    && (c.parse)(raw).Success?
    && (configured.Some? ==> Accepts(configured.value.0, configured.value.1, (c.parse)(raw).value))
    && forall j :: 0 <= j < |extra| ==> (c.judge)([], extra[j], (c.parse)(raw).value).None?
  }

  /** The verifiers for a configuration, with extra ones behind them, accept a chain exactly
      when every raw certificate of it is trusted - every one, not some one. */
  lemma AcceptsTrustedChains<R, E>(
    c: PeerVerification.Crypto<R, Certificate, Verifier, E>, raws: seq<R>,
    configured: Option<(seq<string>, seq<string>)>, extra: seq<Verifier>)
    requires PeerVerification.Stateless(c) && MatchesNames(c)
    requires configured.Some? || extra != []
    ensures PeerVerification.Verdict(c, raws, VerifiersFor(configured) + extra).None? <==>
              forall i :: 0 <= i < |raws| ==> Trusted(c, raws[i], configured, extra)
  {
    var mine := VerifiersFor(configured);
    var all := mine + extra;
    PeerVerification.AcceptsIff(c, raws, all);
    forall i | 0 <= i < |raws|
      ensures PeerVerification.CertPasses(c, raws[i], all) <==> Trusted(c, raws[i], configured, extra)
    {
      if (c.parse)(raws[i]).Success? {
        var x := (c.parse)(raws[i]).value;
        if configured.Some? {
          CopyMeansSame(configured.value.0, configured.value.1, x);
          assert all[0] == mine[0];
        }
        forall j | 0 <= j < |extra| ensures extra[j] == all[|mine| + j] {}
        forall j | 0 <= j < |all| ensures all[j] == if j < |mine| then mine[j] else extra[j - |mine|] {}
      }
    }
  }

  /** End to end: build a tls.Config, then run what it has for a verification function over a
      chain.  There is such a function exactly when a name or an extra verifier is there to
      check, and it accepts exactly the chains in which every certificate is trusted. */
  method NewThenVerify<K, B, X(==), E, R, F>(
    f: Files<K, B, X, E>, c: Config, extra: Slice<Verifier>,
    crypto: PeerVerification.Crypto<R, Certificate, Verifier, F>, raws: seq<R>)
    returns (tc: GoTls.Config?<X, K, PeerVerifiers<Verifier>>, err: Option<LoadError<E>>, rejected: Option<F>)
    requires c.peerVerify != null ==> c.peerVerify.Valid()
    requires extra.Valid()
    requires PeerVerification.Stateless(crypto) && MatchesNames(crypto)
    ensures err == FirstError(f, c.certificates, c.rootCAs, c.clientCAs)
    ensures tc == null <==> err.Some?
    ensures tc != null ==>
              (tc.verifyPeerCertificate.Some? <==> NamesIn(c.peerVerify).Some? || extra.len > 0)
    ensures tc != null && tc.verifyPeerCertificate.Some? ==>
              (rejected.None? <==>
                 forall i :: 0 <= i < |raws| ==> Trusted(crypto, raws[i], NamesIn(c.peerVerify), extra.View()))
    ensures tc == null || tc.verifyPeerCertificate.None? ==> rejected.None?
  {
    rejected := None;
    tc, err := New(f, c, extra);
    if tc != null && tc.verifyPeerCertificate.Some? {
      var verify, calls, made := tc.verifyPeerCertificate.value, [], [];
      rejected, calls, made := PeerVerification.VerifyPeerCertificate(crypto, verify, raws);
      AcceptsTrustedChains(crypto, raws, NamesIn(c.peerVerify), extra.View());
    }
  }

  /** Some matching certificate is not enough: with a suffix configured, a chain of one
      certificate that matches and one that does not is rejected. */
  lemma OneMatchIsNotEnough<E>(c: PeerVerification.Crypto<Certificate, Certificate, Verifier, E>)
    requires PeerVerification.Stateless(c) && MatchesNames(c)
    requires forall x :: (c.parse)(x) == Success(x)
    ensures var matching, other := Certificate(["a.b"], "", 0), Certificate(["a.c"], "", 1);
            && Accepts([".b"], [], matching)
            && PeerVerification.Verdict(c, [matching], VerifiersFor(Some(([".b"], [])))).None?
            && PeerVerification.Verdict(c, [matching, other], VerifiersFor(Some(([".b"], [])))).Some?
  {
    var matching, other := Certificate(["a.b"], "", 0), Certificate(["a.c"], "", 1);
    assert "a.b" in matching.dnsNames && "a.b"[1..] == ".b" && "a.c"[1..][1] != ".b"[1];
    assert EndsIn(matching, [".b"][0]);
    assert !EndsIn(other, ".b");
    var configured := Some(([".b"], []));
    assert VerifiersFor(configured) + [] == VerifiersFor(configured);
    AcceptsTrustedChains(c, [matching], configured, []);
    AcceptsTrustedChains(c, [matching, other], configured, []);
    assert !Trusted(c, [matching, other][1], configured, []);
  }
}
