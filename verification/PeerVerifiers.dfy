/** `PeerVerifiers` of `arrangetls/tls.go`: an immutable sequence built on Go slices, and the
    verification that runs it.  V is a verifier. */
module PeerVerifiers {
  import opened Wrappers
  import opened GoSlices
  import GoTls

  datatype PeerVerifiers<V> = PeerVerifiers(v: Slice<V>)

  /** `[]PeerVerifier{}`: not nil, but without any capacity. */
  method EmptyLiteral<V(0)>() returns (s: Slice<V>)
    ensures s.Valid() && s.View() == [] && s.cap == 0
    ensures s.arr != null && fresh(s.arr)
  {
    var a := new V[0];
    s := Slice(a, 0, 0, 0);
  }

  method NewPeerVerifiers<V(0)>(more: Slice<V>) returns (pvs: PeerVerifiers<V>)
    requires more.Valid()
    ensures pvs.v.Valid() && pvs.v.View() == more.View()
    ensures pvs.v.arr != null && fresh(pvs.v.arr)
  {
    var empty := EmptyLiteral<V>();
    var v := GoSlices.Append(empty, more);
    pvs := PeerVerifiers(v);
  }

  /** Nothing that existed before the call is written. */
  method Append<V(0)>(pvs: PeerVerifiers<V>, more: Slice<V>) returns (r: PeerVerifiers<V>)
    requires pvs.v.Valid() && more.Valid()
    ensures r.v.Valid() && r.v.View() == pvs.v.View() + more.View()
    ensures more.len == 0 ==> r == pvs
    ensures more.len > 0 ==> r.v.arr != null && fresh(r.v.arr)
  {
    r := pvs;
    if more.len > 0 {
      var empty := EmptyLiteral<V>();
      var clone := GoSlices.Append(empty, pvs.v);
      var v := GoSlices.Append(clone, more);
      r := PeerVerifiers(v);
    }
  }

  method Extend<V(0)>(pvs: PeerVerifiers<V>, more: PeerVerifiers<V>) returns (r: PeerVerifiers<V>)
    requires pvs.v.Valid() && more.v.Valid()
    ensures r.v.Valid() && r.v.View() == pvs.v.View() + more.v.View()
    ensures more.v.len == 0 ==> r == pvs
    ensures more.v.len > 0 ==> r.v.arr != null && fresh(r.v.arr)
  {
    r := Append(pvs, more.v);
  }

  method SetTo<X, K, V>(pvs: PeerVerifiers<V>, tc: GoTls.Config?<X, K, PeerVerifiers<V>>)
    modifies (if tc == null then {} else {tc})`verifyPeerCertificate
    ensures tc != null ==>
              tc.verifyPeerCertificate == if pvs.v.len > 0 then Some(pvs) else old(tc.verifyPeerCertificate)
  {
    if tc != null && pvs.v.len > 0 {
      tc.verifyPeerCertificate := Some(pvs);
    }
  }
}
