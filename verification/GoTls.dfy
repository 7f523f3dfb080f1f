/** The part of Go's crypto/tls.Config that arrange writes. */
module GoTls {
  import opened Wrappers

  type uint16 = x: int | 0 <= x < 0x1_0000

  const VERSION_TLS13: uint16 := 0x0304

  datatype ClientAuth = NoClientCert | RequireAndVerifyClientCert

  /** An x509.CertPool holds each certificate once.  X is a parsed certificate. */
  class CertPool<!X(==)> {
    var certs: set<X>

    constructor ()
      ensures certs == {}
    {
      certs := {};
    }
  }

  /** K is a loaded key pair, F a function that verifies peer certificates. */
  class Config<!X(==), !K, !F> {
    var minVersion: uint16
    var maxVersion: uint16
    var nextProtos: seq<string>
    var serverName: string
    var insecureSkipVerify: bool
    var cipherSuites: seq<uint16>
    var certificates: seq<K>
    var rootCAs: CertPool?<X>
    var clientCAs: CertPool?<X>
    var clientAuth: ClientAuth
    var verifyPeerCertificate: Option<F>

    constructor (minVersion: uint16, maxVersion: uint16, nextProtos: seq<string>, serverName: string,
                 insecureSkipVerify: bool, cipherSuites: seq<uint16>)
      ensures this.minVersion == minVersion && this.maxVersion == maxVersion
      ensures this.nextProtos == nextProtos && this.serverName == serverName
      ensures this.insecureSkipVerify == insecureSkipVerify && this.cipherSuites == cipherSuites
      ensures certificates == [] && rootCAs == null && clientCAs == null
      ensures clientAuth == NoClientCert && verifyPeerCertificate == None
    {
      this.minVersion, this.maxVersion := minVersion, maxVersion;
      this.nextProtos, this.serverName := nextProtos, serverName;
      this.insecureSkipVerify, this.cipherSuites := insecureSkipVerify, cipherSuites;
      certificates, rootCAs, clientCAs := [], null, null;
      clientAuth, verifyPeerCertificate := NoClientCert, None;
    }
  }
}
