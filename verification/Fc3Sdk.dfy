/**
 The two conversions at the edge of the FC3 client (pkg/aliyun/fc3_sdk.go). The pass-through part of a
 domain travels as an object that observation and write may share, so it must be copied, not written.
 */
module Fc3Sdk {
  import opened Wrappers
  import opened Pki

  datatype Cert = Cert(name: string, pem: Pem, key: string)

  /** A write body of the SDK; the members between cert and the end are never interpreted here. */
  class Body {
    var protocol: Option<string>
    var cert: Option<Cert>
    var auth: int
    var cors: int
    var route: int
    var tls: int
    var waf: int

    constructor (auth: int, cors: int, route: int, tls: int, waf: int)
      ensures protocol == None && cert == None
      ensures Opaque() == (auth, cors, route, tls, waf)
    {
      protocol, cert := None, None;
      this.auth, this.cors, this.route, this.tls, this.waf := auth, cors, route, tls, waf;
    }

    function Opaque(): (int, int, int, int, int)
      reads this
    {
      (auth, cors, route, tls, waf)
    }
  }

  datatype SdkDomain = SdkDomain(
    account: Option<string>, name: Option<string>, protocol: Option<string>, cert: Option<Cert>,
    auth: int, cors: int, route: int, tls: int, waf: int)

  function OrEmpty(s: Option<string>): string {
    if s.None? then "" else s.value
  }

  /** Everything but the certificate goes into the pass-through body: the private key stops here. */
  method CustomDomainFromSDK(d: SdkDomain) returns (account: string, protocol: string, pem: Pem, echo: Body)
    ensures account == (if d.account.Some? then d.account.value else "")
    ensures protocol == (if d.protocol.Some? then d.protocol.value else "")
    ensures pem == if d.cert.None? then [] else d.cert.value.pem
    ensures fresh(echo) && echo.cert == None && echo.protocol == None
    ensures echo.Opaque() == (d.auth, d.cors, d.route, d.tls, d.waf)
  {
    account, protocol := OrEmpty(d.account), OrEmpty(d.protocol);
    pem := if d.cert.None? then [] else d.cert.value.pem;
    echo := new Body(d.auth, d.cors, d.route, d.tls, d.waf);
  }

  /** A copy of the pass-through body, with protocol and certificate set over it. */
  method UpdateInputToSDK(echo: Body?, protocol: string, cert: Option<Cert>, clear: bool) returns (base: Body)
    ensures fresh(base) && (echo != null ==> unchanged(echo))
    ensures base.Opaque() == if echo == null then (0, 0, 0, 0, 0) else echo.Opaque()
    ensures base.protocol == if protocol != "" then Some(protocol) else if echo == null then None else echo.protocol
    ensures base.cert == if clear then Some(Cert("", [], "")) else if cert.Some? then cert
                         else if echo == null then None else echo.cert
  {
    if echo == null {
      base := new Body(0, 0, 0, 0, 0);
    } else {
      base := new Body(echo.auth, echo.cors, echo.route, echo.tls, echo.waf);
      base.protocol, base.cert := echo.protocol, echo.cert;
    }
    if protocol != "" { base.protocol := Some(protocol); }
    if clear {
      base.cert := Some(Cert("", [], ""));
    } else if cert.Some? {
      base.cert := cert;
    }
  }

  /** Read, then write, then write again from the same read: both writes carry what was read, and the
      first leaves no trace in the second. */
  method ReadWriteWrite(d: SdkDomain, p: string, c: Cert, q: string) returns (first: Body, second: Body)
    requires p != "" && q != ""
    ensures first.Opaque() == second.Opaque() == (d.auth, d.cors, d.route, d.tls, d.waf)
    ensures first.protocol == Some(p) && first.cert == Some(c)
    ensures second.protocol == Some(q) && second.cert == None
  {
    var _, _, _, echo := CustomDomainFromSDK(d);
    first := UpdateInputToSDK(echo, p, Some(c), false);
    second := UpdateInputToSDK(echo, q, None, false);
  }
}
