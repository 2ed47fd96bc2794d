/**
 Certificate material (pkg/pki/bundle.go) over abstract primitives: a PEM text is the list of blocks
 it decodes to, a certificate is represented by what the code asks of it, and its digest stands for
 the hex SHA-256 of its DER.
 */
module Pki {
  import opened Wrappers

  datatype Certificate = Certificate(
    digest: string, dnsNames: seq<string>, commonName: string, publicKey: string, signedWith: string)

  datatype Content = Parsed(c: Certificate) | Unparsable

  datatype Block = CertificateBlock(content: Content) | KeyBlock(publicKey: string) | OtherBlock

  type Pem = seq<Block>

  datatype Error = NoCertificate | BadCertificate | NoPrivateKey | BrokenChain | KeyMismatch

  datatype Bundle = Bundle(leaf: Certificate, intermediates: seq<Certificate>, publicKey: string, fingerprint: string)

  /** Blocks of other kinds are skipped; one certificate that does not parse spoils the whole text. */
  function Certificates(pem: Pem): Result<seq<Certificate>, Error> {
    if pem == [] then Ok([])
    else
      var rest := Certificates(pem[1..]);
      match pem[0]
      case CertificateBlock(Parsed(c)) => if rest.Err? then rest else Ok([c] + rest.value)
      case CertificateBlock(Unparsable) => Err(BadCertificate)
      case _ => rest
  }

  function After(before: seq<Certificate>, r: Result<seq<Certificate>, Error>): Result<seq<Certificate>, Error> {
    if r.Err? then r else Ok(before + r.value)
  }

  method ParseCertificates(pem: Pem) returns (r: Result<seq<Certificate>, Error>)
    ensures r == if Certificates(pem) == Ok([]) then Err(NoCertificate) else Certificates(pem)
  {
    var out := [];
    assert pem[0..] == pem && (Certificates(pem).Ok? ==> [] + Certificates(pem).value == Certificates(pem).value);
    for i := 0 to |pem|
      invariant Certificates(pem) == After(out, Certificates(pem[i..]))
    {
      ghost var rest := Certificates(pem[i + 1..]);
      assert pem[i..][1..] == pem[i + 1..];
      if pem[i].CertificateBlock? && pem[i].content.Parsed? && rest.Ok? {
        assert out + ([pem[i].content.c] + rest.value) == out + [pem[i].content.c] + rest.value;
      }
      match pem[i] {
        case CertificateBlock(Parsed(c)) => out := out + [c];
        case CertificateBlock(Unparsable) => return Err(BadCertificate);
        case _ =>
      }
    }
    assert pem[|pem|..] == [] && out + [] == out;
    if out == [] { return Err(NoCertificate); }
    return Ok(out);
  }

  /** Each certificate is signed with the key of the next. */
  predicate Continuous(chain: seq<Certificate>) {
    forall i :: 0 <= i < |chain| - 1 ==> chain[i].signedWith == chain[i + 1].publicKey
  }

  function Chain(b: Bundle): seq<Certificate> {
    [b.leaf] + b.intermediates
  }

  predicate Sound(b: Bundle) {
    Continuous(Chain(b)) && b.publicKey == b.leaf.publicKey && b.fingerprint == b.leaf.digest
  }

  /** Succeeds exactly for a key that fits a continuous chain, and keeps that chain. */
  method ParseBundle(certPem: Pem, keyPem: Pem) returns (r: Result<Bundle, Error>)
    ensures r.Ok? ==> Sound(r.value) && Certificates(certPem) == Ok(Chain(r.value))
    ensures r.Ok? ==> keyPem != [] && keyPem[0] == KeyBlock(r.value.publicKey)
    ensures r.Err? ==>
              || Certificates(certPem).Err? || Certificates(certPem).value == []
              || keyPem == [] || !keyPem[0].KeyBlock?
              || !Continuous(Certificates(certPem).value)
              || keyPem[0].publicKey != Certificates(certPem).value[0].publicKey
  {
    var certs := ParseCertificates(certPem);
    if certs.Err? { return Err(certs.error); }
    if keyPem == [] || !keyPem[0].KeyBlock? { return Err(NoPrivateKey); }
    var chain := certs.value;
    var b := Bundle(chain[0], chain[1..], keyPem[0].publicKey, chain[0].digest);
    assert Chain(b) == chain;
    var i := 0;
    while i + 1 < |chain|
      invariant 0 <= i < |chain|
      invariant forall j :: 0 <= j < i ==> chain[j].signedWith == chain[j + 1].publicKey
    {
      if chain[i].signedWith != chain[i + 1].publicKey { return Err(BrokenChain); }
      i := i + 1;
    }
    if b.leaf.publicKey != keyPem[0].publicKey { return Err(KeyMismatch); }
    return Ok(b);
  }

  function Encoded(chain: seq<Certificate>): Pem {
    seq(|chain|, i requires 0 <= i < |chain| => CertificateBlock(Parsed(chain[i])))
  }

  /** Leaf first, then the intermediates. */
  method CertPEM(b: Bundle) returns (pem: Pem)
    ensures pem == Encoded(Chain(b))
  {
    pem := [CertificateBlock(Parsed(b.leaf))];
    for i := 0 to |b.intermediates|
      invariant pem == Encoded(Chain(b)[..i + 1])
    {
      pem := pem + [CertificateBlock(Parsed(b.intermediates[i]))];
    }
    assert Chain(b)[..|Chain(b)|] == Chain(b);
  }

  lemma {:induction false} CertificatesOfEncoded(chain: seq<Certificate>)
    ensures Certificates(Encoded(chain)) == Ok(chain)
  {
    if chain != [] {
      CertificatesOfEncoded(chain[1..]);
      assert Encoded(chain)[1..] == Encoded(chain[1..]);
      assert chain == [chain[0]] + chain[1..];
    }
  }

  /** What the cloud side can compute from a public certificate. */
  function LeafFingerprint(pem: Pem): Option<string> {
    var certs := Certificates(pem);
    if certs.Err? || certs.value == [] then None else Some(certs.value[0].digest)
  }

  /** Both sides agree on the identity of what is written: without this, every round would write again. */
  lemma WrittenIsRecognised(b: Bundle)
    requires Sound(b)
    ensures LeafFingerprint(Encoded(Chain(b))) == Some(b.fingerprint)
  {
    CertificatesOfEncoded(Chain(b));
  }

  predicate HasName(c: Certificate, name: string) {
    name in c.dnsNames || (c.commonName != "" && name == c.commonName)
  }

  /** The subject alternative names, and the common name if it is not among them. */
  method DNSNames(c: Certificate) returns (names: seq<string>)
    ensures c.dnsNames <= names && |names| <= |c.dnsNames| + 1
    ensures forall n :: n in names <==> HasName(c, n)
    ensures |names| > |c.dnsNames| <==> c.commonName != "" && c.commonName !in c.dnsNames
  {
    names := c.dnsNames;
    if c.commonName == "" { return; }
    for i := 0 to |c.dnsNames|
      invariant c.commonName !in c.dnsNames[..i]
    {
      if c.dnsNames[i] == c.commonName { return; }
    }
    assert c.dnsNames[..|c.dnsNames|] == c.dnsNames;
    names := names + [c.commonName];
  }
}
