/** Names and idempotency tokens on the cloud side (pkg/naming, and the upload token). */
module Naming {

  const MAX_CAS_NAME_LEN := 63
  const PREFIX_BUDGET := 50
  const FP_SUFFIX_LEN := 12
  const TOKEN_UID_LEN := 16
  const TOKEN_FP_LEN := 32
  const TOKEN_PREFIX_LEN := 40
  const FINGERPRINT_LEN := 64

  function Take(s: string, n: nat): string {
    if |s| > n then s[..n] else s
  }

  predicate NameChar(c: char) {
    'a' <= c <= 'z' || 'A' <= c <= 'Z' || '0' <= c <= '9' || c == '_'
  }

  /** Every character the cloud does not promise to accept becomes an underscore. */
  function Sanitize(s: string): (r: string)
    ensures |r| == |s|
    ensures forall i :: 0 <= i < |r| ==>
              r[i] == if 'a' <= s[i] <= 'z' || 'A' <= s[i] <= 'Z' || '0' <= s[i] <= '9' then s[i] else '_'
  {
    if s == [] then [] else [if NameChar(s[0]) then s[0] else '_'] + Sanitize(s[1..])
  }

  /** The builder loop of sanitize. */
  method SanitizeName(s: string) returns (b: string)
    ensures b == Sanitize(s)
  {
    b := "";
    var i := 0;
    while i < |s|
      invariant 0 <= i <= |s|
      invariant |b| == i && forall j :: 0 <= j < i ==> b[j] == if NameChar(s[j]) then s[j] else '_'
    {
      if NameChar(s[i]) { b := b + [s[i]]; } else { b := b + ['_']; }
      i := i + 1;
    }
  }

  function TrimRight(s: string): string {
    if s != [] && s[|s| - 1] == '_' then TrimRight(s[..|s| - 1]) else s
  }

  function NamePrefix(crName: string): string {
    var p := TrimRight(Take(Sanitize(crName), PREFIX_BUDGET));
    if p == "" then "cert" else p
  }

  function CASName(crName: string, fingerprint: string): string {
    Take(NamePrefix(crName) + "_" + Take(fingerprint, FP_SUFFIX_LEN), MAX_CAS_NAME_LEN)
  }

  /** What is cut off are underscores, and all there are at the end. */
  lemma TrimRightExact(s: string)
    ensures var n := |TrimRight(s)|;
            && n <= |s| && TrimRight(s) == s[..n]
            && (forall i :: n <= i < |s| ==> s[i] == '_') && (n > 0 ==> s[n - 1] != '_')
  {
  }

  lemma CASNameParts(crName: string, fingerprint: string)
    ensures CASName(crName, fingerprint) == NamePrefix(crName) + "_" + Take(fingerprint, FP_SUFFIX_LEN)
    ensures |CASName(crName, fingerprint)| <= MAX_CAS_NAME_LEN
  {
    TrimRightExact(Take(Sanitize(crName), PREFIX_BUDGET));
  }

  /** The name in front is the longest part of the first fifty characters of the resource's that ends in
      a letter or digit, with an underscore for every character the cloud does not promise to accept;
      without any letter or digit there, it is "cert". Twelve characters of the fingerprint follow, and
      the whole always fits. */
  lemma CASNameShape(crName: string, fingerprint: string) returns (n: nat)
    ensures n <= |crName| && n <= 50
    ensures n > 0 ==> 'a' <= crName[n - 1] <= 'z' || 'A' <= crName[n - 1] <= 'Z' || '0' <= crName[n - 1] <= '9'
    ensures forall i :: n <= i < |crName| && i < 50 ==>
              !('a' <= crName[i] <= 'z' || 'A' <= crName[i] <= 'Z' || '0' <= crName[i] <= '9')
    ensures CASName(crName, fingerprint) ==
              (if n == 0 then "cert" else Sanitize(crName)[..n]) + "_" +
              fingerprint[..if |fingerprint| < 12 then |fingerprint| else 12]
    ensures |CASName(crName, fingerprint)| <= 63
  {
    CASNameParts(crName, fingerprint);
    n := PrefixShape(crName);
  }

  lemma PrefixShape(crName: string) returns (n: nat)
    ensures n <= |crName| && n <= 50
    ensures n > 0 ==> 'a' <= crName[n - 1] <= 'z' || 'A' <= crName[n - 1] <= 'Z' || '0' <= crName[n - 1] <= '9'
    ensures forall i :: n <= i < |crName| && i < 50 ==>
              !('a' <= crName[i] <= 'z' || 'A' <= crName[i] <= 'Z' || '0' <= crName[i] <= '9')
    ensures NamePrefix(crName) == if n == 0 then "cert" else Sanitize(crName)[..n]
  {
    var all := Sanitize(crName);
    var s := Take(all, PREFIX_BUDGET);
    TrimRightExact(s);
    hide Sanitize, TrimRight;
    n := |TrimRight(s)|;
    assert s[..n] == all[..n];
    if n > 0 { assert s[n - 1] == all[n - 1]; }
    forall i | n <= i < |crName| && i < 50
      ensures !('a' <= crName[i] <= 'z' || 'A' <= crName[i] <= 'Z' || '0' <= crName[i] <= '9')
    {
      assert s[i] == all[i];
    }
  }

  lemma SameNameIffSamePrefix(crName: string, f: string, g: string)
    ensures CASName(crName, f) == CASName(crName, g) <==> Take(f, FP_SUFFIX_LEN) == Take(g, FP_SUFFIX_LEN)
  {
    CASNameParts(crName, f);
    CASNameParts(crName, g);
    var p := NamePrefix(crName) + "_";
    assert CASName(crName, f)[|p|..] == Take(f, FP_SUFFIX_LEN);
    assert CASName(crName, g)[|p|..] == Take(g, FP_SUFFIX_LEN);
  }

  // ----- tokens -----

  function WithoutDashes(s: string): string {
    if s == [] then [] else (if s[0] == '-' then [] else [s[0]]) + WithoutDashes(s[1..])
  }

  lemma {:induction false} WithoutDashesExact(a: string, b: string)
    requires forall i :: 0 <= i < |a| ==> a[i] != '-'
    ensures WithoutDashes(a) == a && WithoutDashes(a + "-" + b) == a + WithoutDashes(b)
  {
    if a == "" {
      assert a + "-" + b == "-" + b && ("-" + b)[1..] == b;
    } else {
      WithoutDashesExact(a[1..], b);
      assert (a + "-" + b)[1..] == a[1..] + "-" + b;
      assert a == [a[0]] + a[1..];
    }
  }

  function ClientToken(uid: string, fingerprint: string): string {
    Take(WithoutDashes(uid), TOKEN_UID_LEN) + Take(fingerprint, TOKEN_FP_LEN)
  }

  function HexDigit(d: int): char
    requires 0 <= d < 16
  {
    if d < 10 then ('0' as int + d) as char else ('a' as int + d - 10) as char
  }

  /** The last width hexadecimal digits of n. */
  function Hex(n: nat, width: nat): (s: string)
    ensures |s| == width
  {
    if width == 0 then "" else Hex(n / 16, width - 1) + [HexDigit(n % 16)]
  }

  /** Seconds truncated to 32 bits, as eight hexadecimal digits. */
  function TimeSuffix(startedAt: int): string {
    Hex(startedAt % 0x1_0000_0000, 8)
  }

  function UploadToken(uid: string, fingerprint: string, startedAt: int): string {
    Take(ClientToken(uid, fingerprint), TOKEN_PREFIX_LEN) + TimeSuffix(startedAt)
  }

  /** The value of hexadecimal digits. */
  function Value(s: string): nat {
    if s == "" then 0
    else
      var d := s[|s| - 1];
      16 * Value(s[..|s| - 1]) + if '0' <= d <= '9' then d as int - '0' as int else if 'a' <= d <= 'f' then 10 + d as int - 'a' as int else 0
  }

  lemma {:induction false} HexReadsBack(n: nat, width: nat)
    ensures Value(Hex(n, width)) == n % Power16(width)
    ensures forall i :: 0 <= i < width ==> '0' <= Hex(n, width)[i] <= '9' || 'a' <= Hex(n, width)[i] <= 'f'
  {
    if width > 0 {
      HexReadsBack(n / 16, width - 1);
      var s, p := Hex(n, width), Power16(width - 1);
      assert s == Hex(n / 16, width - 1) + [HexDigit(n % 16)] && s[..width - 1] == Hex(n / 16, width - 1);
      OneMoreDigit(n, p);
    }
  }

  lemma OneMoreDigit(n: nat, p: nat)
    requires p > 0
    ensures 16 * (n / 16 % p) + n % 16 == n % (16 * p)
  {
    var q, r := n / 16 / p, n / 16 % p;
    assert n / 16 == q * p + r;
    assert n == (16 * p) * q + (16 * r + n % 16);
    assert 0 <= 16 * r + n % 16 < 16 * p;
    Remainder(n, 16 * p, q, 16 * r + n % 16);
  }

  lemma Remainder(n: nat, d: nat, q: nat, r: nat)
    requires n == d * q + r && r < d
    ensures n % d == r
  {
    var k := q - n / d;
    assert d * k == n % d - r;
    MultipleOf(d, k);
  }

  lemma MultipleOf(d: nat, k: int)
    ensures k >= 1 ==> d * k >= d
    ensures k <= -1 ==> d * k + d <= 0
  {
  }

  /** The token of a resource with a UUID: sixteen digits of that, twenty-four of the fingerprint, and the
      seconds at which the upload was announced. */
  lemma UploadTokenShape(uid: string, f: string, startedAt: int)
    requires |WithoutDashes(uid)| >= 16 && |f| == 64
    ensures var t := UploadToken(uid, f, startedAt);
            && |t| == 48 && t[..16] == WithoutDashes(uid)[..16] && t[16..40] == f[..24]
            && Value(t[40..]) == startedAt % 0x1_0000_0000
  {
    hide WithoutDashes, Value, Hex, Power16;
    var t, c, u := UploadToken(uid, f, startedAt), ClientToken(uid, f), WithoutDashes(uid)[..16];
    assert c == u + f[..32];
    assert c[..40] == u + f[..24];
    assert t == u + f[..24] + TimeSuffix(startedAt);
    HexReadsBack(startedAt % 0x1_0000_0000, 8);
    EightDigits();
  }

  lemma EightDigits()
    ensures Power16(8) == 0x1_0000_0000
  {
    assert Power16(4) == 0x1_0000;
  }

  lemma TokenCarriesNameSuffix(uid: string, f: string, s: int)
    requires |f| == FINGERPRINT_LEN
    ensures var n := |Take(WithoutDashes(uid), TOKEN_UID_LEN)|;
            |UploadToken(uid, f, s)| >= n + FP_SUFFIX_LEN &&
            UploadToken(uid, f, s)[n..n + FP_SUFFIX_LEN] == Take(f, FP_SUFFIX_LEN)
  {
    var u := Take(WithoutDashes(uid), TOKEN_UID_LEN);
    var c := ClientToken(uid, f);
    assert c == u + f[..TOKEN_FP_LEN] && |u| <= TOKEN_UID_LEN;
    var p := Take(c, TOKEN_PREFIX_LEN);
    assert p <= c;
    assert UploadToken(uid, f, s)[|u|..|u| + FP_SUFFIX_LEN] == c[|u|..|u| + FP_SUFFIX_LEN] == f[..FP_SUFFIX_LEN];
  }

  /** One token can only ever belong to one name: whatever answers to a token of this resource is a
      certificate uploaded under the name that goes with it. */
  lemma TokenDeterminesName(uid: string, crName: string, f: string, g: string, s: int, t: int)
    requires |f| == |g| == FINGERPRINT_LEN
    requires UploadToken(uid, f, s) == UploadToken(uid, g, t)
    ensures CASName(crName, f) == CASName(crName, g)
  {
    TokenCarriesNameSuffix(uid, f, s);
    TokenCarriesNameSuffix(uid, g, t);
    SameNameIffSamePrefix(crName, f, g);
  }

  lemma {:induction false} HexInjective(m: nat, n: nat, width: nat)
    requires Hex(m, width) == Hex(n, width)
    requires m < Power16(width) && n < Power16(width)
    ensures m == n
  {
    if width > 0 {
      var a, b := Hex(m, width), Hex(n, width);
      var p, q := Hex(m / 16, width - 1), Hex(n / 16, width - 1);
      assert a == p + [HexDigit(m % 16)] && b == q + [HexDigit(n % 16)];
      assert p == a[..width - 1] && q == b[..width - 1];
      assert a[width - 1] == HexDigit(m % 16) && b[width - 1] == HexDigit(n % 16);
      HexInjective(m / 16, n / 16, width - 1);
    }
  }

  function Power16(width: nat): (p: nat)
    ensures p > 0
  {
    if width == 0 then 1 else 16 * Power16(width - 1)
  }

  /** A re-upload after the probe found the certificate gone gets a token of its own, unless it
      starts exactly a multiple of 2^32 seconds later. */
  lemma TokenIsFreshIffTimeDiffers(uid: string, f: string, s: int, t: int)
    ensures UploadToken(uid, f, s) == UploadToken(uid, f, t) <==> s % 0x1_0000_0000 == t % 0x1_0000_0000
  {
    var a, b := UploadToken(uid, f, s), UploadToken(uid, f, t);
    if a == b {
      assert a[|a| - 8..] == TimeSuffix(s) && b[|b| - 8..] == TimeSuffix(t);
      assert Power16(8) == 0x1_0000_0000 by {
        assert Power16(4) == 0x1_0000;
      }
      HexInjective(s % 0x1_0000_0000, t % 0x1_0000_0000, 8);
    }
  }
}
