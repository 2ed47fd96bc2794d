/** The protocol list of a custom domain, read by two layers that must agree on it. */
module Protocols {
  import opened Text

  const HTTP := "HTTP"
  const HTTPS := "HTTPS"
  const BOTH := "HTTP,HTTPS"

  /** The provider's reading: the set of non-empty, trimmed, upper-cased entries. */
  function Entries(parts: seq<string>): set<string> {
    set i | 0 <= i < |parts| && Upper(TrimSpace(parts[i])) != "" :: Upper(TrimSpace(parts[i]))
  }

  predicate HasHTTPS(p: string) {
    HTTPS in Entries(Split(p, ','))
  }

  predicate HasHTTP(p: string) {
    HTTP in Entries(Split(p, ','))
  }

  predicate IsHTTPSOnly(p: string) {
    HasHTTPS(p) && !HasHTTP(p)
  }

  method SplitProtocol(p: string) returns (out: set<string>)
    ensures out == Entries(Split(p, ','))
  {
    hide Upper, TrimSpace;
    var parts := Split(p, ',');
    out := {};
    for i := 0 to |parts|
      invariant out == Entries(parts[..i])
    {
      var s := Upper(TrimSpace(parts[i]));
      OneMoreEntry(parts, i);
      if s != "" { out := out + {s}; }
    }
    assert parts[..|parts|] == parts;
  }

  lemma OneMoreEntry(parts: seq<string>, i: nat)
    requires i < |parts|
    ensures var s := Upper(TrimSpace(parts[i]));
            Entries(parts[..i + 1]) == Entries(parts[..i]) + (if s != "" then {s} else {})
  {
    hide Upper, TrimSpace;
    var s := Upper(TrimSpace(parts[i]));
    var a, b := parts[..i], parts[..i + 1];
    forall x ensures x in Entries(b) <==> x in Entries(a) || (x == s && s != "") {
      if x in Entries(a) {
        var j :| 0 <= j < |a| && Upper(TrimSpace(a[j])) == x && x != "";
        assert b[j] == a[j];
      }
      if x == s && s != "" { assert b[i] == parts[i]; }
      if x in Entries(b) {
        var j :| 0 <= j < |b| && Upper(TrimSpace(b[j])) == x && x != "";
        if j < i { assert a[j] == b[j]; }
      }
    }
  }

  predicate EqualFold(a: string, b: string) {
    Lower(a) == Lower(b)
  }

  /** The generic layer's reading: whether what was asked for is already there. */
  predicate Satisfied(p: string, ensureHTTPS: bool) {
    !ensureHTTPS || exists i :: 0 <= i < |Split(p, ',')| && EqualFold(TrimSpace(Split(p, ',')[i]), HTTPS)
  }

  method ProtocolSatisfied(p: string, ensureHTTPS: bool) returns (ok: bool)
    ensures ok <==> Satisfied(p, ensureHTTPS)
  {
    if !ensureHTTPS { return true; }
    var parts := Split(p, ',');
    for i := 0 to |parts|
      invariant forall j :: 0 <= j < i ==> !EqualFold(TrimSpace(parts[j]), HTTPS)
    {
      if EqualFold(TrimSpace(parts[i]), HTTPS) { return true; }
    }
    return false;
  }

  lemma FoldsToHTTPS(s: string)
    ensures EqualFold(s, HTTPS) <==> Upper(s) == HTTPS
  {
    var u, l, g := Upper(s), Lower(s), Lower(HTTPS);
    assert g == "https";
    if u == HTTPS {
      assert |s| == 5 && u[0] == 'H' && u[1] == 'T' && u[2] == 'T' && u[3] == 'P' && u[4] == 'S';
      assert l == "https";
    }
    if l == g {
      assert |s| == 5 && l[0] == 'h' && l[1] == 't' && l[2] == 't' && l[3] == 'p' && l[4] == 's';
      assert u == HTTPS;
    }
  }

  /** One layer compares by case folding, the other by upper-casing into a set; the generic layer would
      otherwise ask forever for a protocol the provider believes to be set. */
  lemma LayersAgree(p: string)
    ensures Satisfied(p, true) <==> HasHTTPS(p)
  {
    hide Upper, Lower, TrimSpace, EqualFold;
    var parts := Split(p, ',');
    forall i | 0 <= i < |parts| ensures EqualFold(TrimSpace(parts[i]), HTTPS) <==> Upper(TrimSpace(parts[i])) == HTTPS {
      FoldsToHTTPS(TrimSpace(parts[i]));
    }
    if HasHTTPS(p) {
      var i :| 0 <= i < |parts| && Upper(TrimSpace(parts[i])) != "" && Upper(TrimSpace(parts[i])) == HTTPS;
    }
    if Satisfied(p, true) {
      var i :| 0 <= i < |parts| && EqualFold(TrimSpace(parts[i]), HTTPS);
      assert Upper(TrimSpace(parts[i])) == HTTPS;
    }
  }

  lemma Tidy(s: string)
    requires s != "" && !IsSpace(s[0]) && !IsSpace(s[|s| - 1])
    requires forall i :: 0 <= i < |s| ==> UpperChar(s[i]) == s[i]
    ensures Upper(TrimSpace(s)) == s
  {
    assert TrimLeft(s) == s && TrimRight(s) == s;
  }

  lemma TidyEntries(a: string, b: string)
    requires Upper(TrimSpace(a)) == a != "" && Upper(TrimSpace(b)) == b != ""
    ensures Entries([a]) == {a} && Entries([a, b]) == {a, b}
  {
    hide Upper, TrimSpace;
    assert [a][0] == a && [a, b][0] == a && [a, b][1] == b;
    assert a in Entries([a]) && a in Entries([a, b]) && b in Entries([a, b]);
  }

  lemma TidySplit(a: string, b: string)
    requires Free(a, ',') && Free(b, ',')
    ensures Split(a, ',') == [a] && Split(a + "," + b, ',') == [a, b]
  {
    SplitFree(a, ',');
    SplitFree(b, ',');
    SplitAfter(a, b, ',');
    assert a + "," + b == a + [','] + b;
  }

  lemma WrittenAreTidy()
    ensures Upper(TrimSpace(HTTP)) == HTTP && Upper(TrimSpace(HTTPS)) == HTTPS
  {
    Tidy(HTTP);
    Tidy(HTTPS);
  }

  /** What Apply and Cleanup write instead. */
  lemma WrittenProtocols()
    ensures HasHTTPS(BOTH) && HasHTTP(BOTH)
    ensures HasHTTP(HTTP) && !HasHTTPS(HTTP)
  {
    hide Split, Upper, TrimSpace, Entries;
    WrittenAreTidy();
    TidySplit(HTTP, HTTPS);
    TidyEntries(HTTP, HTTPS);
    assert BOTH == HTTP + "," + HTTPS;
    assert HTTPS != HTTP by { assert |HTTPS| != |HTTP|; }
  }
}
