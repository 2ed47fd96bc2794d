/** Which host names a certificate covers (pkg/pki/sans.go): section 6.4.3 of RFC 6125, as coded. */
module Sans {
  import opened Text

  /** Case and one trailing dot do not matter. */
  function Key(s: string): string {
    Lower(TrimDot(s))
  }

  lemma KeyShape(s: string)
    ensures var n := if s != "" && s[|s| - 1] == '.' then |s| - 1 else |s|;
            && |Key(s)| == n
            && forall i :: 0 <= i < n ==> Key(s)[i] == if 'A' <= s[i] <= 'Z' then (s[i] as int + 32) as char else s[i]
  {
  }

  predicate Label(s: string) {
    s != "" && Free(s, '.') && Free(s, '*')
  }

  /** The rule: equal names, or a wildcard that stands for exactly one whole leftmost label, in front of
      at least two ordinary ones. */
  ghost predicate Matches(pattern: string, host: string) {
    pattern != "" && host != "" &&
    (pattern == host ||
     exists first: string, labels: seq<string> ::
       && |labels| >= 2 && (forall i :: 0 <= i < |labels| ==> Label(labels[i]))
       && first != "" && Free(first, '.')
       && pattern == "*." + Join(labels, '.') && host == first + "." + Join(labels, '.'))
  }

  /** The wildcard case, on the labels. */
  predicate WildcardMatches(p: string, h: string) {
    var pl, hl := Split(p, '.'), Split(h, '.');
    |p| >= 2 && p[..2] == "*." && |pl| >= 3 && |pl| == |hl| && hl[0] != "" &&
    forall i :: 1 <= i < |pl| ==> pl[i] != "" && Free(pl[i], '*') && pl[i] == hl[i]
  }

  predicate Covers(pattern: string, host: string) {
    var p, h := Key(pattern), Key(host);
    p != "" && h != "" && (p == h || WildcardMatches(p, h))
  }

  lemma CoversIsTheRule(pattern: string, host: string)
    ensures Covers(pattern, host) <==> Matches(Key(pattern), Key(host))
  {
    hide WildcardMatches, Key, Join, Split;
    var p, h := Key(pattern), Key(host);
    if p != "" && h != "" && p != h {
      if WildcardMatches(p, h) { ComputedImpliesRule(p, h); }
      if Matches(p, h) {
        var first, labels :| |labels| >= 2 && (forall i :: 0 <= i < |labels| ==> Label(labels[i])) && first != ""
                             && Free(first, '.') && p == "*." + Join(labels, '.') && h == first + "." + Join(labels, '.');
        RuleImpliesComputed(p, h, first, labels);
      }
    }
  }

  lemma ComputedImpliesRule(p: string, h: string)
    requires p != "" && h != "" && WildcardMatches(p, h)
    ensures Matches(p, h)
  {
    var pl, hl := Split(p, '.'), Split(h, '.');
    var tail := p[2..];
    assert p == "*" + ['.'] + tail;
    SplitAfter("*", tail, '.');
    var labels := Split(tail, '.');
    JoinSplit(tail, '.');
    JoinSplit(h, '.');
    assert hl[1..] == labels by { assert forall i :: 0 <= i < |labels| ==> hl[i + 1] == pl[i + 1] == labels[i]; }
    assert h == hl[0] + "." + Join(labels, '.');
    assert p == "*." + Join(labels, '.');
    forall i | 0 <= i < |labels| ensures Label(labels[i]) { assert labels[i] == pl[i + 1]; }
  }

  lemma RuleImpliesComputed(p: string, h: string, first: string, labels: seq<string>)
    requires |labels| >= 2 && (forall i :: 0 <= i < |labels| ==> Label(labels[i])) && first != "" && Free(first, '.')
    requires p == "*." + Join(labels, '.') && h == first + "." + Join(labels, '.')
    ensures WildcardMatches(p, h)
  {
    var tail := Join(labels, '.');
    SplitJoin(labels, '.');
    assert p == "*" + ['.'] + tail && h == first + ['.'] + tail;
    SplitAfter("*", tail, '.');
    SplitAfter(first, tail, '.');
    assert p[..2] == "*.";
  }

  /** The loop over the labels. */
  method CoversHost(pattern: string, host: string) returns (ok: bool)
    ensures ok <==> Covers(pattern, host)
  {
    hide Key, Split;
    var p, h := Key(pattern), Key(host);
    if p == "" || h == "" { return false; }
    if p == h { return true; }
    if |p| < 2 || p[..2] != "*." { return false; }
    var pl, hl := Split(p, '.'), Split(h, '.');
    if |pl| < 3 || |pl| != |hl| { return false; }
    for i := 1 to |pl|
      invariant forall j :: 1 <= j < i ==> pl[j] != "" && Free(pl[j], '*') && pl[j] == hl[j]
    {
      if pl[i] == "" || !Free(pl[i], '*') || pl[i] != hl[i] { return false; }
    }
    return hl[0] != "";
  }

  predicate CoveredBy(names: seq<string>, host: string) {
    exists i :: 0 <= i < |names| && Covers(names[i], host)
  }

  /** Coverage depends on the name only up to case and trailing dot. */
  lemma SameKeySameCoverage(names: seq<string>, a: string, b: string)
    requires Key(a) == Key(b)
    ensures CoveredBy(names, a) <==> CoveredBy(names, b)
  {
    assert forall i :: 0 <= i < |names| ==> (Covers(names[i], a) <==> Covers(names[i], b));
  }

  predicate Sorted(s: seq<string>) {
    forall i, j :: 0 <= i < j < |s| ==> !LexLess(s[j], s[i])
  }

  predicate DistinctKeys(s: seq<string>) {
    forall i, j :: 0 <= i < j < |s| ==> Key(s[i]) != Key(s[j])
  }

  /** Where x belongs in a sorted sequence. */
  method Place(s: seq<string>, x: string) returns (k: nat)
    requires Sorted(s)
    ensures k <= |s|
    ensures forall i :: 0 <= i < k ==> !LexLess(x, s[i])
    ensures forall i :: k <= i < |s| ==> !LexLess(s[i], x)
  {
    hide LexLess;
    k := |s|;
    while k > 0 && LexLess(x, s[k - 1])
      invariant 0 <= k <= |s|
      invariant forall i :: k <= i < |s| ==> LexLess(x, s[i])
    {
      k := k - 1;
    }
    forall i | 0 <= i < k ensures !LexLess(x, s[i]) {
      if LexLess(x, s[i]) && i < k - 1 {
        LexTotal(s[i], s[k - 1]);
        if s[i] != s[k - 1] { LexTransitive(x, s[i], s[k - 1]); }
      }
    }
    forall i | k <= i < |s| ensures !LexLess(s[i], x) { LexTotal(x, s[i]); }
  }

  /** Sorts names that are distinct up to case and trailing dot. */
  method SortNames(s: seq<string>) returns (t: seq<string>)
    requires DistinctKeys(s)
    ensures Sorted(t) && DistinctKeys(t)
    ensures forall y :: y in t <==> y in s
  {
    hide Key, LexLess;
    t := [];
    for i := 0 to |s|
      invariant Sorted(t) && DistinctKeys(t)
      invariant forall y :: y in t <==> y in s[..i]
    {
      var x := s[i];
      forall j | 0 <= j < |t| ensures Key(t[j]) != Key(x) { assert t[j] in s[..i]; }
      var k := Place(t, x);
      InsertKeeps(t, k, x);
      t := t[..k] + [x] + t[k..];
      assert s[..i + 1] == s[..i] + [x];
    }
    assert s[..|s|] == s;
  }

  lemma InsertKeeps(t: seq<string>, k: nat, x: string)
    requires Sorted(t) && DistinctKeys(t) && k <= |t|
    requires forall i :: 0 <= i < k ==> !LexLess(x, t[i])
    requires forall i :: k <= i < |t| ==> !LexLess(t[i], x)
    requires forall j :: 0 <= j < |t| ==> Key(t[j]) != Key(x)
    ensures var u := t[..k] + [x] + t[k..]; Sorted(u) && DistinctKeys(u) && forall y :: y in u <==> y in t + [x]
  {
    hide Key, LexLess;
    var u := t[..k] + [x] + t[k..];
    forall i, j | 0 <= i < j < |u| ensures Key(u[i]) != Key(u[j]) && !LexLess(u[j], u[i]) {
      Inserted(t, k, x, i);
      Inserted(t, k, x, j);
    }
    assert t == t[..k] + t[k..];
    assert forall y :: y in u <==> y in t[..k] || y == x || y in t[k..];
  }

  lemma Inserted(t: seq<string>, k: nat, x: string, i: nat)
    requires k <= |t| && i <= |t|
    ensures (t[..k] + [x] + t[k..])[i] == if i < k then t[i] else if i == k then x else t[i - 1]
  {
  }

  method IsCovered(names: seq<string>, host: string) returns (covered: bool)
    ensures covered <==> CoveredBy(names, host)
  {
    hide Covers;
    for n := 0 to |names|
      invariant forall m :: 0 <= m < n ==> !Covers(names[m], host)
    {
      var c := CoversHost(names[n], host);
      if c { return true; }
    }
    return false;
  }

  ghost predicate Represented(out: seq<string>, r: string) {
    exists x :: x in out && Key(x) == Key(r)
  }

  /** The spelling that comes first among those equal up to case and trailing dot. */
  ghost predicate FirstSpelling(required: seq<string>, x: string) {
    exists j :: 0 <= j < |required| && required[j] == x && KeyIsNew(required, j)
  }

  predicate KeyIsNew(required: seq<string>, j: nat)
    requires j < |required|
  {
    forall i :: 0 <= i < j ==> Key(required[i]) != Key(required[j])
  }

  /** The required names no certificate name covers: in order, each once, and all of them, each in the
      spelling in which it was required first. */
  method Missing(names: seq<string>, required: seq<string>) returns (out: seq<string>)
    ensures Sorted(out) && DistinctKeys(out)
    ensures forall x :: x in out ==> x in required && !CoveredBy(names, x) && FirstSpelling(required, x)
    ensures forall r :: r in required && !CoveredBy(names, r) ==> Represented(out, r)
    ensures out == [] <==> forall r :: r in required ==> CoveredBy(names, r)
  {
    hide Key, CoveredBy;
    out := [];
    var seen := {};
    for i := 0 to |required|
      invariant DistinctKeys(out)
      invariant forall x :: x in out ==> x in required && !CoveredBy(names, x) && Key(x) in seen && FirstSpelling(required, x)
      invariant forall j :: 0 <= j < i ==> Key(required[j]) in seen
      invariant forall k :: k in seen ==> exists j :: 0 <= j < i && Key(required[j]) == k
      invariant forall j :: 0 <= j < i && !CoveredBy(names, required[j]) ==> Represented(out, required[j])
    {
      var r := required[i];
      if Key(r) in seen {
        var j :| 0 <= j < i && Key(required[j]) == Key(r);
        SameKeySameCoverage(names, required[j], r);
        if !CoveredBy(names, r) { SameKeySameRepresentative(out, required[j], r); }
      } else {
        seen := seen + {Key(r)};
        var covered := IsCovered(names, r);
        if !covered {
          assert KeyIsNew(required, i) && FirstSpelling(required, r);
          Append(out, r);
          out := out + [r];
        }
      }
    }
    ghost var found := out;
    out := SortNames(out);
    forall r | r in required && !CoveredBy(names, r) ensures Represented(out, r) {
      var j :| 0 <= j < |required| && required[j] == r;
      SameElements(found, out, r);
    }
    assert out != [] ==> out[0] in out;
  }

  lemma SameKeySameRepresentative(out: seq<string>, a: string, b: string)
    requires Represented(out, a) && Key(a) == Key(b)
    ensures Represented(out, b)
  {
  }

  lemma SameElements(s: seq<string>, t: seq<string>, r: string)
    requires Represented(s, r) && forall y :: y in t <==> y in s
    ensures Represented(t, r)
  {
    var x :| x in s && Key(x) == Key(r);
    assert x in t;
  }

  lemma Append(out: seq<string>, r: string)
    requires DistinctKeys(out) && forall x :: x in out ==> Key(x) != Key(r)
    ensures DistinctKeys(out + [r]) && Represented(out + [r], r)
    ensures forall a :: Represented(out, a) ==> Represented(out + [r], a)
  {
    hide Key;
    var t := out + [r];
    assert r in t && forall x :: x in out ==> x in t;
    forall i, j | 0 <= i < j < |t| ensures Key(t[i]) != Key(t[j]) { if j == |out| { assert t[i] in out; } }
  }
}
