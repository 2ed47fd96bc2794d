/** The string operations the modelled code uses, on ASCII text. */
module Text {

  function LowerChar(c: char): char {
    if 'A' <= c <= 'Z' then (c as int + 32) as char else c
  }

  function UpperChar(c: char): char {
    if 'a' <= c <= 'z' then (c as int - 32) as char else c
  }

  function Lower(s: string): (r: string)
    ensures |r| == |s| && forall i :: 0 <= i < |r| ==> r[i] == if 'A' <= s[i] <= 'Z' then (s[i] as int + 32) as char else s[i]
  {
    seq(|s|, i requires 0 <= i < |s| => LowerChar(s[i]))
  }

  function Upper(s: string): (r: string)
    ensures |r| == |s| && forall i :: 0 <= i < |r| ==> r[i] == if 'a' <= s[i] <= 'z' then (s[i] as int - 32) as char else s[i]
  {
    seq(|s|, i requires 0 <= i < |s| => UpperChar(s[i]))
  }

  predicate IsSpace(c: char) {
    c == ' ' || c == '\t' || c == '\n' || c == '\r' || c == 11 as char || c == 12 as char
  }

  function TrimLeft(s: string): string {
    if s != "" && IsSpace(s[0]) then TrimLeft(s[1..]) else s
  }

  function TrimRight(s: string): string {
    if s != "" && IsSpace(s[|s| - 1]) then TrimRight(s[..|s| - 1]) else s
  }

  function TrimSpace(s: string): string {
    TrimRight(TrimLeft(s))
  }

  /** What is left is the part from the first to the last character that is not one of the six blanks. */
  lemma TrimSpaceExact(s: string) returns (i: nat, j: nat)
    ensures i <= j <= |s| && TrimSpace(s) == s[i..j]
    ensures forall k :: 0 <= k < i || j <= k < |s| ==> s[k] in {' ', '\t', '\n', '\r', 11 as char, 12 as char}
    ensures i < j ==> s[i] !in {' ', '\t', '\n', '\r', 11 as char, 12 as char}
    ensures i < j ==> s[j - 1] !in {' ', '\t', '\n', '\r', 11 as char, 12 as char}
  {
    i := TrimLeftExact(s);
    var t := s[i..];
    var n := TrimRightExact(t);
    j := i + n;
    assert t[..n] == s[i..j];
    forall k | j <= k < |s| ensures IsSpace(s[k]) { assert s[k] == t[k - i]; }
    assert i < j ==> s[j - 1] == t[n - 1];
  }

  lemma {:induction false} TrimLeftExact(s: string) returns (i: nat)
    ensures i <= |s| && TrimLeft(s) == s[i..]
    ensures (forall k :: 0 <= k < i ==> IsSpace(s[k])) && (i < |s| ==> !IsSpace(s[i]))
  {
    if s == "" || !IsSpace(s[0]) { return 0; }
    var k := TrimLeftExact(s[1..]);
    i := k + 1;
    assert s[1..][k..] == s[i..];
    forall m | 0 <= m < i ensures IsSpace(s[m]) { if m > 0 { assert s[m] == s[1..][m - 1]; } }
    assert i < |s| ==> s[i] == s[1..][k];
  }

  lemma {:induction false} TrimRightExact(s: string) returns (n: nat)
    ensures n <= |s| && TrimRight(s) == s[..n]
    ensures (forall k :: n <= k < |s| ==> IsSpace(s[k])) && (n > 0 ==> !IsSpace(s[n - 1]))
  {
    if s == "" || !IsSpace(s[|s| - 1]) { return |s|; }
    n := TrimRightExact(s[..|s| - 1]);
    assert s[..|s| - 1][..n] == s[..n];
    forall k | n <= k < |s| ensures IsSpace(s[k]) { if k < |s| - 1 { assert s[k] == s[..|s| - 1][k]; } }
  }

  /** At most one trailing dot goes. */
  function TrimDot(s: string): string {
    if s != "" && s[|s| - 1] == '.' then s[..|s| - 1] else s
  }

  function Split(s: string, c: char): (parts: seq<string>)
    ensures |parts| >= 1
  {
    if s == "" then [""]
    else
      var rest := Split(s[1..], c);
      if s[0] == c then [""] + rest else [[s[0]] + rest[0]] + rest[1..]
  }

  function Join(parts: seq<string>, c: char): string
    requires |parts| >= 1
  {
    if |parts| == 1 then parts[0] else parts[0] + [c] + Join(parts[1..], c)
  }

  predicate Free(s: string, c: char) {
    forall i :: 0 <= i < |s| ==> s[i] != c
  }

  predicate AllFree(parts: seq<string>, c: char) {
    forall i :: 0 <= i < |parts| ==> Free(parts[i], c)
  }

  /** Splitting and joining are inverse to each other, in both directions. */
  lemma {:induction false} JoinSplit(s: string, c: char)
    ensures Join(Split(s, c), c) == s && AllFree(Split(s, c), c)
  {
    if s != "" {
      JoinSplit(s[1..], c);
      var rest, all := Split(s[1..], c), Split(s, c);
      if s[0] == c {
        assert all[1..] == rest;
        assert Join(all, c) == [c] + Join(rest, c);
      } else {
        assert all[1..] == rest[1..];
        if |rest| > 1 {
          assert Join(all, c) == [s[0]] + rest[0] + [c] + Join(rest[1..], c);
          assert Join(rest, c) == rest[0] + [c] + Join(rest[1..], c);
        }
      }
      assert s == [s[0]] + s[1..];
    }
  }

  lemma {:induction false} SplitFree(s: string, c: char)
    requires Free(s, c)
    ensures Split(s, c) == [s]
  {
    if s != "" {
      SplitFree(s[1..], c);
      assert s == [s[0]] + s[1..];
    }
  }

  lemma {:induction false} SplitAfter(head: string, tail: string, c: char)
    requires Free(head, c)
    ensures Split(head + [c] + tail, c) == [head] + Split(tail, c)
  {
    var s := head + [c] + tail;
    if head == "" {
      assert s[1..] == tail;
    } else {
      SplitAfter(head[1..], tail, c);
      assert s[1..] == head[1..] + [c] + tail;
      assert head == [head[0]] + head[1..];
    }
  }

  lemma {:induction false} SplitJoin(parts: seq<string>, c: char)
    requires |parts| >= 1 && AllFree(parts, c)
    ensures Split(Join(parts, c), c) == parts
  {
    if |parts| == 1 {
      SplitFree(parts[0], c);
    } else {
      assert AllFree(parts[1..], c) by {
        forall i | 0 <= i < |parts[1..]| ensures Free(parts[1..][i], c) { assert parts[1..][i] == parts[i + 1]; }
      }
      SplitJoin(parts[1..], c);
      SplitAfter(parts[0], Join(parts[1..], c), c);
    }
  }

  function Prefixed(first: char, parts: seq<string>, c: char): seq<string>
    requires |parts| >= 1
  {
    if first == c then [""] + parts else [[first] + parts[0]] + parts[1..]
  }

  lemma PrefixedConcat(first: char, p: seq<string>, q: seq<string>, c: char)
    requires |p| >= 1
    ensures Prefixed(first, p + q, c) == Prefixed(first, p, c) + q
  {
    assert (p + q)[0] == p[0] && (p + q)[1..] == p[1..] + q;
  }

  lemma SplitStep(s: string, c: char)
    requires s != ""
    ensures Split(s, c) == Prefixed(s[0], Split(s[1..], c), c)
  {
  }

  /** Splitting a concatenation around the separator. */
  lemma {:induction false} SplitConcat(a: string, b: string, c: char)
    ensures Split(a + [c] + b, c) == Split(a, c) + Split(b, c)
  {
    var s := a + [c] + b;
    if a == "" {
      assert s[1..] == b;
    } else {
      SplitStep(a, c);
      SplitStep(s, c);
      SplitConcat(a[1..], b, c);
      hide Split, Prefixed;
      assert s[1..] == a[1..] + [c] + b && s[0] == a[0];
      PrefixedConcat(a[0], Split(a[1..], c), Split(b, c), c);
    }
  }

  lemma {:induction false} SplitInOne(s: string, c: char)
    ensures |Split(s, c)| == 1 <==> Free(s, c)
  {
    if s != "" {
      SplitInOne(s[1..], c);
      assert s == [s[0]] + s[1..];
    }
  }

  /** A joined text splits into at least as many parts as were joined, and into as many exactly when
      none of them holds the separator. */
  lemma {:induction false} SplitOfJoin(parts: seq<string>, c: char)
    requires |parts| >= 1
    ensures |Split(Join(parts, c), c)| >= |parts|
    ensures |Split(Join(parts, c), c)| == |parts| <==> AllFree(parts, c)
  {
    SplitInOne(parts[0], c);
    if |parts| > 1 {
      SplitOfJoin(parts[1..], c);
      SplitConcat(parts[0], Join(parts[1..], c), c);
      assert AllFree(parts, c) <==> Free(parts[0], c) && AllFree(parts[1..], c) by {
        assert parts == [parts[0]] + parts[1..];
        assert forall i :: 0 <= i < |parts[1..]| ==> parts[1..][i] == parts[i + 1];
      }
    }
  }

  /** If one of two equally long lists is free of the separator and both join to the same text, they are
      the same list. */
  lemma JoinInjective(p: seq<string>, q: seq<string>, c: char)
    requires |p| == |q| >= 1 && AllFree(p, c) && Join(p, c) == Join(q, c)
    ensures p == q
  {
    SplitOfJoin(q, c);
    SplitJoin(p, c);
    SplitJoin(q, c);
  }

  lemma {:induction false} JoinReplaced(p: seq<string>, q: seq<string>, k: nat, c: char)
    requires |p| == |q| && k + 1 < |p|
    requires p[..k] == q[..k] && p[k + 2..] == q[k + 2..]
    requires p[k] + [c] + p[k + 1] == q[k] + [c] + q[k + 1]
    ensures Join(p, c) == Join(q, c)
    decreases k
  {
    if k == 0 {
      PairFirst(p, c);
      PairFirst(q, c);
    } else {
      assert p[1..][..k - 1] == p[..k][1..] && q[1..][..k - 1] == q[..k][1..];
      assert p[1..][k + 1..] == p[k + 2..] && q[1..][k + 1..] == q[k + 2..];
      JoinReplaced(p[1..], q[1..], k - 1, c);
      assert p[0] == p[..k][0] && q[0] == q[..k][0];
    }
  }

  lemma PairFirst(p: seq<string>, c: char)
    requires |p| >= 2
    ensures Join(p, c) == (p[0] + [c] + p[1]) + (if |p| == 2 then "" else [c] + Join(p[2..], c))
  {
    assert p[1..][0] == p[1] && p[1..][1..] == p[2..];
  }

  /** And otherwise it is one of several: a separator inside one part can be read as the boundary to its
      neighbour instead. */
  lemma Ambiguous(p: seq<string>, c: char, k: nat) returns (q: seq<string>)
    requires k < |p| && |p| >= 2 && !Free(p[k], c)
    ensures |q| == |p| && q != p && Join(q, c) == Join(p, c)
    ensures forall i :: 0 <= i < |p| && i != k && i != (if k + 1 < |p| then k + 1 else k - 1) ==> q[i] == p[i]
  {
    var j :| 0 <= j < |p[k]| && p[k][j] == c;
    var a, b := p[k][..j], p[k][j + 1..];
    assert p[k] == a + [c] + b;
    if k + 1 < |p| {
      q := p[k := a][k + 1 := b + [c] + p[k + 1]];
      assert p[k] + [c] + p[k + 1] == a + [c] + (b + [c] + p[k + 1]);
      assert q[..k] == p[..k] && q[k + 2..] == p[k + 2..];
      JoinReplaced(q, p, k, c);
    } else {
      q := p[k - 1 := p[k - 1] + [c] + a][k := b];
      assert p[k - 1] + [c] + p[k] == (p[k - 1] + [c] + a) + [c] + b;
      assert q[..k - 1] == p[..k - 1] && q[k + 1..] == p[k + 1..];
      JoinReplaced(q, p, k - 1, c);
    }
    assert |q[k]| < |p[k]|;
  }

  // ----- the byte order of strings -----

  predicate LexLess(a: string, b: string) {
    b != "" && (a == "" || a[0] < b[0] || (a[0] == b[0] && LexLess(a[1..], b[1..])))
  }

  lemma {:induction false} LexTotal(a: string, b: string)
    ensures a == b || LexLess(a, b) || LexLess(b, a)
    ensures !(LexLess(a, b) && (a == b || LexLess(b, a)))
  {
    if a != "" && b != "" {
      LexTotal(a[1..], b[1..]);
      assert a == [a[0]] + a[1..] && b == [b[0]] + b[1..];
    }
  }

  /** a comes before b exactly if it is a proper prefix of b, or smaller at the first character in which
      they differ. */
  lemma {:induction false} LexLessIff(a: string, b: string)
    ensures LexLess(a, b) <==>
            exists k :: 0 <= k <= |a| && k < |b| && a[..k] == b[..k] && (k == |a| || a[k] < b[k])
  {
    if a != "" && b != "" && a[0] == b[0] {
      LexLessIff(a[1..], b[1..]);
      if LexLess(a, b) {
        var k :| 0 <= k <= |a[1..]| && k < |b[1..]| && a[1..][..k] == b[1..][..k] && (k == |a[1..]| || a[1..][k] < b[1..][k]);
        assert a[..k + 1] == [a[0]] + a[1..][..k] && b[..k + 1] == [b[0]] + b[1..][..k];
      }
      if k :| 0 <= k <= |a| && k < |b| && a[..k] == b[..k] && (k == |a| || a[k] < b[k]) {
        assert a[1..][..k - 1] == a[..k][1..] && b[1..][..k - 1] == b[..k][1..];
      }
    } else {
      assert a[..0] == b[..0];
      forall k | 0 < k <= |a| && k < |b| ensures a[..k] != b[..k] {
        assert a[..k][0] == a[0] && b[..k][0] == b[0];
      }
    }
  }

  lemma {:induction false} LexTransitive(a: string, b: string, c: string)
    requires LexLess(a, b) && LexLess(b, c)
    ensures LexLess(a, c)
  {
    if a != "" && b[0] == a[0] && c[0] == b[0] { LexTransitive(a[1..], b[1..], c[1..]); }
  }
}
