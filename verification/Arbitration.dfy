/** Which of several Bindings on one target may write to it (binding_conflict.go). */
module Arbitration {
  import opened Wrappers
  import opened Text

  /** uid is unique and never changes; neither does the time of creation, in whole seconds. */
  datatype Candidate = Candidate(uid: string, created: int, deleting: bool)

  predicate Less(a: Candidate, b: Candidate) {
    if a.created != b.created then a.created < b.created else LexLess(a.uid, b.uid)
  }

  /** A strict total order on candidates with different uids. */
  lemma LessIsStrictTotal(a: Candidate, b: Candidate)
    ensures !(Less(a, b) && Less(b, a))
    ensures a.uid != b.uid ==> Less(a, b) || Less(b, a)
    ensures a.uid == b.uid && a.created == b.created ==> !Less(a, b)
  {
    LexTotal(a.uid, b.uid);
  }

  /** The older one comes first, and of two of the same second the one whose uid is smaller, at the first
      character in which they differ. */
  lemma OlderComesFirst(a: Candidate, b: Candidate)
    ensures Less(a, b) <==>
            a.created < b.created ||
            (a.created == b.created &&
             exists k :: 0 <= k <= |a.uid| && k < |b.uid| && a.uid[..k] == b.uid[..k] && (k == |a.uid| || a.uid[k] < b.uid[k]))
  {
    LexLessIff(a.uid, b.uid);
  }

  lemma LessTransitive(a: Candidate, b: Candidate, c: Candidate)
    requires Less(a, b) && Less(b, c)
    ensures Less(a, c)
  {
    if a.created == b.created == c.created { LexTransitive(a.uid, b.uid, c.uid); }
  }

  predicate Live(items: seq<Candidate>, c: Candidate) {
    c in items && !c.deleting
  }

  /** Nothing live comes before it. */
  predicate IsWinner(items: seq<Candidate>, w: Candidate) {
    Live(items, w) && forall c :: c in items && !c.deleting ==> !Less(c, w)
  }

  method PickWinner(items: seq<Candidate>) returns (winner: Option<Candidate>)
    ensures winner.None? ==> forall c :: c in items ==> c.deleting
    ensures winner.Some? ==> winner.value in items && !winner.value.deleting && IsWinner(items, winner.value)
    ensures winner.Some? ==> forall c :: c in items && !c.deleting && c.uid != winner.value.uid ==>
              var w := winner.value;
              || w.created < c.created
              || (w.created == c.created &&
                  exists k :: 0 <= k <= |w.uid| && k < |c.uid| && w.uid[..k] == c.uid[..k] &&
                              (k == |w.uid| || w.uid[k] < c.uid[k]))
    ensures winner.Some? ==> forall c :: c in items && !c.deleting ==> winner.value.created <= c.created
  {
    hide Less;
    winner := None;
    for i := 0 to |items|
      invariant winner.None? ==> forall c :: c in items[..i] ==> c.deleting
      invariant winner.Some? ==> IsWinner(items[..i], winner.value)
    {
      var c := items[i];
      assert items[..i + 1] == items[..i] + [c];
      if !c.deleting && (winner.None? || Less(c, winner.value)) {
        NewWinner(items[..i], winner, c);
        winner := Some(c);
      }
    }
    assert items[..|items|] == items;
    if winner.Some? {
      WinnerIsOldest(items, winner.value);
    }
  }

  lemma WinnerIsOldest(items: seq<Candidate>, w: Candidate)
    requires IsWinner(items, w)
    ensures forall c :: c in items && !c.deleting && c.uid != w.uid ==>
              || w.created < c.created
              || (w.created == c.created &&
                  exists k :: 0 <= k <= |w.uid| && k < |c.uid| && w.uid[..k] == c.uid[..k] &&
                              (k == |w.uid| || w.uid[k] < c.uid[k]))
    ensures forall c :: c in items && !c.deleting ==> w.created <= c.created
  {
    forall c | c in items && !c.deleting
      ensures w.created <= c.created
      ensures c.uid != w.uid ==>
                || w.created < c.created
                || (w.created == c.created &&
                    exists k :: 0 <= k <= |w.uid| && k < |c.uid| && w.uid[..k] == c.uid[..k] &&
                                (k == |w.uid| || w.uid[k] < c.uid[k]))
    {
      LessIsStrictTotal(w, c);
      OlderComesFirst(w, c);
      OlderComesFirst(c, w);
    }
  }

  lemma NewWinner(before: seq<Candidate>, winner: Option<Candidate>, c: Candidate)
    requires !c.deleting
    requires winner.None? ==> forall d :: d in before ==> d.deleting
    requires winner.Some? ==> IsWinner(before, winner.value) && Less(c, winner.value)
    ensures IsWinner(before + [c], c)
  {
    forall d | d in before + [c] && !d.deleting ensures !Less(d, c) {
      LessIsStrictTotal(c, c);
      if d in before && Less(d, c) { LessTransitive(d, c, winner.value); }
    }
  }

  /** The winner does not depend on the order of the list, nor on anything but who is live in it. */
  lemma OneWinner(items: seq<Candidate>, others: seq<Candidate>, v: Candidate, w: Candidate)
    requires forall c :: Live(items, c) <==> Live(others, c)
    requires IsWinner(items, v) && IsWinner(others, w)
    ensures v.uid == w.uid
  {
    assert Live(items, v) && Live(others, w);
    assert Live(others, v) && Live(items, w);
    LessIsStrictTotal(v, w);
  }

  /** Each Binding judges by its own, possibly outdated, view. If both views contain both of them, they
      never both take themselves for the winner. */
  lemma NeverTwoWinners(mine: seq<Candidate>, yours: seq<Candidate>, a: Candidate, b: Candidate)
    requires a.uid != b.uid
    requires Live(mine, b) && Live(yours, a)
    ensures !(IsWinner(mine, a) && IsWinner(yours, b))
  {
    LessIsStrictTotal(a, b);
  }

  // ----- the index key -----

  datatype Target =
    | FC3(region: string, domain: string)
    | OSS(region: string, bucket: string, domain: string)

  const FC3_TYPE := "FC3CustomDomain"
  const OSS_TYPE := "OSSCustomDomain"

  function Parts(t: Target): seq<string> {
    match t
    case FC3(region, domain) => [FC3_TYPE, region, domain]
    case OSS(region, bucket, domain) => [OSS_TYPE, region, bucket, domain]
  }

  function TargetKey(t: Target): string {
    match t
    case FC3(region, domain) => FC3_TYPE + "/" + region + "/" + domain
    case OSS(region, bucket, domain) => OSS_TYPE + "/" + region + "/" + bucket + "/" + domain
  }

  predicate SlashFree(t: Target) {
    Free(t.region, '/') && Free(t.domain, '/') && (t.OSS? ==> Free(t.bucket, '/'))
  }

  lemma JoinThree(a: string, b: string, d: string)
    ensures Join([a, b, d], '/') == a + "/" + b + "/" + d
  {
    assert [a, b, d][1..] == [b, d] && [b, d][1..] == [d];
    assert Join([b, d], '/') == b + ['/'] + d;
    assert Join([a, b, d], '/') == a + ['/'] + (b + ['/'] + d);
  }

  lemma JoinFour(a: string, b: string, d: string, e: string)
    ensures Join([a, b, d, e], '/') == a + "/" + b + "/" + d + "/" + e
  {
    assert [a, b, d, e][1..] == [b, d, e];
    JoinThree(b, d, e);
    assert Join([a, b, d, e], '/') == a + ['/'] + (b + "/" + d + "/" + e);
  }

  lemma KeyIsJoin(t: Target)
    ensures TargetKey(t) == Join(Parts(t), '/')
  {
    match t {
      case FC3(region, domain) => JoinThree(FC3_TYPE, region, domain);
      case OSS(region, bucket, domain) => JoinFour(OSS_TYPE, region, bucket, domain);
    }
  }

  lemma PartsFree(t: Target)
    ensures AllFree(Parts(t), '/') <==> SlashFree(t)
  {
    var p := Parts(t);
    assert Free(p[0], '/');
    assert p[1] == t.region && p[|p| - 1] == t.domain && (t.OSS? ==> p[2] == t.bucket);
  }

  lemma SameParts(t: Target, u: Target)
    requires Parts(t) == Parts(u)
    ensures t == u
  {
    assert Parts(t)[0] == Parts(u)[0];
    assert FC3_TYPE[0] != OSS_TYPE[0];
    assert t.region == Parts(t)[1] && u.region == Parts(u)[1];
    assert t.domain == Parts(t)[|Parts(t)| - 1] && u.domain == Parts(u)[|Parts(u)| - 1];
    if t.OSS? { assert t.bucket == Parts(t)[2] && u.bucket == Parts(u)[2]; }
  }

  /** A slash-free target shares its key with no other target, whatever that one looks like. */
  lemma SlashFreeIsAlone(t: Target, u: Target)
    requires SlashFree(t) && TargetKey(u) == TargetKey(t)
    ensures u == t
  {
    KeyIsJoin(t);
    KeyIsJoin(u);
    PartsFree(t);
    SplitOfJoin(Parts(t), '/');
    SplitOfJoin(Parts(u), '/');
    SplitJoin(Parts(t), '/');
    TypeComesFirst(t);
    TypeComesFirst(u);
    assert FC3_TYPE[0] != OSS_TYPE[0];
    if |Parts(u)| == |Parts(t)| {
      JoinInjective(Parts(t), Parts(u), '/');
      SameParts(t, u);
    }
  }

  /** What a key looks like. */
  lemma TargetKeyShape(t: Target)
    ensures t.FC3? ==> TargetKey(t) == "FC3CustomDomain" + "/" + t.region + "/" + t.domain
    ensures t.OSS? ==> TargetKey(t) == "OSSCustomDomain" + "/" + t.region + "/" + t.bucket + "/" + t.domain
  {
  }

  lemma TypeComesFirst(t: Target)
    ensures TargetKey(t) != "" && TargetKey(t)[0] == if t.FC3? then FC3_TYPE[0] else OSS_TYPE[0]
  {
  }

  /** A slash in any field can be read as the boundary to a neighbouring field. */
  lemma SlashHasADouble(t: Target) returns (u: Target)
    requires !SlashFree(t)
    ensures u != t && TargetKey(u) == TargetKey(t)
  {
    var p := Parts(t);
    var k := if !Free(t.region, '/') then 1 else if t.OSS? && !Free(t.bucket, '/') then 2 else |p| - 1;
    assert p[1] == t.region && p[|p| - 1] == t.domain && (t.OSS? ==> p[2] == t.bucket);
    var q := Ambiguous(p, '/', k);
    assert q[0] == p[0];
    u := if t.FC3? then FC3(q[1], q[2]) else OSS(q[1], q[2], q[3]);
    assert Parts(u) == q;
    KeyIsJoin(t);
    KeyIsJoin(u);
  }

  /** Targets the API accepts, since region and domain only have to be non-empty, and that are taken for one. */
  lemma SlashesCollide(a: string, b: string, c: string)
    requires a != "" && c != ""
    ensures var t, u := FC3(a + "/" + b, c), FC3(a, b + "/" + c);
            t != u && TargetKey(t) == TargetKey(u) && t.region != "" && t.domain != "" && u.region != "" && u.domain != ""
  {
    var t, u := FC3(a + "/" + b, c), FC3(a, b + "/" + c);
    assert |t.domain| < |u.domain|;
    assert TargetKey(t) == FC3_TYPE + "/" + a + "/" + b + "/" + c == TargetKey(u);
  }

  /** Exactly when a key names one target only. */
  lemma KeyNamesOneTarget(t: Target)
    ensures SlashFree(t) <==> forall u :: TargetKey(u) == TargetKey(t) ==> u == t
  {
    if SlashFree(t) {
      forall u | TargetKey(u) == TargetKey(t) ensures u == t { SlashFreeIsAlone(t, u); }
    } else {
      var u := SlashHasADouble(t);
    }
  }
}
