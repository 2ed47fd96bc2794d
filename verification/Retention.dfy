/** The retention policy: which generations may go, and exactly how many one pass drops. */
module Retention {
  import opened Wrappers
  import opened Status

  /** What the policy reads of a Binding. */
  datatype BindingView = BindingView(
    certificateRef: string,
    generation: int,
    observedGeneration: int,
    appliedFingerprint: string,
    deleting: bool)

  /** The Bindings of the namespace that reference the certificate. */
  function Referencing(all: seq<BindingView>, crName: string): seq<BindingView> {
    if all == [] then []
    else (if all[0].certificateRef == crName then [all[0]] else []) + Referencing(all[1..], crName)
  }

  lemma {:induction false} ReferencingExact(all: seq<BindingView>, crName: string, b: BindingView)
    ensures b in Referencing(all, crName) <==> b in all && b.certificateRef == crName
  {
    if all != [] {
      ReferencingExact(all[1..], crName, b);
      assert all == [all[0]] + all[1..];
    }
  }

  /** The client-side filter of liveBindingsFor. */
  method FilterReferencing(all: seq<BindingView>, crName: string) returns (out: seq<BindingView>)
    ensures out == Referencing(all, crName)
  {
    out := [];
    for i := 0 to |all|
      invariant out + Referencing(all[i..], crName) == Referencing(all, crName)
    {
      if all[i].certificateRef == crName { out := out + [all[i]]; }
      assert all[i..][1..] == all[i + 1..];
    }
  }

  const DEFAULT_KEEP_LAST := 2
  const DEFAULT_MIN_AGE := 86400

  function KeepLastOrDefault(keepLast: int): int {
    if keepLast < 1 then DEFAULT_KEEP_LAST else keepLast
  }

  function MinAgeOrDefault(minAge: Option<int>): int {
    if minAge.None? then DEFAULT_MIN_AGE else minAge.value
  }

  predicate OldEnough(g: Generation, now: int, minAge: int) {
    now - g.uploadedAt >= minAge
  }

  predicate CaughtUp(b: BindingView) {
    b.observedGeneration >= b.generation
  }

  /** The three guards. */
  predicate Reclaimable(g: Generation, now: int, minAge: int, bindings: seq<BindingView>) {
    OldEnough(g, now, minAge) &&
    forall i :: 0 <= i < |bindings| ==> CaughtUp(bindings[i]) && bindings[i].appliedFingerprint != g.fingerprint
  }

  /** The decision as the code takes it, Binding by Binding. */
  method MayReclaim(g: Generation, now: int, minAge: int, bindings: seq<BindingView>) returns (ok: bool)
    ensures ok <==>
              && now - g.uploadedAt >= minAge
              && forall i :: 0 <= i < |bindings| ==>
                   && bindings[i].observedGeneration >= bindings[i].generation
                   && bindings[i].appliedFingerprint != g.fingerprint
    ensures ok <==> Reclaimable(g, now, minAge, bindings)
  {
    if now - g.uploadedAt < minAge { return false; }
    for i := 0 to |bindings|
      invariant forall j :: 0 <= j < i ==> CaughtUp(bindings[j]) && bindings[j].appliedFingerprint != g.fingerprint
    {
      if bindings[i].observedGeneration < bindings[i].generation { return false; }
      if bindings[i].appliedFingerprint == g.fingerprint { return false; }
    }
    return true;
  }

  /** How many of the oldest generations can go in a row. */
  function ReclaimableTail(h: seq<Generation>, now: int, minAge: int, bindings: seq<BindingView>): nat {
    if h != [] && Reclaimable(h[|h| - 1], now, minAge, bindings)
    then 1 + ReclaimableTail(h[..|h| - 1], now, minAge, bindings)
    else 0
  }

  /** What an undisturbed pass drops. */
  function DropCount(h: seq<Generation>, keep: int, now: int, minAge: int, bindings: seq<BindingView>): nat {
    var excess := 1 + |h| - keep;
    var tail := ReclaimableTail(h, now, minAge, bindings);
    if excess <= 0 then 0 else if excess < tail then excess else tail
  }

  /** The tail is the longest one: all of it passes the guards, and what precedes it does not. */
  lemma {:induction false} TailIsLongest(h: seq<Generation>, now: int, minAge: int, bindings: seq<BindingView>)
    ensures var k := ReclaimableTail(h, now, minAge, bindings);
            && k <= |h|
            && (forall i :: |h| - k <= i < |h| ==> Reclaimable(h[i], now, minAge, bindings))
            && (k < |h| ==> !Reclaimable(h[|h| - 1 - k], now, minAge, bindings))
  {
    if h != [] && Reclaimable(h[|h| - 1], now, minAge, bindings) {
      TailIsLongest(h[..|h| - 1], now, minAge, bindings);
    }
  }

  /** A pass never takes current and history together below the configured count, and never stops
      short of it while the oldest generation left could still go. */
  lemma DropCountExact(h: seq<Generation>, keep: int, now: int, minAge: int, bindings: seq<BindingView>)
    requires keep >= 1
    ensures var k := DropCount(h, keep, now, minAge, bindings);
            && k <= |h|
            && (k > 0 ==> 1 + |h| - k >= keep)
            && (forall i :: |h| - k <= i < |h| ==> Reclaimable(h[i], now, minAge, bindings))
            && (1 + |h| - k > keep ==> !Reclaimable(h[|h| - 1 - k], now, minAge, bindings))
  {
    TailIsLongest(h, now, minAge, bindings);
  }

  /** Dropping one and starting over is the same as going on. */
  lemma DropCountStep(h: seq<Generation>, keep: int, now: int, minAge: int, bindings: seq<BindingView>)
    requires h != [] && 1 + |h| > keep && Reclaimable(h[|h| - 1], now, minAge, bindings)
    ensures DropCount(h, keep, now, minAge, bindings) == 1 + DropCount(h[..|h| - 1], keep, now, minAge, bindings)
  {
  }

  /** With nothing in excess, or the oldest protected, nothing is dropped. */
  lemma DropCountStops(h: seq<Generation>, keep: int, now: int, minAge: int, bindings: seq<BindingView>)
    requires h == [] || 1 + |h| <= keep || !Reclaimable(h[|h| - 1], now, minAge, bindings)
    ensures DropCount(h, keep, now, minAge, bindings) == 0
  {
  }

  /** Age and an unfinished Binding block everything newer as well, so stopping at the oldest blocked
      generation loses nothing. */
  lemma BlockedOldestBlocksNewer(h: seq<Generation>, i: nat, j: nat, now: int, minAge: int, bindings: seq<BindingView>)
    requires i < j < |h| && h[j].uploadedAt <= h[i].uploadedAt
    requires !OldEnough(h[j], now, minAge) || exists k :: 0 <= k < |bindings| && !CaughtUp(bindings[k])
    ensures !Reclaimable(h[i], now, minAge, bindings)
  {
  }

  predicate SomeUses(bindings: seq<BindingView>, fp: string) {
    exists k :: 0 <= k < |bindings| && bindings[k].appliedFingerprint == fp
  }

  predicate AllCaughtUp(bindings: seq<BindingView>) {
    forall k :: 0 <= k < |bindings| ==> CaughtUp(bindings[k])
  }

  /** Stopping at the oldest generation passes over a newer one that could go exactly in one situation:
      every Binding has caught up, one of them uses the oldest generation, and some newer generation is
      old enough and used by none. */
  lemma StoppingCostsSomethingIff(h: seq<Generation>, now: int, minAge: int, bindings: seq<BindingView>)
    requires h != [] && forall i :: 0 <= i < |h| ==> h[|h| - 1].uploadedAt <= h[i].uploadedAt
    ensures (!Reclaimable(h[|h| - 1], now, minAge, bindings) &&
             exists i :: 0 <= i < |h| - 1 && Reclaimable(h[i], now, minAge, bindings))
            <==>
            (AllCaughtUp(bindings) && SomeUses(bindings, h[|h| - 1].fingerprint) &&
             exists i :: 0 <= i < |h| - 1 && OldEnough(h[i], now, minAge) && !SomeUses(bindings, h[i].fingerprint))
  {
    forall i | 0 <= i < |h|
      ensures Reclaimable(h[i], now, minAge, bindings) <==>
              OldEnough(h[i], now, minAge) && AllCaughtUp(bindings) && !SomeUses(bindings, h[i].fingerprint)
    {
    }
  }

  /** And then the pass drops nothing at all, whatever is in excess. */
  lemma StoppingDropsNothing(h: seq<Generation>, keep: int, now: int, minAge: int, bindings: seq<BindingView>)
    requires h != [] && SomeUses(bindings, h[|h| - 1].fingerprint)
    ensures DropCount(h, keep, now, minAge, bindings) == 0
  {
    var k :| 0 <= k < |bindings| && bindings[k].appliedFingerprint == h[|h| - 1].fingerprint;
    assert !Reclaimable(h[|h| - 1], now, minAge, bindings);
    DropCountStops(h, keep, now, minAge, bindings);
  }
}
