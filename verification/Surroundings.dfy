/**
 What moves around the certificate controller while a round is under way: Binding rounds (each taken
 as one step), edits of Bindings, and renewals that put new material into the serving Secret.
 */
module Surroundings {
  import opened Wrappers
  import opened Status
  import opened Naming
  import opened Cas
  import opened LedgerRuns
  import opened Retention

  /** served is the fingerprint of the material in the serving Secret; seen are all it ever held;
      recurred says that a renewal brought back a fingerprint (up to the part names are made of). */
  datatype Cluster = Cluster(crName: string, bindings: seq<BindingView>, served: string, seen: set<string>, recurred: bool)

  datatype Move =
    | BindingRound(i: nat, adopts: bool, elsewhere: string)
    | Respec(i: nat)
    | Create(certificateRef: string)
    | MarkDeleting(i: nat)
    | Vanish(i: nat)
    | Renew(fingerprint: string)

  predicate Fresh(seen: set<string>, fp: string) {
    forall f :: f in seen ==> Take(f, FP_SUFFIX_LEN) != Take(fp, FP_SUFFIX_LEN)
  }

  /** A Binding round always catches up with the spec. The only fingerprint it ever records is the one
      in the Secret of the certificate it references. */
  function Moved(c: Cluster, m: Move): Cluster {
    match m
    case BindingRound(i, adopts, elsewhere) =>
      if i >= |c.bindings| then c
      else
        var b := c.bindings[i];
        var material := if b.certificateRef == c.crName then c.served else elsewhere;
        c.(bindings := c.bindings[i := b.(observedGeneration := b.generation,
                                          appliedFingerprint := if adopts then material else b.appliedFingerprint)])
    case Respec(i) =>
      if i >= |c.bindings| then c
      else c.(bindings := c.bindings[i := c.bindings[i].(generation := c.bindings[i].generation + 1)])
    case Create(ref) => c.(bindings := c.bindings + [BindingView(ref, 1, 0, "", false)])
    case MarkDeleting(i) =>
      if i >= |c.bindings| then c else c.(bindings := c.bindings[i := c.bindings[i].(deleting := true)])
    case Vanish(i) =>
      if i >= |c.bindings| then c else c.(bindings := c.bindings[..i] + c.bindings[i + 1..])
    case Renew(fp) =>
      if fp == c.served then c
      else c.(served := fp, seen := c.seen + {fp}, recurred := c.recurred || !Fresh(c.seen, fp))
  }

  function AllMoved(c: Cluster, moves: seq<Move>): Cluster
    decreases moves
  {
    if moves == [] then c else AllMoved(Moved(c, moves[0]), moves[1..])
  }

  /** Nothing uses the fingerprint, and nothing can start to: it has left the Secret for good. */
  predicate Retired(c: Cluster, fp: string) {
    fp in c.seen && fp != c.served && fp != "" &&
    forall i :: 0 <= i < |c.bindings| && c.bindings[i].certificateRef == c.crName ==> c.bindings[i].appliedFingerprint != fp
  }

  lemma SameResource(c: Cluster, m: Move)
    ensures Moved(c, m).crName == c.crName
  {
  }

  lemma {:induction false} SameResources(c: Cluster, moves: seq<Move>)
    ensures AllMoved(c, moves).crName == c.crName
    decreases moves
  {
    if moves != [] {
      SameResource(c, moves[0]);
      SameResources(Moved(c, moves[0]), moves[1..]);
    }
  }

  lemma MoveKeepsRetired(c: Cluster, m: Move, fp: string)
    requires Retired(c, fp) && !Moved(c, m).recurred
    ensures Retired(Moved(c, m), fp)
  {
  }

  lemma {:induction false} MovesKeepRetired(c: Cluster, moves: seq<Move>, fp: string)
    requires Retired(c, fp) && !AllMoved(c, moves).recurred
    ensures Retired(AllMoved(c, moves), fp)
    decreases moves
  {
    if moves != [] {
      RecurredSticks(Moved(c, moves[0]), moves[1..]);
      MoveKeepsRetired(c, moves[0], fp);
      MovesKeepRetired(Moved(c, moves[0]), moves[1..], fp);
    }
  }

  lemma {:induction false} RecurredSticks(c: Cluster, moves: seq<Move>)
    ensures c.recurred ==> AllMoved(c, moves).recurred
    decreases moves
  {
    if moves != [] { RecurredSticks(Moved(c, moves[0]), moves[1..]); }
  }

  /** Some renewal among the moves brings back a fingerprint the Secret held before, up to the part names
      are made of. */
  predicate Recurs(c: Cluster, moves: seq<Move>)
    decreases moves
  {
    moves != [] &&
    ((moves[0].Renew? && moves[0].fingerprint != c.served && !Fresh(c.seen, moves[0].fingerprint)) ||
     Recurs(Moved(c, moves[0]), moves[1..]))
  }

  /** This alone sets the flag. */
  lemma {:induction false} RecurredIff(c: Cluster, moves: seq<Move>)
    ensures AllMoved(c, moves).recurred <==> c.recurred || Recurs(c, moves)
    decreases moves
  {
    if moves != [] { RecurredIff(Moved(c, moves[0]), moves[1..]); }
  }

  lemma {:induction false} MovedOn(c: Cluster, moves: seq<Move>, more: seq<Move>)
    ensures AllMoved(c, moves + more) == AllMoved(AllMoved(c, moves), more)
    decreases moves
  {
    if moves == [] {
      assert [] + more == more;
    } else {
      assert (moves + more)[0] == moves[0] && (moves + more)[1..] == moves[1..] + more;
      MovedOn(Moved(c, moves[0]), moves[1..], more);
    }
  }

  /** If none of the moves to come brings a fingerprint back, none of those that came did. */
  lemma NoneRecurred(c: Cluster, passed: seq<Move>, coming: seq<Move>, further: seq<Move>, left: seq<Move>)
    requires passed + coming == further + left && |passed| <= |further|
    requires !AllMoved(c, passed).recurred && !Recurs(AllMoved(c, passed), coming)
    ensures !AllMoved(c, further).recurred
  {
    RecurredIff(AllMoved(c, passed), coming);
    MovedOn(c, passed, coming);
    MovedOn(c, further, left);
    RecurredSticks(AllMoved(c, further), left);
  }

  // ----- fingerprints in the ledger and in the Secret -----

  predicate Apart(seen: set<string>) {
    forall f, g :: f in seen && g in seen && f != g ==> Take(f, FP_SUFFIX_LEN) != Take(g, FP_SUFFIX_LEN)
  }

  predicate AllDiffer(s: seq<Generation>) {
    forall i, j :: 0 <= i < j < |s| ==> s[i].fingerprint != s[j].fingerprint
  }

  /** loaded is the fingerprint the running round read. */
  predicate Known(c: Cluster, loaded: string) {
    Apart(c.seen) && c.served in c.seen && loaded in c.seen
  }

  /** A ledger of the present or the past, when settled is what became current last. Superseded
      fingerprints have left the Secret, and the running round has not read one; what is current will have
      left it, too, once something else is; and if what was read has left the Secret since, nothing the
      ledger names has come back. */
  predicate Tracked(c: Cluster, l: Ledger, loaded: string, settled: string) {
    && AllDiffer(l.history)
    && (forall i :: 0 <= i < |l.history| ==> Superseded(c, l.history[i].fingerprint, loaded, settled))
    && (l.current.Some? && l.current.value.fingerprint != "" ==> Current(c, l.current.value.fingerprint, loaded, settled))
  }

  predicate Superseded(c: Cluster, fp: string, loaded: string, settled: string) {
    fp in c.seen && fp != c.served && fp != loaded && fp != settled
  }

  predicate Current(c: Cluster, fp: string, loaded: string, settled: string) {
    && fp in c.seen
    && (fp != settled ==> fp != c.served && fp != loaded)
    && (loaded != c.served ==> fp != c.served)
  }

  /** The ledger of the present names as current what became current last, or a blank. */
  predicate InForce(l: Ledger, settled: string) {
    l.current.Some? && l.current.value.fingerprint != "" ==> l.current.value.fingerprint == settled
  }

  lemma InForceDiffers(c: Cluster, l: Ledger, loaded: string, settled: string)
    requires Tracked(c, l, loaded, settled) && InForce(l, settled)
    ensures AllDiffer(Held(l))
  {
    var s := Held(l);
    var n := |s| - |l.history|;
    forall i, j | 0 <= i < j < |s| ensures s[i].fingerprint != s[j].fingerprint {
      assert s[j] == l.history[j - n];
      if i >= n { assert s[i] == l.history[i - n]; }
    }
  }

  lemma MoveKeepsTracked(c: Cluster, m: Move, l: Ledger, loaded: string, settled: string)
    requires Known(c, loaded) && Tracked(c, l, loaded, settled) && !Moved(c, m).recurred
    ensures Known(Moved(c, m), loaded) && Tracked(Moved(c, m), l, loaded, settled)
  {
    if m.Renew? && m.fingerprint != c.served { assert m.fingerprint !in c.seen; }
  }

  lemma {:induction false} MovesKeepTracked(c: Cluster, moves: seq<Move>, l: Ledger, loaded: string, settled: string)
    requires Known(c, loaded) && Tracked(c, l, loaded, settled) && !AllMoved(c, moves).recurred
    ensures Known(AllMoved(c, moves), loaded) && Tracked(AllMoved(c, moves), l, loaded, settled)
    decreases moves
  {
    if moves != [] {
      RecurredSticks(Moved(c, moves[0]), moves[1..]);
      MoveKeepsTracked(c, moves[0], l, loaded, settled);
      MovesKeepTracked(Moved(c, moves[0]), moves[1..], l, loaded, settled);
    }
  }

  /** What became current last, once e has happened. */
  function Next(e: Event, settled: string): string {
    if e.Settle? && e.gen.Some? then e.gen.value.fingerprint else settled
  }

  /** When what was read becomes current, it is what every earlier ledger is tracked against. */
  lemma NextKeepsTracked(e: Event, c: Cluster, l: Ledger, loaded: string, settled: string)
    requires Tracked(c, l, loaded, settled)
    requires e.Settle? && e.gen.Some? ==> e.gen.value.fingerprint == loaded
    ensures Tracked(c, l, loaded, Next(e, settled))
  {
  }

  /** Every patch leaves a ledger in step, from whatever copy it was computed, if a generation it records is
      the one that was read. */
  lemma StepKeepsTracked(o: Owner, e: Event, w: World, v: World, c: Cluster, loaded: string, settled: string)
    requires Step(o, e, w, v) && Known(c, loaded) && Tracked(c, w.ledger, loaded, settled) && InForce(w.ledger, settled)
    requires FromCopy(e) ==> Tracked(c, e.copy, loaded, settled)
    requires e.Settle? && e.gen.Some? ==> e.gen.value.fingerprint == loaded
    ensures Tracked(c, v.ledger, loaded, Next(e, settled)) && InForce(v.ledger, Next(e, settled))
  {
    hide Superseded, Current, Known, RestGone, RecordOk, Sole;
    match e {
      case Settle(gen, drop, probedAt) =>
        NextKeepsTracked(e, c, w.ledger, loaded, settled);
        if gen.Some? { AdvanceKeepsTracked(w.ledger, gen.value, c, loaded, settled); }
        FirstKeepsTracked(c, Advanced(w.ledger, gen), |Advanced(w.ledger, gen).history| - drop, loaded, Next(e, settled));
      case Cleanup(l) => ClearedKeepsTracked(w.cas, c, w.ledger, l, loaded, settled);
      case Rewrite(_, copy, keep, probedAt) => FirstKeepsTracked(c, copy, keep, loaded, settled);
      case StaleCleanup(_, copy, l) =>
        if l.history != w.ledger.history { ClearedKeepsTracked(w.cas, c, copy, copy.(history := l.history), loaded, settled); }
      case _ =>
    }
  }

  lemma AdvanceKeepsTracked(l: Ledger, g: Generation, c: Cluster, loaded: string, settled: string)
    requires Known(c, loaded) && Tracked(c, l, loaded, settled) && InForce(l, settled) && g.fingerprint == loaded != ""
    requires l.current.Some? ==> l.current.value.fingerprint != loaded
    ensures Tracked(c, Advanced(l, Some(g)), loaded, loaded)
  {
    var s := Held(l);
    var n := |s| - |l.history|;
    forall i | 0 <= i < |s| ensures Superseded(c, s[i].fingerprint, loaded, loaded) {
      if i >= n { assert s[i] == l.history[i - n]; }
    }
    InForceDiffers(c, l, loaded, settled);
  }

  lemma FirstKeepsTracked(c: Cluster, l: Ledger, keep: nat, loaded: string, settled: string)
    requires Tracked(c, l, loaded, settled) && keep <= |l.history|
    ensures Tracked(c, l.(history := l.history[..keep]), loaded, settled)
  {
  }

  lemma ClearedKeepsTracked(s: CasState, c: Cluster, l: Ledger, m: Ledger, loaded: string, settled: string)
    requires Tracked(c, l, loaded, settled) && Clears(s, l.history, m.history)
    requires l.current.Some? <==> m.current.Some?
    requires l.current.Some? ==> m.current.value.fingerprint == l.current.value.fingerprint
    ensures Tracked(c, m, loaded, settled)
  {
    forall i | 0 <= i < |m.history| ensures m.history[i].fingerprint == l.history[i].fingerprint {
      assert ClearedOrKept(s, l.history[i], m.history[i]);
    }
  }
}
