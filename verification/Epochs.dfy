/**
 The fingerprints of a whole run. As long as none of them comes back, everything a ledger of the past
 names is told apart from what the Secret holds; and all ledgers that had the same generation in force
 name the same certificates, but for those that are gone. That is why a retention pass over a copy that
 has fallen behind does no harm.
 */
module Epochs {
  import opened Wrappers
  import opened Status
  import opened Naming
  import opened Cas
  import opened LedgerRuns
  import opened Surroundings

  /** The fingerprint that became current last. */
  function InService(es: seq<Event>): string {
    if es == [] then "" else Next(es[|es| - 1], InService(es[..|es| - 1]))
  }

  lemma InServiceNext(es: seq<Event>, e: Event)
    ensures InService(es + [e]) == Next(e, InService(es))
  {
    assert (es + [e])[..|es|] == es;
  }

  ghost predicate InStep(c: Cluster, ws: seq<World>, es: seq<Event>, loaded: string) {
    && |ws| > 0 && Known(c, loaded)
    && (forall j :: 0 <= j < |ws| ==> Tracked(c, ws[j].ledger, loaded, InService(es)))
    && InForce(ws[|ws| - 1].ledger, InService(es))
  }

  lemma StepKeepsInStep(o: Owner, ws: seq<World>, es: seq<Event>, e: Event, v: World, c: Cluster, loaded: string)
    requires InStep(c, ws, es, loaded) && Step(o, e, ws[|ws| - 1], v) && Remembers(ws, e, |es|)
    requires e.Settle? && e.gen.Some? ==> e.gen.value.fingerprint == loaded
    ensures InStep(c, ws + [v], es + [e], loaded)
  {
    hide Tracked, Step, Known, InForce, InService;
    InServiceNext(es, e);
    StepKeepsTracked(o, e, ws[|ws| - 1], v, c, loaded, InService(es));
    forall j | 0 <= j < |ws + [v]| ensures Tracked(c, (ws + [v])[j].ledger, loaded, Next(e, InService(es))) {
      if j < |ws| { NextKeepsTracked(e, c, ws[j].ledger, loaded, InService(es)); }
    }
  }

  lemma MovesKeepInStep(c: Cluster, moves: seq<Move>, ws: seq<World>, es: seq<Event>, loaded: string)
    requires InStep(c, ws, es, loaded) && !AllMoved(c, moves).recurred
    ensures InStep(AllMoved(c, moves), ws, es, loaded)
  {
    hide Tracked, AllMoved, Known, InForce, InService;
    forall j | 0 <= j < |ws|
      ensures Known(AllMoved(c, moves), loaded) && Tracked(AllMoved(c, moves), ws[j].ledger, loaded, InService(es))
    {
      MovesKeepTracked(c, moves, ws[j].ledger, loaded, InService(es));
    }
    MovesKeepTracked(c, moves, ws[|ws| - 1].ledger, loaded, InService(es));
  }

  /** The next round reads what is in the Secret. */
  lemma ReadingKeepsInStep(c: Cluster, ws: seq<World>, es: seq<Event>, loaded: string)
    requires InStep(c, ws, es, loaded)
    ensures InStep(c, ws, es, c.served)
  {
    hide InForce, InService;
    forall j | 0 <= j < |ws| ensures Tracked(c, ws[j].ledger, c.served, InService(es)) {
      assert Tracked(c, ws[j].ledger, loaded, InService(es));
    }
  }

  // ----- what one generation in force has in common -----

  predicate Gone(s: CasState, id: int) {
    id in s.issued && id !in s.certs
  }

  /** The histories name the same certificates, but for those that are gone for good. */
  ghost predicate SameLive(s: CasState, h: seq<Generation>, k: seq<Generation>) {
    forall id :: Lists(h, id) != Lists(k, id) ==> Gone(s, id)
  }

  ghost predicate Epoch(ws: seq<World>, es: seq<Event>) {
    && |ws| > 0
    && forall j :: 0 <= j < |ws| && Serves(ws[j].ledger, InService(es)) ==>
         SameLive(ws[|ws| - 1].cas, ws[j].ledger.history, ws[|ws| - 1].ledger.history)
  }

  predicate Serves(l: Ledger, fp: string) {
    l.current.Some? && fp != "" && l.current.value.fingerprint == fp
  }

  predicate Tidy(es: seq<Event>) {
    forall i :: 0 <= i < |es| ==> !es[i].StaleCleanup?
  }

  lemma GoneForGood(o: Owner, e: Event, w: World, v: World, id: int)
    requires Consistent(w.cas) && Step(o, e, w, v) && Gone(w.cas, id)
    ensures Gone(v.cas, id)
  {
    assert id in w.cas.issued.Keys && id <= w.cas.nextID;
  }

  lemma FirstSameLive(o: Owner, s: CasState, h: seq<Generation>, keep: nat)
    requires keep <= |h| && RestGone(s, h, keep)
    requires forall i :: 0 <= i < |h| ==> RecordOk(o, s, h[i])
    ensures SameLive(s, h, h[..keep])
  {
    forall id | Lists(h, id) != Lists(h[..keep], id) ensures Gone(s, id) {
      KeptLists(s, h, keep, id);
      FirstLists(h, keep, id);
      ListedWasIssued(o, s, h, id);
    }
  }

  lemma FirstLists(h: seq<Generation>, keep: nat, id: int)
    requires keep <= |h|
    ensures Lists(h[..keep], id) ==> Lists(h, id)
  {
    if Lists(h[..keep], id) {
      var i :| 0 <= i < keep && h[..keep][i].certId == Some(id);
      assert h[i].certId == Some(id);
    }
  }

  lemma ListedWasIssued(o: Owner, s: CasState, h: seq<Generation>, id: int)
    requires forall i :: 0 <= i < |h| ==> RecordOk(o, s, h[i])
    ensures Lists(h, id) ==> id in s.issued
  {
    if Lists(h, id) {
      var i :| 0 <= i < |h| && h[i].certId == Some(id);
      assert RecordOk(o, s, h[i]);
    }
  }

  lemma ClearedSameLive(o: Owner, s: CasState, h: seq<Generation>, k: seq<Generation>)
    requires Clears(s, h, k)
    requires forall i :: 0 <= i < |h| ==> RecordOk(o, s, h[i])
    ensures SameLive(s, h, k)
  {
    forall id | Lists(h, id) != Lists(k, id) ensures Gone(s, id) {
      ClearedLists(s, h, k, id);
      ClearedListsNoMore(s, h, k, id);
      ListedWasIssued(o, s, h, id);
    }
  }

  lemma ClearedListsNoMore(s: CasState, h: seq<Generation>, k: seq<Generation>, id: int)
    requires Clears(s, h, k)
    ensures Lists(k, id) ==> Lists(h, id)
  {
    if Lists(k, id) {
      var i :| 0 <= i < |k| && k[i].certId == Some(id);
      assert ClearedOrKept(s, h[i], k[i]) && h[i].certId == Some(id);
    }
  }

  /** A step that supersedes nothing keeps the history, but for what is gone. A remainder is taken from a
      ledger with the same generation in force. */
  lemma StepSameLive(o: Owner, e: Event, w: World, v: World)
    requires Inv(o, w) && Step(o, e, w, v) && !e.StaleCleanup?
    requires e.Settle? && e.gen.Some? ==> w.ledger.current.None? || w.ledger.current.value.fingerprint == ""
    requires e.Rewrite? ==> Sound(o, w.cas, e.copy) && SameLive(w.cas, e.copy.history, w.ledger.history)
    ensures SameLive(v.cas, w.ledger.history, v.ledger.history)
  {
    hide Lists, RestGone, RecordOk, Sole, External, Consistent, TokensOk, Gone, Clears;
    match e {
      case Settle(gen, drop, probedAt) =>
        var h := w.ledger.history;
        assert Advanced(w.ledger, gen).history == h;
        SettleRestGone(o, w, gen, drop);
        FirstSameLive(o, w.cas, h, |h| - drop);
      case Cleanup(l) => ClearedSameLive(o, w.cas, w.ledger.history, l.history);
      case Rewrite(_, copy, keep, probedAt) =>
        FirstSameLive(o, w.cas, copy.history, keep);
        forall id | Lists(w.ledger.history, id) != Lists(copy.history[..keep], id) ensures Gone(w.cas, id) {}
      case _ =>
    }
  }

  lemma SettleRestGone(o: Owner, w: World, gen: Option<Generation>, drop: nat)
    requires SettleOk(o, w, gen, drop)
    ensures RestGone(w.cas, Advanced(w.ledger, gen).history, |Advanced(w.ledger, gen).history| - drop)
  {
  }

  /** Through any step but a deletion round's patch from an outdated copy, all ledgers with the same
      generation in force keep naming the same certificates. */
  lemma StepKeepsEpoch(o: Owner, ws: seq<World>, es: seq<Event>, e: Event, v: World, c: Cluster, loaded: string)
    requires Run(o, ws, es) && Epoch(ws, es) && InStep(c, ws, es, loaded)
    requires Step(o, e, ws[|ws| - 1], v) && Remembers(ws, e, |es|) && !e.StaleCleanup?
    requires e.Settle? && e.gen.Some? ==> e.gen.value.fingerprint == loaded
    requires e.Rewrite? ==> Serves(e.copy, loaded)
    ensures Epoch(ws + [v], es + [e])
    ensures e.Rewrite? ==> Forfeited(ws[|ws| - 1], e) == {}
  {
    hide Run, Step, Inv, InStep, SameLive, Sound, Forfeited, InService;
    var w := ws[|ws| - 1];
    InServiceNext(es, e);
    CopyServes(ws, es, e, c, loaded);
    RunInv(o, ws, es, |ws| - 1);
    ConsistentAtLast(o, w);
    if FromCopy(e) { EarlierIsSound(o, ws, es, e.at, |ws| - 1); }
    if e.Settle? && e.gen.Some? && InService(es) != e.gen.value.fingerprint {
      NewEpoch(ws, es, e, v, c, loaded);
    } else {
      SupersedesNothing(o, ws, es, e, v, c, loaded);
      StepSameLive(o, e, w, v);
      forall j | 0 <= j < |ws| && Serves(ws[j].ledger, InService(es))
        ensures SameLive(v.cas, ws[j].ledger.history, v.ledger.history)
      {
        SameLiveOn(o, e, w, v, ws[j].ledger.history);
      }
      SameLiveItself(v);
    }
    if e.Rewrite? { RewriteForfeitsNothing(w, e); }
  }

  lemma CopyServes(ws: seq<World>, es: seq<Event>, e: Event, c: Cluster, loaded: string)
    requires InStep(c, ws, es, loaded) && Remembers(ws, e, |es|)
    requires e.Rewrite? ==> Serves(e.copy, loaded)
    ensures e.Rewrite? ==> Serves(e.copy, InService(es)) && ws[e.at].ledger == e.copy && e.at < |ws|
  {
    if e.Rewrite? { assert Tracked(c, ws[e.at].ledger, loaded, InService(es)); }
  }

  lemma SupersedesNothing(o: Owner, ws: seq<World>, es: seq<Event>, e: Event, v: World, c: Cluster, loaded: string)
    requires InStep(c, ws, es, loaded) && Step(o, e, ws[|ws| - 1], v)
    requires e.Settle? && e.gen.Some? ==> e.gen.value.fingerprint == InService(es)
    ensures var l := ws[|ws| - 1].ledger;
            e.Settle? && e.gen.Some? ==> l.current.None? || l.current.value.fingerprint == ""
  {
    hide Tracked, Known, InService;
  }

  lemma ConsistentAtLast(o: Owner, w: World)
    requires Inv(o, w)
    ensures Consistent(w.cas)
  {
  }

  lemma SameLiveOn(o: Owner, e: Event, w: World, v: World, h: seq<Generation>)
    requires Consistent(w.cas) && Step(o, e, w, v)
    requires SameLive(w.cas, h, w.ledger.history) && SameLive(v.cas, w.ledger.history, v.ledger.history)
    ensures SameLive(v.cas, h, v.ledger.history)
  {
    hide Lists, Step, Gone;
    forall id | Lists(h, id) != Lists(v.ledger.history, id) ensures Gone(v.cas, id) {
      if Lists(h, id) != Lists(w.ledger.history, id) { GoneForGood(o, e, w, v, id); }
    }
  }

  lemma SameLiveItself(v: World)
    ensures SameLive(v.cas, v.ledger.history, v.ledger.history)
  {
  }

  /** What was read and becomes current was not in force before, unless it is what was in force last. */
  lemma NewEpoch(ws: seq<World>, es: seq<Event>, e: Event, v: World, c: Cluster, loaded: string)
    requires InStep(c, ws, es, loaded) && e.Settle? && e.gen.Some? && e.gen.value.fingerprint == loaded
    requires InService(es) != loaded
    ensures Epoch(ws + [v], es + [e])
  {
    InServiceNext(es, e);
    forall j | 0 <= j < |ws| ensures !Serves(ws[j].ledger, loaded) {
      assert Tracked(c, ws[j].ledger, loaded, InService(es));
    }
    SameLiveItself(v);
  }

  /** What a retention pass over an outdated copy overwrites is gone anyway. */
  lemma RewriteForfeitsNothing(w: World, e: Event)
    requires e.Rewrite? && SameLive(w.cas, e.copy.history, w.ledger.history)
    ensures Forfeited(w, e) == {}
  {
    forall id | id in w.mine && id in w.cas.certs && Named(w, id) ensures !GivesUp(w, e, id) {
      if Lists(w.ledger.history, id) { assert Lists(e.copy.history, id); }
    }
  }

  // ----- deletion -----

  /** What deletion rounds do, from copies no older than the world with index d. */
  predicate Winds(e: Event, d: nat) {
    || e.Elsewhere? || e.UploadCommit? || e.CloudDelete? || e.Cleanup? || e.Release?
    || (e.Settle? && e.gen.None? && e.drop == 0)
    || (e.StaleCleanup? && d <= e.at)
  }

  predicate Winding(es: seq<Event>, d: nat) {
    forall i :: d <= i < |es| ==> Winds(es[i], d)
  }

  predicate IsCurrent(l: Ledger, id: int) {
    l.current.Some? && l.current.value.certId == Some(id)
  }

  /** A ledger and a later one name the same certificates, but for those that are gone for good; and no
      record has been written since. */
  ghost predicate Akin(s: CasState, l: Ledger, m: Ledger) {
    && (forall id :: IsCurrent(l, id) != IsCurrent(m, id) ==> Gone(s, id))
    && SameLive(s, l.history, m.history)
    && (m.pending == l.pending || m.pending.None?)
  }

  lemma StepWindsDown(o: Owner, e: Event, w: World, v: World, d: nat)
    requires Inv(o, w) && Step(o, e, w, v) && Winds(e, d)
    requires e.StaleCleanup? ==> Sound(o, w.cas, e.copy) && Akin(w.cas, e.copy, w.ledger)
    ensures Akin(v.cas, w.ledger, v.ledger)
  {
    hide Lists, RestGone, Sole, External, TokensOk, Clears;
    match e {
      case Settle(gen, drop, probedAt) => assert w.ledger.history[..|w.ledger.history|] == w.ledger.history;
      case Cleanup(l) => ClearedSameLive(o, w.cas, w.ledger.history, l.history);
      case StaleCleanup(_, copy, l) =>
        if l.history != w.ledger.history { ClearedSameLive(o, w.cas, copy.history, l.history); }
      case _ =>
    }
  }

  lemma AkinOn(o: Owner, e: Event, w: World, v: World, l: Ledger)
    requires Consistent(w.cas) && Step(o, e, w, v) && Akin(w.cas, l, w.ledger) && Akin(v.cas, w.ledger, v.ledger)
    ensures Akin(v.cas, l, v.ledger)
  {
    hide Lists, Step, Gone, IsCurrent;
    SameLiveOn(o, e, w, v, l.history);
    forall id | IsCurrent(l, id) != IsCurrent(v.ledger, id) ensures Gone(v.cas, id) {
      if IsCurrent(l, id) != IsCurrent(w.ledger, id) { GoneForGood(o, e, w, v, id); }
    }
  }

  /** While only deletion is at work, all ledgers keep naming the same certificates. */
  lemma {:induction false} WindingKeepsLive(o: Owner, ws: seq<World>, es: seq<Event>, d: nat, j: nat, n: nat)
    requires Run(o, ws, es) && d <= j <= n < |ws| && Winding(es, d)
    ensures Akin(ws[n].cas, ws[j].ledger, ws[n].ledger)
    decreases n
  {
    if j < n {
      StepOf(o, ws, es, n - 1);
      var e, w := es[n - 1], ws[n - 1];
      assert Winds(e, d);
      RunInv(o, ws, es, n - 1);
      ConsistentAtLast(o, w);
      hide Run, Step, Inv, Sound, Akin, Winding;
      if e.StaleCleanup? {
        EarlierIsSound(o, ws, es, e.at, n - 1);
        WindingKeepsLive(o, ws, es, d, e.at, n - 1);
      }
      WindingKeepsLive(o, ws, es, d, j, n - 1);
      StepWindsDown(o, e, w, ws[n], d);
      AkinOn(o, e, w, ws[n], ws[j].ledger);
    }
  }

  /** What the copy recorded is gone from the cloud, and what it announced is no longer recorded. */
  ghost predicate Emptied(w: World, copy: Ledger) {
    (forall id :: Records(copy, id) ==> id !in w.cas.certs) && (copy.pending.Some? ==> w.ledger.pending.None?)
  }

  /** So a deletion round whose copy is from the time since deletion began gives up nothing with the
      finalizer, even if the copy had fallen behind: when what the copy records is gone, so is all the status
      records by then. */
  lemma EmptiedForfeitsNothing(o: Owner, ws: seq<World>, es: seq<Event>, d: nat, at: nat, e: Event)
    requires Run(o, ws, es) && d <= at < |ws| && Winding(es, d) && e.Release?
    requires Emptied(ws[|ws| - 1], ws[at].ledger)
    ensures Forfeited(ws[|ws| - 1], e) == {}
  {
    var w := ws[|ws| - 1];
    WindingKeepsLive(o, ws, es, d, at, |ws| - 1);
    var l := ws[at].ledger;
    hide Run, Winding;
    forall id | id in w.cas.certs ensures !Named(w, id) {
      assert !Records(l, id) && !Gone(w.cas, id);
    }
  }
}
