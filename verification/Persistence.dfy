/**
 What survives a crash of the controller: the stored status, the finalizer, the cloud and the
 cluster around them. Every call a round makes is a method here. It may fail before or after it
 took effect, it lets the surroundings move first, and it records the effect as an event of the run.
 */
module Persistence {
  import opened Wrappers
  import opened Json
  import opened Status
  import opened Naming
  import opened Cas
  import opened LedgerRuns
  import opened LedgerAccounts
  import opened Retention
  import opened Surroundings
  import opened Epochs

  /** What one call to the API server or the cloud meets on its way; lag is by how many versions the cache
      has fallen behind. */
  datatype ApiTurn = ApiTurn(moves: seq<Move>, fault: Fault, lag: nat)

  /** A Delete the retention policy issued: what was to go, the generation the round serves, the current
      one of the status, the cluster when it was sent, and whether the answer says that it is gone. */
  datatype Reclamation = Reclamation(
    gone: Generation, serving: Option<Generation>, recorded: Option<Generation>, cluster: Cluster, confirmed: bool)

  /** It did not hit the certificate in service, nor one a Binding of this certificate has applied. Where it
      hit the one the status still calls current, that is because the round has superseded it. */
  predicate Harmless(r: Reclamation) {
    && (r.serving.Some? ==> r.serving.value.certId != r.gone.certId)
    && (r.recorded.Some? && r.recorded.value.certId == r.gone.certId ==> r.recorded == Some(r.gone) && r.serving != r.recorded)
    && forall i :: 0 <= i < |r.cluster.bindings| && r.cluster.bindings[i].certificateRef == r.cluster.crName ==>
         r.cluster.bindings[i].appliedFingerprint != r.gone.fingerprint
  }

  /** No patch of a retention pass from an outdated copy has given anything up. */
  predicate RewritesForfeitNothing(ws: seq<World>, es: seq<Event>) {
    forall i :: 0 <= i < |es| && i < |ws| && es[i].Rewrite? ==> Forfeited(ws[i], es[i]) == {}
  }

  /** What is yet to move in the cluster. */
  function Coming(turns: seq<ApiTurn>): seq<Move> {
    if turns == [] then [] else turns[0].moves + Coming(turns[1..])
  }

  predicate Spared(turns: seq<ApiTurn>) {
    forall i :: 0 <= i < |turns| ==> turns[i].fault.Healthy?
  }

  lemma StaysOnCourse(passed: seq<Move>, turns: seq<ApiTurn>)
    ensures turns != [] ==> passed + Coming(turns) == (passed + turns[0].moves) + Coming(turns[1..])
    ensures passed + [] == passed
  {
  }

  lemma ExtendRun(o: Owner, ws: seq<World>, es: seq<Event>, e: Event, v: World)
    requires Run(o, ws, es) && Step(o, e, ws[|ws| - 1], v) && Remembers(ws, e, |es|)
    ensures Run(o, ws + [v], es + [e])
  {
    var ws', es' := ws + [v], es + [e];
    forall i | 0 <= i < |es'| ensures Step(o, es'[i], ws'[i], ws'[i + 1]) && Remembers(ws', es'[i], i) {
      if i < |es| { StepOf(o, ws, es, i); }
    }
  }

  lemma SoundIsInv(o: Owner, w: World, l: Ledger)
    requires Inv(o, w) && Sound(o, w.cas, l)
    ensures Inv(o, w.(ledger := l))
  {
  }

  lemma TidyBefore(es: seq<Event>, e: Event)
    requires Tidy(es + [e])
    ensures Tidy(es) && !e.StaleCleanup?
  {
    assert forall i :: 0 <= i < |es| ==> (es + [e])[i] == es[i];
    assert (es + [e])[|es|] == e;
  }

  lemma OneMoreRewrite(ws: seq<World>, es: seq<Event>, e: Event, v: World)
    requires |ws| == |es| + 1 && RewritesForfeitNothing(ws, es) && (e.Rewrite? ==> Forfeited(ws[|ws| - 1], e) == {})
    ensures RewritesForfeitNothing(ws + [v], es + [e])
  {
    hide Forfeited;
  }

  /** No finalizer went and gave something up, unless the clean-up was abandoned. */
  predicate ReleasesForfeitNothing(ws: seq<World>, es: seq<Event>) {
    forall i :: 0 <= i < |es| && i < |ws| && es[i] == Release(false) ==> Forfeited(ws[i], es[i]) == {}
  }

  lemma OneMoreRelease(ws: seq<World>, es: seq<Event>, e: Event, v: World)
    requires |ws| == |es| + 1 && ReleasesForfeitNothing(ws, es) && (e == Release(false) ==> Forfeited(ws[|ws| - 1], e) == {})
    ensures ReleasesForfeitNothing(ws + [v], es + [e])
  {
    hide Forfeited;
  }

  /** A reclaim of a generation with this id is on record. */
  predicate Claims(rs: seq<Reclamation>, id: int) {
    exists k :: 0 <= k < |rs| && rs[k].gone.certId == Some(id)
  }

  /** Every Delete that took effect came from a deletion round or is such a reclaim. */
  predicate Answered(es: seq<Event>, rs: seq<Reclamation>) {
    forall i :: 0 <= i < |es| && es[i].CloudDelete? && !es[i].swept ==> Claims(rs, es[i].id)
  }

  lemma OneMoreClaim(es: seq<Event>, rs: seq<Reclamation>, r: Reclamation)
    requires Answered(es, rs)
    ensures Answered(es, rs + [r]) && (r.gone.certId.Some? ==> Claims(rs + [r], r.gone.certId.value))
  {
    forall id | Claims(rs, id) ensures Claims(rs + [r], id) {
      var k :| 0 <= k < |rs| && rs[k].gone.certId == Some(id);
      assert (rs + [r])[k] == rs[k];
    }
    assert (rs + [r])[|rs|] == r;
  }

  lemma OneMoreKept(es: seq<Event>, e: Event)
    requires Kept(es) && !Deleting(e)
    ensures Kept(es + [e])
  {
  }

  /** A version says that the clean-up has begun only if it was written after a deletion round had. */
  predicate Dated(versions: seq<Json>, ages: seq<nat>, begun: Option<nat>) {
    && |versions| == |ages|
    && forall i :: 0 <= i < |versions| && Decode(versions[i]).cleanupStartedAt.Some? ==> begun.Some? && begun.value <= ages[i]
  }

  /** Every version is of some point of the run. */
  ghost predicate Archived(versions: seq<Json>, ages: seq<nat>, worlds: seq<World>) {
    && |versions| == |ages|
    && (forall i :: 0 <= i < |versions| ==> Canonical(versions[i]))
    && (forall i :: 0 <= i < |ages| ==> ages[i] < |worlds| && worlds[ages[i]].ledger == Decode(versions[i]).ledger)
  }

  lemma OneMoreVersion(versions: seq<Json>, ages: seq<nat>, worlds: seq<World>, begun: Option<nat>, d: Json)
    requires Archived(versions, ages, worlds) && Dated(versions, ages, begun) && Canonical(d)
    requires |worlds| > 0 && worlds[|worlds| - 1].ledger == Decode(d).ledger
    requires if begun.None? then Decode(d).cleanupStartedAt.None? else begun.value < |worlds|
    ensures Archived(versions + [d], ages + [|worlds| - 1], worlds) && Dated(versions + [d], ages + [|worlds| - 1], begun)
  {
    hide Decode, Canonical;
  }

  lemma OneMoreWinds(es: seq<Event>, d: nat, e: Event)
    requires Winding(es, d) && Winds(e, d)
    ensures Winding(es + [e], d)
  {
    hide Winds;
  }

  lemma RunLength(o: Owner, ws: seq<World>, es: seq<Event>)
    requires Run(o, ws, es)
    ensures |ws| == |es| + 1
  {
  }

  lemma ExtendChronology(es: seq<Event>, e: Event, start: int, clock: int)
    requires Chronological(es, start) && Latest(es, |es|, start) <= clock
    requires e.Settle? && e.gen.Some? ==> e.gen.value.uploadedAt == clock
    ensures Chronological(es + [e], start) && Latest(es + [e], |es| + 1, start) <= clock
  {
    var es' := es + [e];
    forall i: nat | i <= |es| ensures Latest(es', i, start) == Latest(es, i, start) { LatestOfPrefix(es, e, i, start); }
    forall i | 0 <= i < |es'| && es'[i].Settle? && es'[i].gen.Some?
      ensures Latest(es', i, start) <= es'[i].gen.value.uploadedAt
    {
      if i < |es| { assert es'[i] == es[i]; }
    }
  }

  lemma {:induction false} LatestOfPrefix(es: seq<Event>, e: Event, i: nat, start: int)
    requires i <= |es|
    ensures Latest(es + [e], i, start) == Latest(es, i, start)
  {
    if i > 0 { LatestOfPrefix(es, e, i - 1, start); }
  }

  lemma EmptyDocument()
    ensures Canonical(JObj(map[])) && Decode(JObj(map[])).ledger == Ledger(None, [], None, None)
    ensures Decode(JObj(map[])).cleanupStartedAt.None?
  {
    assert JObj(map[]).fields - TYPED_KEYS == map[];
  }

  /** Before anything has happened. */
  predicate Untouched(w: World) {
    w == World(Ledger(None, [], None, None), w.cas, {}, false)
  }

  lemma FirstRun(o: Owner, w: World)
    requires Consistent(w.cas) && w.cas.byToken == map[] && Untouched(w)
    ensures Run(o, [w], []) && Lost(w) == {} && Held(w.ledger) == []
  {
    hide Consistent;
  }

  lemma FirstInOrder(w: World, c: Cluster, start: int)
    requires Untouched(w) && c.seen == {c.served}
    ensures Aged(w.ledger, start) && Chronological([], start) && Latest([], 0, start) == start
    ensures InStep(c, [w], [], c.served) && Epoch([w], []) && RewritesForfeitNothing([w], [])
  {
    SameLiveItself(w);
    hide SameLive;
  }

  class Store {
    const owner: Owner
    const cas: CAS
    var doc: Json
    var versions: seq<Json>
    var finalizer: bool
    var cluster: Cluster
    var clock: int
    var turns: seq<ApiTurn>
    ghost const start: int
    ghost const origin: Cluster
    ghost var passed: seq<Move>
    ghost var ages: seq<nat>
    ghost var mine: set<int>
    ghost var worlds: seq<World>
    ghost var events: seq<Event>
    ghost var loaded: string
    ghost var reclaims: seq<Reclamation>
    ghost var listings: seq<Cluster>
    ghost var begun: Option<nat>
    ghost var reopened: bool
    ghost var sweeping: bool

    ghost function Recorded(): Ledger
      reads `doc
    {
      Decode(doc).ledger
    }

    ghost function Now(): World
      reads this, cas
    {
      World(Recorded(), cas.View(), mine, !finalizer)
    }

    /** What the API server ever held, and at what point of the run. */
    ghost predicate Versioned()
      reads `doc, `versions, `ages, `worlds
    {
      |versions| > 0 && versions[|versions| - 1] == doc && Archived(versions, ages, worlds)
    }

    /** The clock has not run backwards. */
    ghost predicate Punctual()
      reads `worlds, `events, `clock
    {
      && |worlds| > 0 && Aged(worlds[0].ledger, start)
      && Chronological(events, start) && Latest(events, |events|, start) <= clock
    }

    /** As long as no fingerprint has recurred, the ledgers are in step with the Secret, no reclaim has done
        harm, and no retention pass has lost anything, however old the copy it worked on. */
    ghost predicate InOrder()
      reads `cluster, `worlds, `events, `loaded, `reclaims
    {
      !cluster.recurred ==>
        && InStep(cluster, worlds, events, loaded)
        && (forall i :: 0 <= i < |reclaims| ==> Harmless(reclaims[i]))
        && (Tidy(events) ==> Epoch(worlds, events) && RewritesForfeitNothing(worlds, events))
    }

    /** Since a deletion round first ran, only deletion has been at work, unless maintenance was taken up
        again: then no finalizer that went without abandonment has given anything up. A version says that
        the clean-up has begun only if a deletion round wrote it. */
    ghost predicate Closing()
      reads `versions, `ages, `worlds, `events, `begun, `reopened
    {
      && Dated(versions, ages, begun)
      && (begun.Some? ==> begun.value < |worlds|) && (begun.None? ==> Kept(events))
      && (!reopened ==>
            && (begun.Some? ==> Winding(events, begun.value))
            && ReleasesForfeitNothing(worlds, events))
    }

    /** Maintenance may go on. */
    ghost predicate Active()
      reads `begun, `reopened
    {
      begun.None? || reopened
    }

    /** No certificate was deleted but by deletion rounds and under the retention policy. */
    ghost predicate Answerable()
      reads `events, `reclaims, `begun, `sweeping
    {
      (sweeping ==> begun.Some?) && Answered(events, reclaims)
    }

    /** The trace is a run that leads here. */
    ghost predicate Valid()
      reads this, cas
    {
      && cas.Valid() && cluster.crName == owner.crName && cluster == AllMoved(origin, passed)
      && |worlds| > 0 && worlds[|worlds| - 1] == Now() && Run(owner, worlds, events)
      && Versioned() && Punctual() && InOrder() && Closing() && Answerable()
    }

    /** No call to come fails, and nobody else edits the certificates. */
    predicate Undisturbed()
      reads `turns, cas
    {
      Spared(turns) && Calm(cas.turns)
    }

    /** The API server answers, and the process does not die in a call to the cloud, whatever that says. */
    predicate Alive()
      reads `turns, cas
    {
      Spared(turns) && forall i :: 0 <= i < |cas.turns| ==> Failed(cas.turns[i].fault) != Some(Crash)
    }

    twostate lemma StaysUndisturbed()
      requires turns == old(turns) && cas.turns == old(cas.Rest())
      ensures old(Undisturbed()) ==> Undisturbed()
      ensures old(Alive()) ==> Alive()
    {
    }

    lemma NoCrashComes()
      requires Alive()
      ensures Failed(cas.NextTurn().fault) != Some(Crash)
    {
    }

    /** How the cluster has moved and will move. */
    ghost function Course(): seq<Move>
      reads `passed, `turns
    {
      passed + Coming(turns)
    }

    /** What happened stays recorded, and the cluster moves as its turns say. */
    twostate predicate Since()
      reads this, cas
    {
      && (old(Undisturbed()) ==> Undisturbed()) && (old(Alive()) ==> Alive())
      && |old(passed)| <= |passed| && Course() == old(Course())
      && old(worlds) <= worlds && old(events) <= events && old(reclaims) <= reclaims && old(listings) <= listings
      && old(clock) <= clock && (old(cluster.recurred) ==> cluster.recurred)
    }

    /** No time is read in between. */
    twostate predicate Later()
      reads this, cas
    {
      Since() && clock == old(clock) && begun == old(begun) && reopened == old(reopened) && sweeping == old(sweeping)
    }

    lemma Reachable()
      requires Valid()
      ensures Inv(owner, Now()) && Canonical(doc)
    {
      hide Run, Inv, Step, Canonical, Decode, Punctual, InOrder, Consistent;
      assert Canonical(versions[|versions| - 1]);
      hide Versioned;
      RunInv(owner, worlds, events, |worlds| - 1);
    }

    /** A ledger of the past is sound to this day, and there has been a current generation ever since. */
    lemma Earlier(at: nat)
      requires Valid() && at < |worlds|
      ensures at <= |events| && Inv(owner, Now().(ledger := worlds[at].ledger))
      ensures worlds[at].ledger.current.Some? ==> Recorded().current.Some?
    {
      hide Inv, Step, Sound, Canonical, Decode, Punctual, InOrder, Closing, Answerable, Versioned, Consistent;
      assert |worlds| == |events| + 1;
      hide Run;
      EarlierIsSound(owner, worlds, events, at, |worlds| - 1);
      SoundIsInv(owner, worlds[|worlds| - 1], worlds[at].ledger);
      if worlds[at].ledger.current.Some? { CurrentStays(owner, worlds, events, at, |worlds| - 1); }
    }

    lemma EmptiedRelease(at: nat)
      requires Valid() && begun.Some? && begun.value <= at < |worlds| && Emptied(Now(), worlds[at].ledger)
      ensures !reopened ==> Forfeited(Now(), Release(false)) == {}
    {
      hide Run, Decode, Consistent, Punctual, InOrder, Versioned, Winding, ReleasesForfeitNothing, Emptied, Forfeited;
      if !reopened { EmptiedForfeitsNothing(owner, worlds, events, begun.value, at, Release(false)); }
    }

    lemma InStepSince(at: nat)
      requires Valid() && at < |worlds| && !cluster.recurred
      ensures cluster.crName == owner.crName && Known(cluster, loaded)
      ensures Tracked(cluster, worlds[at].ledger, loaded, InService(events))
      ensures Tracked(cluster, Recorded(), loaded, InService(events)) && InForce(Recorded(), InService(events))
    {
      hide Run, Inv, Step, Canonical, Decode, Punctual, Versioned, Consistent, Tracked, Known, InForce, InService;
      hide Epoch, Tidy;
      assert worlds[|worlds| - 1].ledger == Recorded();
    }

    constructor (owner: Owner, cas: CAS, turns: seq<ApiTurn>, served: string, bindings: seq<BindingView>, clock: int)
      requires cas.Valid() && cas.byToken == map[]
      ensures Valid() && this.owner == owner && this.cas == cas && this.turns == turns && this.clock == clock && finalizer
      ensures begun.None? && !reopened && !sweeping && doc == JObj(map[]) && events == [] && Lost(worlds[0]) == {} && Held(worlds[0].ledger) == []
      ensures cluster == origin == Cluster(owner.crName, bindings, served, {served}, false) && passed == []
    {
      this.owner, this.cas, this.turns, this.clock, start := owner, cas, turns, clock, clock;
      doc, finalizer, cluster := JObj(map[]), true, Cluster(owner.crName, bindings, served, {served}, false);
      origin, passed := Cluster(owner.crName, bindings, served, {served}, false), [];
      versions, ages := [JObj(map[])], [0];
      mine, events, loaded, reclaims, listings := {}, [], served, [], [];
      begun, reopened, sweeping := None, false, false;
      worlds := [World(Ledger(None, [], None, None), cas.View(), {}, false)];
      new;
      hide Valid, Lost, Held;
      StartsValid();
    }

    lemma StartsValid()
      requires cas.Valid() && cas.byToken == map[] && finalizer && start == clock
      requires doc == JObj(map[]) && versions == [doc] && ages == [0] && mine == {} && events == [] && reclaims == []
      requires begun.None? && !reopened && !sweeping
      requires cluster == origin == Cluster(owner.crName, cluster.bindings, loaded, {loaded}, false) && passed == []
      requires worlds == [World(Ledger(None, [], None, None), cas.View(), {}, false)]
      ensures Valid() && Lost(worlds[0]) == {} && Held(worlds[0].ledger) == []
    {
      hide Run, Inv, Canonical, Decode, InStep, Epoch, Tidy, Chronological, Aged, Latest, Lost, Consistent, Held;
      hide RewritesForfeitNothing, Harmless;
      EmptyDocument();
      FirstRun(owner, worlds[0]);
      FirstInOrder(worlds[0], cluster, clock);
    }

    /** An upload that is recorded is of what was read, at the time that was read; a copy is of the past, and
        a retention pass over one has found in it what it read. */
    ghost predicate Fits(e: Event)
      reads `worlds, `events, `loaded, `clock, `begun, `reopened, `sweeping, `reclaims
    {
      && Remembers(worlds, e, |events|)
      && (e.Settle? && e.gen.Some? ==> e.gen.value.fingerprint == loaded && e.gen.value.uploadedAt == clock)
      && (e.Rewrite? ==> Serves(e.copy, loaded))
      && (!Active() ==> Winds(e, begun.value)) && (begun.None? ==> !Deleting(e))
      && (e.CloudDelete? ==> if e.swept then sweeping else Claims(reclaims, e.id))
      && (!reopened && e == Release(false) ==> |worlds| > 0 && Forfeited(worlds[|worlds| - 1], e) == {})
    }

    /** Calls to the cloud always fit, but for a Delete that nothing asked for. */
    lemma CallFits(e: Event)
      requires Answerable() && (e.Elsewhere? || e.UploadCommit? || (e.CloudDelete? && e.swept == sweeping))
      requires e.CloudDelete? && !e.swept ==> Claims(reclaims, e.id)
      ensures Fits(e)
    {
      hide Answered;
    }

    ghost method Log(e: Event, v: World)
      requires |worlds| > 0 && Run(owner, worlds, events) && Punctual() && InOrder() && Closing() && Answerable()
      requires Step(owner, e, worlds[|worlds| - 1], v) && Fits(e)
      modifies this`worlds, this`events
      ensures worlds == old(worlds) + [v] && events == old(events) + [e]
      ensures Run(owner, worlds, events) && Punctual() && InOrder() && Closing() && Answerable()
      ensures old(Versioned()) ==> Versioned()
    {
      hide Run, Step, Claims, Kept, Winds, Winding, ReleasesForfeitNothing, Chronological, Aged, Latest, InStep, Epoch;
      hide Tidy;
      hide RewritesForfeitNothing, Canonical, Decode;
      ExtendRun(owner, worlds, events, e, v);
      ExtendChronology(events, e, start, clock);
      if begun.None? { OneMoreKept(events, e); }
      if !reopened {
        RunLength(owner, worlds, events);
        OneMoreRelease(worlds, events, e, v);
        if begun.Some? { OneMoreWinds(events, begun.value, e); }
      }
      if !cluster.recurred { StaysInOrder(e, v); }
      worlds, events := worlds + [v], events + [e];
    }

    lemma StaysInOrder(e: Event, v: World)
      requires |worlds| > 0 && Run(owner, worlds, events) && !cluster.recurred && InOrder()
      requires Step(owner, e, worlds[|worlds| - 1], v) && Fits(e)
      ensures InStep(cluster, worlds + [v], events + [e], loaded)
      ensures Tidy(events + [e]) ==> Epoch(worlds + [v], events + [e]) && RewritesForfeitNothing(worlds + [v], events + [e])
    {
      hide InStep, Epoch, Step, Run, Remembers, Tidy, RewritesForfeitNothing, Forfeited, Harmless, Claims, Winds;
      hide Deleting;
      hide Decode, Serves;
      StepKeepsInStep(owner, worlds, events, e, v, cluster, loaded);
      if Tidy(events + [e]) { StaysInEpoch(e, v); }
    }

    lemma StaysInEpoch(e: Event, v: World)
      requires |worlds| > 0 && Run(owner, worlds, events) && InStep(cluster, worlds, events, loaded)
      requires Tidy(events) ==> Epoch(worlds, events) && RewritesForfeitNothing(worlds, events)
      requires Step(owner, e, worlds[|worlds| - 1], v) && Fits(e) && Tidy(events + [e])
      ensures Epoch(worlds + [v], events + [e]) && RewritesForfeitNothing(worlds + [v], events + [e])
    {
      hide InStep, Epoch, Step, Run, Remembers, Tidy, RewritesForfeitNothing, Forfeited, Harmless, Claims, Winds;
      hide Deleting;
      hide Decode, Serves;
      TidyBefore(events, e);
      RunLength(owner, worlds, events);
      StepKeepsEpoch(owner, worlds, events, e, v, cluster, loaded);
      OneMoreRewrite(worlds, events, e, v);
    }

    /** What the next call meets. */
    function Due(): Fault
      reads `turns
    {
      if turns == [] then Healthy else turns[0].fault
    }

    /** The cluster the next call finds. */
    function Ahead(): Cluster
      reads this
    {
      AllMoved(cluster, if turns == [] then [] else turns[0].moves)
    }

    /** One move after the other. */
    method MoveOn(moves: seq<Move>)
      modifies this`cluster
      ensures cluster == AllMoved(old(cluster), moves)
    {
      hide Moved;
      ghost var c := cluster;
      var i := 0;
      while i < |moves|
        invariant 0 <= i <= |moves| && AllMoved(cluster, moves[i..]) == AllMoved(c, moves)
      {
        cluster := Moved(cluster, moves[i]);
        assert moves[i..][1..] == moves[i + 1..];
        i := i + 1;
      }
    }

    /** The surroundings move, then the call goes out. */
    method Elapse() returns (fault: Fault)
      requires Valid()
      modifies this`turns, this`cluster, this`passed
      ensures Valid() && Later() && (old(Undisturbed() || Alive()) ==> fault.Healthy?)
      ensures cluster == old(Ahead())
      ensures fault == old(Due())
    {
      hide Run, Canonical, Decode, Consistent, InStep, Epoch, Tidy, Harmless, Punctual, Versioned, Closing, Answerable;
      hide AllMoved, Course, RewritesForfeitNothing, Step, Inv, Tracked, Known, Recurs;
      var moves := if turns == [] then [] else turns[0].moves;
      fault := if turns == [] then Healthy else turns[0].fault;
      Drifts(moves);
      StaysOnCourse(passed, turns);
      CourseIs();
      MoveOn(moves);
      turns, passed := if turns == [] then [] else turns[1..], passed + moves;
      CourseIs();
    }

    /** What the surroundings do leaves the trace in order. */
    lemma Drifts(moves: seq<Move>)
      requires Valid()
      ensures AllMoved(cluster, moves) == AllMoved(origin, passed + moves) && AllMoved(cluster, moves).crName == owner.crName
      ensures cluster.recurred ==> AllMoved(cluster, moves).recurred
      ensures !AllMoved(cluster, moves).recurred ==> InStep(AllMoved(cluster, moves), worlds, events, loaded)
    {
      hide Run, Canonical, Decode, Consistent, InStep, Epoch, Tidy, Harmless, Punctual, Versioned, Closing, Answerable;
      hide AllMoved, RewritesForfeitNothing, Step, Inv, Tracked, Known, Recurs;
      RecurredSticks(cluster, moves);
      SameResources(cluster, moves);
      MovedOn(origin, passed, moves);
      if !AllMoved(cluster, moves).recurred { MovesKeepInStep(cluster, moves, worlds, events, loaded); }
    }

    lemma CourseIs()
      ensures Course() == passed + Coming(turns)
    {
    }

    /** Time passes between rounds. */
    method ReadClock(elapsed: nat) returns (now: int)
      requires Valid()
      modifies this`clock
      ensures Valid() && Since() && now == clock == old(clock) + elapsed
    {
      hide Run, Course, Undisturbed, Alive, AllMoved, Canonical, Decode, Consistent, InStep, Epoch, Tidy, Harmless;
      hide Chronological, Latest, Aged;
      clock := clock + elapsed;
      now := clock;
    }

    /** A deletion round starts. */
    ghost method BeginDeletion()
      requires Valid()
      modifies this`begun, this`sweeping
      ensures Valid() && Since() && begun.Some? && reopened == old(reopened) && sweeping
    {
      hide Run, Course, Undisturbed, Alive, AllMoved, Decode, Consistent, Punctual, InOrder, Versioned;
      RunLength(owner, worlds, events);
      if begun.None? { begun := Some(|worlds| - 1); }
      sweeping := true;
    }

    /** A maintenance round starts. */
    ghost method BeginMaintenance()
      requires Valid()
      modifies this`reopened, this`sweeping
      ensures Valid() && Since() && Active() && (reopened <==> old(reopened) || begun.Some?) && !sweeping
    {
      hide Run, Course, Undisturbed, Alive, AllMoved, Decode, Consistent, Punctual, InOrder, Versioned, Winding;
      hide ReleasesForfeitNothing;
      if begun.Some? { reopened := true; }
      sweeping := false;
    }

    /** A read from the cache: some version the API server once held. */
    method ReadCached() returns (s: Status, ghost at: nat, err: Option<Error>)
      requires Valid()
      modifies this`turns, this`cluster, this`passed
      ensures Valid() && Later()
      ensures WellFormed(s) && at < |worlds| && s.ledger == worlds[at].ledger
      ensures s.cleanupStartedAt.Some? ==> begun.Some? && begun.value <= at
      ensures old(turns) == [] || old(turns)[0].lag == 0 ==> s == Decode(doc)
      ensures old(Undisturbed() || Alive()) ==> err.None?
      ensures err == Failed(old(Due()))
      ensures var lag := old(if turns == [] then 0 else turns[0].lag);
              s == Decode(versions[if lag < |versions| then |versions| - 1 - lag else 0])
    {
      hide Run, Course, Undisturbed, Alive, AllMoved, Decode, Consistent, Chronological, Latest, Aged, InOrder, WellFormed;
      hide Encode;
      var lag := if turns == [] then 0 else turns[0].lag;
      var fault := Elapse();
      var i := if lag < |versions| then |versions| - 1 - lag else 0;
      assert Canonical(versions[i]) && worlds[ages[i]].ledger == Decode(versions[i]).ledger;
      s, at, err := Decode(versions[i]), ages[i], Failed(fault);
    }

    /** A direct read of the resource. */
    method ReadStatus() returns (s: Status, err: Option<Error>)
      requires Valid()
      modifies this`turns, this`cluster, this`passed
      ensures Valid() && Later()
      ensures err.None? ==> s == Decode(doc)
      ensures old(Undisturbed() || Alive()) ==> err.None?
      ensures err == Failed(old(Due()))
    {
      hide Valid, Course, Undisturbed, Alive, Decode, AllMoved;
      var fault := Elapse();
      s, err := Decode(doc), Failed(fault);
    }

    /** A merge patch against the baseline base, and the answer: what is stored then. */
    method Patch(base: Status, target: Status, ghost e: Event) returns (stored: Status, err: Option<Error>)
      requires Valid() && WellFormed(base) && WellFormed(target)
      requires Whole(Recorded(), base.ledger, target.ledger) && Fits(e)
      requires begun.None? ==> base.cleanupStartedAt.None? && target.cleanupStartedAt.None?
      requires Step(owner, e, Now(), Now().(ledger := MergedLedger(Recorded(), base.ledger, target.ledger)))
      modifies this
      ensures Valid() && Later()
      ensures mine == old(mine) && finalizer == old(finalizer) && loaded == old(loaded)
      ensures reclaims == old(reclaims) && listings == old(listings)
      ensures doc == old(doc) || Decode(doc) == Landed(old(doc), base, target)
      ensures err.None? ==> Decode(doc) == Landed(old(doc), base, target) && stored == Decode(doc) && WellFormed(stored)
      ensures err.None? && begun.None? ==> stored.cleanupStartedAt.None?
      ensures old(Undisturbed() || Alive()) ==> err.None?
      ensures err == Failed(old(Due()))
      ensures if old(Due()).FailFirst? then doc == old(doc) else Decode(doc) == Landed(old(doc), base, target)
    {
      hide Valid, Course, Undisturbed, Alive, Step, Decode, MergePatch, Diff, Encode, WellFormed, Whole, Fits, MergedLedger;
      hide Inv;
      var fault := Elapse();
      stored := base;
      if fault.FailFirst? { return stored, Some(fault.e); }
      MergeIn(base, target, e);
      return Decode(doc), Failed(fault);
    }

    /** The patch is merged into what is stored. */
    method MergeIn(base: Status, target: Status, ghost e: Event)
      requires Valid() && WellFormed(base) && WellFormed(target)
      requires Whole(Recorded(), base.ledger, target.ledger) && Fits(e)
      requires begun.None? ==> base.cleanupStartedAt.None? && target.cleanupStartedAt.None?
      requires Step(owner, e, Now(), Now().(ledger := MergedLedger(Recorded(), base.ledger, target.ledger)))
      modifies this`doc, this`versions, this`ages, this`worlds, this`events
      ensures Valid() && Later() && Decode(doc) == Landed(old(doc), base, target) && WellFormed(Decode(doc))
      ensures begun.None? ==> Decode(doc).cleanupStartedAt.None?
    {
      hide Valid, Course, Undisturbed, Alive, Step, Decode, MergePatch, Diff, Encode, WellFormed, Whole, Fits, MergedLedger;
      hide Inv;
      Reachable();
      NotBegun();
      PatchFromAnyCopy(doc, base, target);
      PutDocument(MergePatch(doc, Diff(Encode(base), Encode(target))), e);
      StoredIsWellFormed();
    }

    lemma NotBegun()
      requires Valid()
      ensures begun.None? ==> Decode(doc).cleanupStartedAt.None?
    {
      hide Run, Course, AllMoved, Decode, Canonical, Consistent, Punctual, InOrder;
      assert versions[|versions| - 1] == doc;
    }

    lemma StoredIsWellFormed()
      requires Canonical(doc)
      ensures WellFormed(Decode(doc))
    {
    }

    /** The API server stores a new version. */
    method PutDocument(d: Json, ghost e: Event)
      requires Valid() && Canonical(d) && Fits(e) && (begun.None? ==> Decode(d).cleanupStartedAt.None?)
      requires Step(owner, e, Now(), Now().(ledger := Decode(d).ledger))
      modifies this`doc, this`versions, this`ages, this`worlds, this`events
      ensures Valid() && Later() && doc == d && Canonical(doc)
    {
      hide Run, Course, Undisturbed, Alive, AllMoved, Step, Decode, Canonical, Punctual, InOrder, Answerable, Fits;
      hide Winding, Kept, ReleasesForfeitNothing, Consistent, Dated, Archived, CAS.Valid;
      Log(e, Now().(ledger := Decode(d).ledger));
      OneMoreVersion(versions, ages, worlds, begun, d);
      doc, versions, ages := d, versions + [d], ages + [|worlds| - 1];
    }

    /** The material in the serving Secret, read directly; the round goes on with what it read. */
    method ReadSecret() returns (fingerprint: string, err: Option<Error>)
      requires Valid()
      modifies this`turns, this`cluster, this`passed, this`loaded
      ensures Valid() && Later()
      ensures fingerprint == loaded == cluster.served
      ensures old(Undisturbed() || Alive()) ==> err.None?
      ensures err == Failed(old(Due()))
    {
      hide Run, Course, Undisturbed, Alive, AllMoved, Canonical, Decode, InStep, Epoch, Tidy, Harmless, Punctual, Versioned;
      hide Closing, Answerable;
      hide RewritesForfeitNothing;
      var fault := Elapse();
      fingerprint, err := cluster.served, Failed(fault);
      if !cluster.recurred { ReadingKeepsInStep(cluster, worlds, events, loaded); }
      loaded := cluster.served;
    }

    /** A direct read of the Bindings of this certificate. */
    method ListBindings() returns (bindings: seq<BindingView>, err: Option<Error>)
      requires Valid()
      modifies this`turns, this`cluster, this`passed, this`listings
      ensures Valid() && Later() && cluster == old(Ahead()) && listings == old(listings) + [cluster]
      ensures err.None? ==> bindings == Referencing(cluster.bindings, owner.crName)
      ensures old(Undisturbed() || Alive()) ==> err.None?
      ensures err == Failed(old(Due()))
    {
      hide Run, Course, Undisturbed, Alive, AllMoved, Canonical, Decode, InStep, Epoch, Tidy, Harmless, Punctual, Versioned;
      hide Closing, Answerable;
      hide RewritesForfeitNothing;
      var fault := Elapse();
      listings := listings + [cluster];
      bindings, err := [], Failed(fault);
      if err.None? { bindings := FilterReferencing(cluster.bindings, owner.crName); }
    }

    /** Others edit the store before our call arrives. */
    ghost method LogElsewhere(before: World)
      requires Run(owner, worlds, events) && |worlds| > 0 && worlds[|worlds| - 1] == before
      requires Punctual() && InOrder() && Closing() && Answerable()
      requires Consistent(before.cas) && Consistent(cas.View()) && External(before.cas, cas.View())
      requires Now() == before.(cas := cas.View())
      modifies this`worlds, this`events
      ensures worlds == old(worlds) + [Now()] && events == old(events) + [Elsewhere]
      ensures Run(owner, worlds, events) && Punctual() && InOrder() && Closing() && Answerable()
      ensures old(Versioned()) ==> Versioned()
    {
      hide Run, Punctual, InOrder, Closing, Answerable, Versioned, Consistent, External, Fits;
      CallFits(Elsewhere);
      Log(Elsewhere, Now());
    }

    method FindUploaded(hint: string, now: int) returns (list: seq<Summary>, err: Option<Error>)
      requires Valid()
      modifies this`turns, this`cluster, this`passed, this`worlds, this`events, cas
      ensures Valid() && Later()
      ensures cas.View() == old(cas.Reached()) && cas.turns == old(cas.Rest()) && err == Failed(old(cas.NextTurn()).fault)
      ensures err.None? ==> IsListing(cas.View(), hint, now, list)
      ensures old(Undisturbed()) ==> err.None? && cas.View() == old(cas.View())
      ensures old(Alive()) ==> err != Some(Crash)
    {
      hide Valid, Course, Undisturbed, Alive, Decode, AllEdited, IsListing;
      var _ := Elapse();
      list, err := SendFind(hint, now);
    }

    method SendFind(hint: string, now: int) returns (list: seq<Summary>, err: Option<Error>)
      requires Valid()
      modifies this`worlds, this`events, cas
      ensures Valid() && Later()
      ensures cas.View() == old(cas.Reached()) && cas.turns == old(cas.Rest()) && err == Failed(old(cas.NextTurn()).fault)
      ensures err.None? ==> IsListing(cas.View(), hint, now, list)
      ensures old(Undisturbed()) ==> err.None? && cas.View() == old(cas.View())
      ensures old(Alive()) ==> err != Some(Crash)
    {
      hide Run, Course, Undisturbed, Alive, AllMoved, Decode, Step, Consistent, External, AllEdited, Punctual, InOrder;
      hide Closing, Answerable, Versioned, IsListing;
      ghost var before := Now();
      AllEditsExternal(cas.View(), cas.NextTurn().edits);
      if Undisturbed() { NothingComes(); }
      if Alive() { NoCrashComes(); }
      list, err := cas.FindUploaded(hint, now);
      StaysUndisturbed();
      LogElsewhere(before);
    }

    lemma NothingComes()
      requires Undisturbed()
      ensures cas.Reached() == cas.View() && cas.NextTurn().fault.Healthy?
    {
      CalmReaches(cas.View(), cas.turns);
    }

    /** Nothing but that the certificate is gone, or is not there, can be the answer. */
    lemma DeleteAnswers(id: int)
      ensures Undisturbed() ==> Confirms(Deleted(cas.Reached(), cas.NextTurn(), id).1)
      ensures Alive() ==> Deleted(cas.Reached(), cas.NextTurn(), id).1 != Some(Crash)
    {
      hide AllEdited, Edited;
    }

    /** Others edit the store, then our call takes effect. */
    ghost method LogCall(before: World, reached: CasState, e: Event)
      requires Run(owner, worlds, events) && |worlds| > 0 && worlds[|worlds| - 1] == before
      requires Punctual() && InOrder() && Closing() && Answerable()
      requires Consistent(before.cas) && Consistent(reached) && External(before.cas, reached)
      requires Step(owner, e, before.(cas := reached), Now()) && (e.UploadCommit? || e.CloudDelete?) && Fits(e)
      modifies this`worlds, this`events
      ensures worlds == old(worlds) + [before.(cas := reached), Now()] && events == old(events) + [Elsewhere, e]
      ensures Run(owner, worlds, events) && Punctual() && InOrder() && Closing() && Answerable()
      ensures old(Versioned()) ==> Versioned()
    {
      hide Run, Punctual, InOrder, Closing, Answerable, Versioned, Consistent, External;
      Log(Elsewhere, before.(cas := reached));
      hide Step;
      Log(e, Now());
      assert worlds == old(worlds) + [before.(cas := reached), Now()];
      assert events == old(events) + [Elsewhere, e];
    }

    /** The upload the write-ahead record announces. */
    method Upload(cert: Cert) returns (id: int, err: Option<Error>)
      requires Valid() && finalizer
      requires Recorded().pending.Some?
      requires cert.name == Recorded().pending.value.casName && cert.token == Recorded().pending.value.clientToken
      modifies this`turns, this`cluster, this`passed, this`worlds, this`events, this`mine, cas
      ensures Valid() && Later()
      ensures cas.turns == old(cas.Rest())
      ensures (cas.View(), id, err) == Uploaded(old(cas.Reached()), old(cas.NextTurn()), cert)
    {
      hide Valid, Course, Undisturbed, Alive, Decode, Uploaded, AllEdited;
      var _ := Elapse();
      id, err := SendCert(cert);
    }

    method SendCert(cert: Cert) returns (id: int, err: Option<Error>)
      requires Valid() && finalizer
      requires Recorded().pending.Some?
      requires cert.name == Recorded().pending.value.casName && cert.token == Recorded().pending.value.clientToken
      modifies this`worlds, this`events, this`mine, cas
      ensures Valid() && Later()
      ensures cas.turns == old(cas.Rest())
      ensures (cas.View(), id, err) == Uploaded(old(cas.Reached()), old(cas.NextTurn()), cert)
    {
      hide Run, Course, Undisturbed, Alive, AllMoved, Decode, Step, Consistent, External, AllEdited, Committed, NameTaken;
      hide Punctual, InOrder, Closing, Answerable, Versioned, Fits;
      ghost var before := Now();
      ghost var reached := cas.Reached();
      AllEditsExternal(cas.View(), cas.NextTurn().edits);
      UploadCommits(reached, cas.NextTurn(), cert);
      hide Uploaded;
      id, err := cas.Upload(cert);
      StaysUndisturbed();
      if cas.View() == reached {
        LogElsewhere(before);
      } else {
        mine := mine + {reached.nextID + 1};
        CommitIsStep(before.(cas := reached), Now(), cert);
        CallFits(UploadCommit(cert));
        LogCall(before, reached, UploadCommit(cert));
      }
    }

    lemma UploadCommits(s: CasState, t: Turn, cert: Cert)
      ensures var after := Uploaded(s, t, cert).0; after == s || (after == Committed(s, cert) && !NameTaken(s.certs, cert.name))
    {
    }

    lemma CommitIsStep(w: World, v: World, cert: Cert)
      requires !w.released && w.ledger.pending.Some?
      requires cert.name == w.ledger.pending.value.casName && cert.token == w.ledger.pending.value.clientToken
      requires !NameTaken(w.cas.certs, cert.name)
      requires v == w.(cas := Committed(w.cas, cert), mine := w.mine + {w.cas.nextID + 1})
      ensures Step(owner, UploadCommit(cert), w, v)
    {
    }

    method SendDelete(id: int) returns (err: Option<Error>)
      requires Valid() && (sweeping || Claims(reclaims, id))
      modifies this`worlds, this`events, cas
      ensures Valid() && Later()
      ensures cas.turns == old(cas.Rest())
      ensures (cas.View(), err) == Deleted(old(cas.Reached()), old(cas.NextTurn()), id)
    {
      hide Run, Course, Undisturbed, Alive, AllMoved, Decode, Step, Consistent, External, AllEdited, Edited, Punctual, InOrder;
      hide Closing;
      hide Answerable, Versioned, Fits;
      ghost var before := Now();
      ghost var reached := cas.Reached();
      AllEditsExternal(cas.View(), cas.NextTurn().edits);
      err := cas.Delete(id);
      StaysUndisturbed();
      if cas.View() == reached {
        LogElsewhere(before);
      } else {
        DropIsStep(before.(cas := reached), Now(), id, sweeping);
        CallFits(CloudDelete(id, sweeping));
        LogCall(before, reached, CloudDelete(id, sweeping));
      }
    }

    lemma DropIsStep(w: World, v: World, id: int, swept: bool)
      requires v == w.(cas := Edited(w.cas, Drop(id)))
      ensures Step(owner, CloudDelete(id, swept), w, v)
    {
    }

    /** A Delete in a deletion round. */
    method Delete(id: int) returns (err: Option<Error>)
      requires Valid() && sweeping
      modifies this`turns, this`cluster, this`passed, this`worlds, this`events, cas
      ensures Valid() && Later()
      ensures cas.turns == old(cas.Rest())
      ensures (cas.View(), err) == Deleted(old(cas.Reached()), old(cas.NextTurn()), id)
    {
      hide Valid, Course, Undisturbed, Alive, Decode, Deleted, AllEdited;
      var _ := Elapse();
      err := SendDelete(id);
    }

    /** A Delete under the retention policy, in a round that is about to record gen, if it has one: only for
        a generation that is retired, if fingerprints have not recurred, and that is still so when the call
        goes out. The certificate the status calls current is hit only if gen supersedes it. */
    method Reclaim(gone: Generation, ghost gen: Option<Generation>) returns (err: Option<Error>)
      requires Valid() && gone.certId.Some?
      requires gen.Some? ==> SettleOk(owner, Now(), gen, 0) && gen.value.fingerprint == loaded
      requires !cluster.recurred ==>
                 && Retired(cluster, gone.fingerprint) && Distinct(gone, gen)
                 && (Recorded().current.Some? && Recorded().current.value.certId == gone.certId ==>
                       gen.Some? && Recorded().current == Some(gone))
      modifies this`turns, this`cluster, this`passed, this`worlds, this`events, this`reclaims, cas
      ensures Valid() && Later()
      ensures |reclaims| == |old(reclaims)| + 1
      ensures reclaims[|old(reclaims)|] == Reclamation(gone, if gen.Some? then gen else Recorded().current,
                                                       Recorded().current, cluster, Confirms(err))
      ensures cluster.recurred || (forall fp :: Retired(old(cluster), fp) ==> Retired(cluster, fp))
      ensures cas.turns == old(cas.Rest())
      ensures (cas.View(), err) == Deleted(old(cas.Reached()), old(cas.NextTurn()), gone.certId.value)
    {
      hide Run, Course, Undisturbed, Alive, AllMoved, Decode, Consistent, InStep, Epoch, Tidy, Punctual, Versioned, Closing;
      hide SettleOk;
      hide Answered, Claims, RewritesForfeitNothing, Deleted;
      ghost var c := cluster;
      ghost var moves := if turns == [] then [] else turns[0].moves;
      var _ := Elapse();
      if !cluster.recurred {
        forall fp | Retired(c, fp) ensures Retired(cluster, fp) { MovesKeepRetired(c, moves, fp); }
      }
      ghost var serving := if gen.Some? then gen else Recorded().current;
      ghost var answer := Deleted(cas.Reached(), cas.NextTurn(), gone.certId.value).1;
      reclaims := reclaims + [Reclamation(gone, serving, Recorded().current, cluster, Confirms(answer))];
      OneMoreClaim(events, reclaims[..|reclaims| - 1], reclaims[|reclaims| - 1]);
      err := SendDelete(gone.certId.value);
    }

    /** The finalizer goes; abandoned says that the clean-up was given up. */
    method RemoveFinalizer(ghost abandoned: bool) returns (err: Option<Error>)
      requires Valid() && finalizer && begun.Some?
      requires !abandoned && !reopened ==> Forfeited(Now(), Release(false)) == {}
      modifies this`turns, this`cluster, this`passed, this`worlds, this`events, this`finalizer
      ensures Valid() && Later()
      ensures finalizer ==> err.Some?
      ensures !finalizer ==> events == old(events) + [Release(abandoned)]
      ensures old(Undisturbed() || Alive()) ==> !finalizer
      ensures err == Failed(old(Due())) && finalizer == old(Due()).FailFirst?
    {
      hide Run, Course, Undisturbed, Alive, AllMoved, Decode, Punctual, InOrder, Closing, Answerable, Versioned;
      var fault := Elapse();
      if fault.FailFirst? { return Some(fault.e); }
      finalizer := false;
      Log(Release(abandoned), Now());
      return Failed(fault);
    }
  }

  /** Whether an answer says that the certificate is gone. */
  predicate Confirms(err: Option<Error>) {
    err.None? || ClassOf(err.value) == NotFound
  }

  predicate Distinct(gone: Generation, gen: Option<Generation>) {
    gen.Some? ==> gen.value.certId != gone.certId && gen != Some(gone)
  }
}
