/**
 The generation ledger as a state machine over its effects. A round of the certificate controller
 is a sequence of these effects and may stop after any of them (a crash, a lost response, a failed
 call); the properties below therefore hold at every point of every run.
 */
module LedgerRuns {
  import opened Wrappers
  import opened Status
  import opened Cas
  import opened Naming

  /** Which AliyunCertificate the ledger belongs to. */
  datatype Owner = Owner(uid: string, crName: string)

  /** What survives a crash: the persisted ledger and the cloud. mine are the ids under which uploads
      of this resource committed; released is set once the finalizer is gone. */
  datatype World = World(ledger: Ledger, cas: CasState, mine: set<int>, released: bool)

  /** swept says that a deletion round sent the Delete. Rewrite and StaleCleanup are patches computed from a
      copy that has fallen behind, namely the ledger of the world with index at: the first by a retention
      pass, the second by a deletion round. */
  datatype Event =
    | Elsewhere
    | WriteAhead(record: PendingUpload)
    | UploadCommit(cert: Cert)
    | Settle(gen: Option<Generation>, drop: nat, probedAt: Option<int>)
    | ProbeErase(probedAt: Option<int>)
    | CloudDelete(id: int, swept: bool)
    | Cleanup(cleaned: Ledger)
    | Rewrite(at: nat, copy: Ledger, keep: nat, probedAt: Option<int>)
    | StaleCleanup(at: nat, copy: Ledger, cleaned: Ledger)
    | Release(abandoned: bool)

  predicate FromCopy(e: Event) {
    e.Rewrite? || e.StaleCleanup?
  }

  // ----- the ledger a settling patch writes -----

  /** The generations a ledger holds, newest first; the blank left by the probe is none of them. */
  function Held(l: Ledger): seq<Generation> {
    (if l.current.Some? && l.current.value.fingerprint != "" then [l.current.value] else []) + l.history
  }

  function Advanced(l: Ledger, gen: Option<Generation>): Ledger {
    if gen.None? then l
    else l.(current := gen, history := Held(l),
            pending := if gen.value.certId.Some? then None else l.pending)
  }

  function Settled(l: Ledger, gen: Option<Generation>, drop: nat, probedAt: Option<int>): Ledger
    requires drop <= |Advanced(l, gen).history|
  {
    var a := Advanced(l, gen);
    a.(history := a.history[..|a.history| - drop], casProbedAt := probedAt)
  }

  // ----- what a ledger names -----

  predicate Lists(h: seq<Generation>, id: int) {
    exists i :: 0 <= i < |h| && h[i].certId == Some(id)
  }

  predicate Records(l: Ledger, id: int) {
    (l.current.Some? && l.current.value.certId == Some(id)) || Lists(l.history, id)
  }

  predicate Announces(l: Ledger, name: string) {
    l.pending.Some? && l.pending.value.casName == name
  }

  predicate Named(w: World, id: int)
    requires id in w.cas.certs
  {
    !w.released && (Records(w.ledger, id) || Announces(w.ledger, w.cas.certs[id].name))
  }

  /** Certificates of this resource that are in the cloud and that the status no longer leads to. */
  function Lost(w: World): set<int> {
    set id | id in w.mine && id in w.cas.certs && !Named(w, id)
  }

  // ----- steps -----

  predicate PendingOk(o: Owner, p: PendingUpload) {
    && |p.fingerprint| == FINGERPRINT_LEN
    && p.casName == CASName(o.crName, p.fingerprint)
    && p.clientToken == UploadToken(o.uid, p.fingerprint, p.startedAt)
  }

  predicate RecordOk(o: Owner, s: CasState, g: Generation) {
    g.certId.Some? ==>
      && g.fingerprint != ""
      && g.casName == CASName(o.crName, g.fingerprint)
      && g.certId.value in s.issued
      && s.issued[g.certId.value] == g.casName
  }

  /** No other certificate of ours carries the name. */
  predicate Sole(w: World, name: string, id: int) {
    forall j :: j in w.mine && j in w.cas.certs && w.cas.certs[j].name == name ==> j == id
  }

  predicate SettleOk(o: Owner, w: World, gen: Option<Generation>, drop: nat) {
    && drop <= |Advanced(w.ledger, gen).history|
    && (gen.Some? ==>
          var g := gen.value;
          && g.fingerprint != ""
          && (w.ledger.current.Some? ==> w.ledger.current.value.fingerprint != g.fingerprint)
          && RecordOk(o, w.cas, g)
          && (g.certId.Some? ==>
                && w.ledger.pending.Some? && w.ledger.pending.value.fingerprint == g.fingerprint
                && w.ledger.pending.value.casName == g.casName
                && Sole(w, g.casName, g.certId.value)))
    && (var h := Advanced(w.ledger, gen).history;
        forall i :: |h| - drop <= i < |h| && h[i].certId.Some? ==> h[i].certId.value !in w.cas.certs)
  }

  /** The certificates of all but the first keep entries are gone from the cloud. */
  predicate RestGone(s: CasState, h: seq<Generation>, keep: nat) {
    forall i :: keep <= i < |h| && h[i].certId.Some? ==> h[i].certId.value !in s.certs
  }

  predicate Clears(s: CasState, h: seq<Generation>, k: seq<Generation>) {
    |k| == |h| && forall i :: 0 <= i < |h| ==> ClearedOrKept(s, h[i], k[i])
  }

  /** Deletion clears ids that are gone from the cloud, and possibly the write-ahead record. */
  predicate Cleaned(w: World, l: Ledger) {
    && (l.pending == w.ledger.pending || l.pending.None?)
    && l.casProbedAt == w.ledger.casProbedAt
    && Clears(w.cas, w.ledger.history, l.history)
    && (w.ledger.current.Some? <==> l.current.Some?)
    && (l.current.Some? ==> ClearedOrKept(w.cas, w.ledger.current.value, l.current.value))
  }

  /** What deletion writes from a copy that has fallen behind: the copy's history, cleared, replaces the
      one there is, and the id of whatever is current goes if the copy's did. */
  predicate CleanedFrom(w: World, copy: Ledger, l: Ledger) {
    && (l.pending == w.ledger.pending || l.pending.None?)
    && l.casProbedAt == w.ledger.casProbedAt
    && (l.history == w.ledger.history || Clears(w.cas, copy.history, l.history))
    && (w.ledger.current.Some? <==> l.current.Some?)
    && (l.current.Some? ==> l.current == w.ledger.current ||
                            (GoneId(w.cas, copy.current) && l.current.value == w.ledger.current.value.(certId := None)))
  }

  predicate GoneId(s: CasState, g: Option<Generation>) {
    g.Some? && g.value.certId.Some? && g.value.certId.value !in s.certs
  }

  predicate ClearedOrKept(s: CasState, g: Generation, h: Generation) {
    h == g || (h == g.(certId := None) && (g.certId.Some? ==> g.certId.value !in s.certs))
  }

  predicate NoIds(h: seq<Generation>) {
    forall i :: 0 <= i < |h| ==> h[i].certId.None?
  }

  predicate NothingRecorded(l: Ledger) {
    l.pending.None? && (l.current.Some? ==> l.current.value.certId.None?) && NoIds(l.history)
  }

  ghost predicate Step(o: Owner, e: Event, w: World, v: World) {
    (!e.Elsewhere? && !e.CloudDelete? ==> !w.released) &&
    match e
    case Elsewhere =>
      Consistent(v.cas) && External(w.cas, v.cas) && v == w.(cas := v.cas)
    case WriteAhead(p) =>
      && PendingOk(o, p)
      && (w.ledger.pending.Some? ==> w.ledger.pending.value.fingerprint != p.fingerprint)
      && v == w.(ledger := w.ledger.(pending := Some(p)))
    case UploadCommit(cert) =>
      && w.ledger.pending.Some?
      && cert.name == w.ledger.pending.value.casName && cert.token == w.ledger.pending.value.clientToken
      && !NameTaken(w.cas.certs, cert.name)
      && v == w.(cas := Committed(w.cas, cert), mine := w.mine + {w.cas.nextID + 1})
    case Settle(gen, drop, probedAt) =>
      && SettleOk(o, w, gen, drop)
      && v == w.(ledger := Settled(w.ledger, gen, drop, probedAt))
    case ProbeErase(probedAt) =>
      && w.ledger.current.Some?
      && v == w.(ledger := w.ledger.(current := Some(Blanked(w.ledger.current.value)), casProbedAt := probedAt))
    case CloudDelete(id, _) =>
      v == w.(cas := Edited(w.cas, Drop(id)))
    case Cleanup(l) =>
      Cleaned(w, l) && v == w.(ledger := l)
    case Rewrite(_, copy, keep, probedAt) =>
      && keep <= |copy.history| && RestGone(w.cas, copy.history, keep)
      && v == w.(ledger := w.ledger.(history := copy.history[..keep], casProbedAt := probedAt))
    case StaleCleanup(_, copy, l) =>
      CleanedFrom(w, copy, l) && v == w.(ledger := l)
    case Release(_) =>
      v == w.(released := true)
  }

  // ----- invariant -----

  ghost predicate OurToken(o: Owner, token: string, name: string) {
    exists f, t :: |f| == FINGERPRINT_LEN && token == UploadToken(o.uid, f, t) && name == CASName(o.crName, f)
  }

  ghost predicate TokensOk(o: Owner, s: CasState) {
    forall t :: t in s.byToken ==> s.byToken[t] in s.certs && OurToken(o, t, s.certs[s.byToken[t]].name)
  }

  /** Ids, names and the record belong together and were issued by this cloud. */
  predicate Sound(o: Owner, s: CasState, l: Ledger) {
    && (l.current.Some? ==> RecordOk(o, s, l.current.value))
    && (forall i :: 0 <= i < |l.history| ==> RecordOk(o, s, l.history[i]) && l.history[i].fingerprint != "")
    && (l.pending.Some? ==> PendingOk(o, l.pending.value))
  }

  ghost predicate Inv(o: Owner, w: World) {
    Consistent(w.cas) && TokensOk(o, w.cas) && Sound(o, w.cas, w.ledger) && w.mine <= w.cas.issued.Keys
  }

  lemma StepKeepsInv(o: Owner, e: Event, w: World, v: World)
    requires Inv(o, w) && Step(o, e, w, v) && (FromCopy(e) ==> Sound(o, w.cas, e.copy))
    ensures Inv(o, v)
  {
    hide RestGone, External, Sole;
    match e {
      case Elsewhere => ElsewhereKeepsInv(o, w, v);
      case WriteAhead(p) =>
      case UploadCommit(cert) => CommitKeepsInv(o, cert, w, v);
      case Settle(gen, drop, probedAt) => SettleKeepsInv(o, gen, drop, probedAt, w, v);
      case ProbeErase(probedAt) =>
      case CloudDelete(id, _) => EditIsExternal(w.cas, Drop(id));
      case Cleanup(l) => ClearedIsSound(o, w.cas, w.ledger.history, l.history);
      case Rewrite(_, copy, keep, probedAt) =>
      case StaleCleanup(_, copy, l) => if l.history != w.ledger.history { ClearedIsSound(o, w.cas, copy.history, l.history); }
      case Release(_) =>
    }
  }

  /** Whatever a step does to the cloud, what was once recorded keeps its sense. */
  lemma StepKeepsSound(o: Owner, e: Event, w: World, v: World, l: Ledger)
    requires Consistent(w.cas) && Step(o, e, w, v) && Sound(o, w.cas, l)
    ensures Sound(o, v.cas, l)
  {
    IssuedStays(o, e, w, v);
    hide Step;
    forall g: Generation | RecordOk(o, w.cas, g) ensures RecordOk(o, v.cas, g) {
      if g.certId.Some? {
        var id := g.certId.value;
        assert id in w.cas.issued;
        assert id in v.cas.issued && v.cas.issued[id] == w.cas.issued[id];
      }
    }
  }

  lemma IssuedStays(o: Owner, e: Event, w: World, v: World)
    requires Consistent(w.cas) && Step(o, e, w, v)
    ensures forall id :: id in w.cas.issued ==> id in v.cas.issued && v.cas.issued[id] == w.cas.issued[id]
  {
    forall id | id in w.cas.issued ensures id in v.cas.issued && v.cas.issued[id] == w.cas.issued[id] {
      assert id in w.cas.issued.Keys && id <= w.cas.nextID;
    }
  }

  lemma RecordSurvives(o: Owner, s: CasState, t: CasState, g: Generation)
    requires RecordOk(o, s, g) && External(s, t)
    ensures RecordOk(o, t, g)
  {
    if g.certId.Some? {
      var id := g.certId.value;
      assert id in s.issued.Keys && t.issued[id] == s.issued[id];
    }
  }

  lemma ElsewhereKeepsInv(o: Owner, w: World, v: World)
    requires Inv(o, w) && Step(o, Elsewhere, w, v)
    ensures Inv(o, v)
  {
    forall g: Generation | RecordOk(o, w.cas, g) ensures RecordOk(o, v.cas, g) {
      RecordSurvives(o, w.cas, v.cas, g);
    }
  }

  lemma CommitKeepsInv(o: Owner, cert: Cert, w: World, v: World)
    requires Inv(o, w) && Step(o, UploadCommit(cert), w, v)
    ensures Inv(o, v)
  {
    CommitConsistent(w.cas, cert);
    var p := w.ledger.pending.value;
    assert OurToken(o, cert.token, cert.name) by {
      assert |p.fingerprint| == FINGERPRINT_LEN && cert.token == UploadToken(o.uid, p.fingerprint, p.startedAt);
    }
    forall t | t in v.cas.byToken
      ensures v.cas.byToken[t] in v.cas.certs && OurToken(o, t, v.cas.certs[v.cas.byToken[t]].name)
    {
      if t != cert.token { assert t in w.cas.byToken; }
    }
  }

  lemma SettleKeepsInv(o: Owner, gen: Option<Generation>, drop: nat, probedAt: Option<int>, w: World, v: World)
    requires Inv(o, w) && Step(o, Settle(gen, drop, probedAt), w, v)
    ensures Inv(o, v)
  {
    var a := Advanced(w.ledger, gen);
    forall i | 0 <= i < |v.ledger.history|
      ensures RecordOk(o, v.cas, v.ledger.history[i]) && v.ledger.history[i].fingerprint != ""
    {
      var g := v.ledger.history[i];
      assert g == a.history[i];
      var extra := |a.history| - |w.ledger.history|;
      if i >= extra { assert g == w.ledger.history[i - extra]; }
    }
  }

  lemma ClearedIsSound(o: Owner, s: CasState, h: seq<Generation>, k: seq<Generation>)
    requires Clears(s, h, k)
    requires forall i :: 0 <= i < |h| ==> RecordOk(o, s, h[i]) && h[i].fingerprint != ""
    ensures forall i :: 0 <= i < |k| ==> RecordOk(o, s, k[i]) && k[i].fingerprint != ""
  {
    forall i | 0 <= i < |k| ensures RecordOk(o, s, k[i]) && k[i].fingerprint != "" { assert ClearedOrKept(s, h[i], k[i]); }
  }

  // ----- ledger safety -----

  /** Whether a step gives up a certificate the status leads to, readable off the state before it: only
      these kinds of step give up anything, and each only what the status was the last to name. */
  predicate GivesUp(w: World, e: Event, id: int)
    requires id in w.cas.certs
  {
    var name := w.cas.certs[id].name;
    match e
    // the record of another fingerprint is overwritten
    case WriteAhead(p) => !Records(w.ledger, id) && name != p.casName
    // the probe believed a listing that did not show a certificate which is there
    case ProbeErase(_) => !Lists(w.ledger.history, id) && !Announces(w.ledger, name)
    // the write-ahead record is dropped although its certificate is there
    case Cleanup(l) => l.pending.None? && !Records(w.ledger, id)
    // the copy's history does not have what the stored one has
    case Rewrite(_, copy, _, _) => !Records(w.ledger.(history := copy.history), id) && !Announces(w.ledger, name)
    // the same, and id and record of what the copy did not know go with those of what it knew
    case StaleCleanup(_, copy, l) =>
      && !Records(l.(history := if l.history == w.ledger.history then l.history else copy.history), id)
      && !Announces(l, name)
    // the finalizer goes
    case Release(_) => true
    case _ => false
  }

  function Forfeited(w: World, e: Event): set<int> {
    set id | id in w.mine && id in w.cas.certs && Named(w, id) && GivesUp(w, e, id)
  }

  /** A step loses exactly what it forfeits. */
  lemma StepLosesExactly(o: Owner, e: Event, w: World, v: World)
    requires Inv(o, w) && Step(o, e, w, v)
    ensures Lost(v) - Lost(w) == Forfeited(w, e)
  {
    hide Sole, RecordOk, PendingOk;
    forall id ensures id in Lost(v) - Lost(w) <==> id in Forfeited(w, e) {
      match e {
        case Elsewhere =>
        case WriteAhead(p) =>
        case UploadCommit(cert) =>
        case Settle(gen, drop, probedAt) => SettleForgetsNothing(o, w, v, gen, drop, probedAt, id);
        case ProbeErase(probedAt) =>
        case CloudDelete(_, _) =>
        case Cleanup(l) => ClearedLists(w.cas, w.ledger.history, l.history, id);
        case Rewrite(_, copy, keep, probedAt) => KeptLists(w.cas, copy.history, keep, id);
        case StaleCleanup(_, copy, l) =>
          if l.history != w.ledger.history { ClearedLists(w.cas, copy.history, l.history, id); }
        case Release(_) =>
      }
    }
  }

  lemma SettleForgetsNothing(o: Owner, w: World, v: World, gen: Option<Generation>, drop: nat, probedAt: Option<int>, id: int)
    requires Inv(o, w) && Step(o, Settle(gen, drop, probedAt), w, v)
    ensures id in w.cas.certs && id in w.mine && Named(w, id) ==> Named(v, id)
  {
    hide Consistent, TokensOk, Lists, Held, PendingOk;
    var a := Advanced(w.ledger, gen);
    AdvanceRecords(w.ledger, gen, id);
    assert RestGone(w.cas, a.history, |a.history| - drop);
    KeptLists(w.cas, a.history, |a.history| - drop, id);
  }

  /** Whatever was recorded is in the history of what supersedes it. */
  lemma AdvanceRecords(l: Ledger, gen: Option<Generation>, id: int)
    requires l.current.Some? && l.current.value.certId.Some? ==> l.current.value.fingerprint != ""
    ensures Records(l, id) ==> Records(Advanced(l, gen), id)
  {
    if gen.Some? && Records(l, id) {
      var h := Held(l);
      if Lists(l.history, id) {
        var i :| 0 <= i < |l.history| && l.history[i].certId == Some(id);
        assert h[|h| - |l.history| + i] == l.history[i];
      } else {
        assert h[0].certId == Some(id);
      }
    }
  }

  lemma ClearedLists(s: CasState, h: seq<Generation>, k: seq<Generation>, id: int)
    requires Clears(s, h, k)
    ensures id in s.certs ==> (Lists(h, id) <==> Lists(k, id))
  {
    if id in s.certs && Lists(h, id) {
      var i :| 0 <= i < |h| && h[i].certId == Some(id);
      assert ClearedOrKept(s, h[i], k[i]) && k[i].certId == Some(id);
    }
    if id in s.certs && Lists(k, id) {
      var i :| 0 <= i < |k| && k[i].certId == Some(id);
      assert ClearedOrKept(s, h[i], k[i]) && h[i].certId == Some(id);
    }
  }

  lemma KeptLists(s: CasState, h: seq<Generation>, keep: nat, id: int)
    requires keep <= |h| && RestGone(s, h, keep)
    ensures id in s.certs ==> (Lists(h, id) <==> Lists(h[..keep], id))
  {
    if id in s.certs && Lists(h, id) {
      var i :| 0 <= i < |h| && h[i].certId == Some(id);
      assert i < keep && h[..keep][i] == h[i];
    }
  }

  // ----- runs -----

  /** A copy is the ledger of some earlier world. */
  predicate Remembers(ws: seq<World>, e: Event, i: nat) {
    FromCopy(e) ==> e.at <= i && e.at < |ws| && ws[e.at].ledger == e.copy
  }

  /** A run: es[i] leads from ws[i] to ws[i + 1]. */
  ghost predicate Run(o: Owner, ws: seq<World>, es: seq<Event>) {
    && |ws| == |es| + 1
    && Inv(o, ws[0])
    && (forall i :: 0 <= i < |es| ==> Step(o, es[i], ws[i], ws[i + 1]))
    && (forall i :: 0 <= i < |es| ==> Remembers(ws, es[i], i))
  }

  lemma StepOf(o: Owner, ws: seq<World>, es: seq<Event>, i: nat)
    requires Run(o, ws, es) && i < |es|
    ensures Step(o, es[i], ws[i], ws[i + 1]) && Remembers(ws, es[i], i)
  {
  }

  lemma RunInv(o: Owner, ws: seq<World>, es: seq<Event>, n: nat)
    requires Run(o, ws, es) && n < |ws|
    ensures Inv(o, ws[n])
  {
    EarlierIsSound(o, ws, es, n, n);
  }

  /** Every ledger of a run stays sound, also after it has been superseded. */
  lemma {:induction false} EarlierIsSound(o: Owner, ws: seq<World>, es: seq<Event>, j: nat, n: nat)
    requires Run(o, ws, es) && j <= n < |ws|
    ensures Inv(o, ws[n]) && Sound(o, ws[n].cas, ws[j].ledger)
    decreases n
  {
    hide Step;
    if n > 0 {
      EarlierIsSound(o, ws, es, if j < n then j else n - 1, n - 1);
      var e := es[n - 1];
      StepOf(o, ws, es, n - 1);
      hide Run, Sound;
      if FromCopy(e) { EarlierIsSound(o, ws, es, e.at, n - 1); }
      StepKeepsInv(o, e, ws[n - 1], ws[n]);
      if j < n { StepKeepsSound(o, e, ws[n - 1], ws[n], ws[j].ledger); }
    }
  }

  /** There is never again no current generation. */
  lemma {:induction false} CurrentStays(o: Owner, ws: seq<World>, es: seq<Event>, j: nat, n: nat)
    requires Run(o, ws, es) && j <= n < |ws| && ws[j].ledger.current.Some?
    ensures ws[n].ledger.current.Some?
  {
    if j < n {
      CurrentStays(o, ws, es, j, n - 1);
      assert Step(o, es[n - 1], ws[n - 1], ws[n]);
    }
  }

  /** Ledger safety: if a certificate of ours is in the cloud and nothing in the status leads to it,
      then some step of the run gave it up, and it was one of the kinds that can. */
  lemma {:induction false} LedgerSafety(o: Owner, ws: seq<World>, es: seq<Event>, n: nat, id: int)
    requires Run(o, ws, es) && n < |ws|
    requires id in Lost(ws[n]) && id !in Lost(ws[0])
    ensures exists i :: 0 <= i < n && id in Forfeited(ws[i], es[i]) &&
                        (es[i].WriteAhead? || es[i].ProbeErase? || es[i].Cleanup? || es[i].Release? || FromCopy(es[i]))
  {
    RunInv(o, ws, es, n - 1);
    StepLosesExactly(o, es[n - 1], ws[n - 1], ws[n]);
    if id in Lost(ws[n - 1]) {
      LedgerSafety(o, ws, es, n - 1, id);
    } else {
      assert id in Forfeited(ws[n - 1], es[n - 1]);
    }
  }

  /** A run in which no step gives anything up loses nothing. */
  lemma NothingForfeitedNothingLost(o: Owner, ws: seq<World>, es: seq<Event>, n: nat)
    requires Run(o, ws, es) && n < |ws| && Lost(ws[0]) == {}
    requires forall i :: 0 <= i < n ==> Forfeited(ws[i], es[i]) == {}
    ensures Lost(ws[n]) == {}
  {
    if id :| id in Lost(ws[n]) { LedgerSafety(o, ws, es, n, id); }
  }

  ghost predicate Vacated(w: World) {
    w.released && forall id :: id in w.mine ==> id !in w.cas.certs
  }

  /** If giving up the finalizer gives up no certificate, and nothing was given up before, no certificate of
      this resource is left in the cloud, now or later. */
  lemma OrderlyDeletionLeavesNothing(o: Owner, ws: seq<World>, es: seq<Event>, r: nat, n: nat)
    requires Run(o, ws, es) && Lost(ws[0]) == {} && r < n < |ws|
    requires es[r].Release? && forall i :: 0 <= i <= r ==> Forfeited(ws[i], es[i]) == {}
    ensures Vacated(ws[n])
  {
    hide Lost, Forfeited, Vacated;
    NothingForfeitedNothingLost(o, ws, es, r);
    StepOf(o, ws, es, r);
    NothingNamedNothingThere(o, ws[r], ws[r + 1], es[r]);
    VacatedForever(o, ws, es, r + 1, n);
  }

  /** And it gives up nothing if the status records nothing any more. */
  lemma EmptyRecordForfeitsNothing(w: World, e: Event)
    requires e.Release? && NothingRecorded(w.ledger)
    ensures Forfeited(w, e) == {}
  {
  }

  lemma {:induction false} VacatedForever(o: Owner, ws: seq<World>, es: seq<Event>, m: nat, n: nat)
    requires Run(o, ws, es) && m <= n < |ws| && Vacated(ws[m])
    ensures Vacated(ws[n])
  {
    hide Step, Inv, Vacated;
    if m < n {
      VacatedForever(o, ws, es, m, n - 1);
      RunInv(o, ws, es, n - 1);
      ReleasedStaysEmpty(o, es[n - 1], ws[n - 1], ws[n]);
    }
  }

  lemma NothingNamedNothingThere(o: Owner, w: World, v: World, e: Event)
    requires Step(o, e, w, v) && e.Release? && Lost(w) == {} && Forfeited(w, e) == {}
    ensures Vacated(v)
  {
    forall id | id in w.mine ensures id !in w.cas.certs { assert id !in Lost(w) && id !in Forfeited(w, e); }
  }

  lemma ReleasedStaysEmpty(o: Owner, e: Event, w: World, v: World)
    requires Inv(o, w) && Step(o, e, w, v)
    requires Vacated(w)
    ensures Vacated(v)
  {
    assert e.Elsewhere? || e.CloudDelete?;
    forall id | id in v.mine ensures id !in v.cas.certs {
      assert id in w.cas.issued.Keys && id !in w.cas.certs.Keys;
    }
  }

  /** Outside deletion the write-ahead record is cleared only by the patch that records the very
      generation it announced. */
  lemma RecordClearedWithGeneration(o: Owner, e: Event, w: World, v: World)
    requires Step(o, e, w, v) && !e.Cleanup? && !e.StaleCleanup?
    requires w.ledger.pending.Some? && v.ledger.pending.None?
    ensures v.ledger.current.Some?
    ensures var p, g := w.ledger.pending.value, v.ledger.current.value;
            g.certId.Some? && g.casName == p.casName && g.fingerprint == p.fingerprint
  {
  }
}
