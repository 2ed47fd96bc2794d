/**
 One round of the certificate controller, from the validated Secret to the final status patch. The
 copy of the resource the round works on (ac) and the baseline of its patches (orig) live in memory
 and die with the process; everything else is in the store.
 */
module CertificateRound {
  import opened Wrappers
  import opened Status
  import opened Naming
  import opened Cas
  import opened LedgerRuns
  import opened LedgerAccounts
  import opened Retries
  import opened Retention
  import opened Surroundings
  import opened Epochs
  import opened Persistence

  /** The part of the spec the round reads. */
  datatype Spec = Spec(
    upload: bool, dnsNames: seq<string>, commonName: string, keepLast: int, minAge: Option<int>, probeInterval: int)

  /** The name the spec is looked for by. */
  function SpecHint(spec: Spec): string {
    if spec.dnsNames != [] then spec.dnsNames[0] else spec.commonName
  }

  /** The validated material of the Secret. */
  datatype Bundle = Bundle(fingerprint: string, domains: seq<string>, notBefore: int, notAfter: int)

  /** The keyword of the existence probe and of the clean-up. */
  function ProbeHint(pending: Option<PendingUpload>, preferred: string, domainHint: string): string {
    if pending.Some? && pending.value.domainHint != "" then pending.value.domainHint
    else if preferred != "" then preferred
    else domainHint
  }

  /** ac differs from the persisted ledger by what one settling patch may write. */
  predicate Owing(o: Owner, w: World, base: Ledger, target: Ledger, gen: Option<Generation>, drop: nat) {
    base == w.ledger && SettleOk(o, w, gen, drop) && target == Settled(w.ledger, gen, drop, target.casProbedAt)
  }

  /** Nothing that others do, and no deletion of ours, stands in the way of settling. */
  lemma OwingSurvives(o: Owner, w: World, v: World, base: Ledger, target: Ledger, gen: Option<Generation>, drop: nat)
    requires Inv(o, w) && Owing(o, w, base, target, gen, drop)
    requires v.ledger == w.ledger && v.mine == w.mine && External(w.cas, v.cas)
    ensures Owing(o, v, base, target, gen, drop)
  {
    var h := Advanced(w.ledger, gen).history;
    if gen.Some? { RecordSurvives(o, w.cas, v.cas, gen.value); }
    forall i | |h| - drop <= i < |h| && h[i].certId.Some? ensures h[i].certId.value !in v.cas.certs {
      SettledRecords(o, w, gen, i);
      var id := h[i].certId.value;
      assert id in w.cas.issued && id !in w.cas.certs;
    }
  }

  lemma SettledRecords(o: Owner, w: World, gen: Option<Generation>, i: nat)
    requires Inv(o, w) && i < |Advanced(w.ledger, gen).history|
    ensures RecordOk(o, w.cas, Advanced(w.ledger, gen).history[i])
    ensures Advanced(w.ledger, gen).history[i].fingerprint != ""
  {
    var h := Advanced(w.ledger, gen).history;
    var extra := |h| - |w.ledger.history|;
    if i >= extra { assert h[i] == w.ledger.history[i - extra]; }
  }

  /** The oldest generation left may be dropped once its certificate is gone. */
  lemma OneMoreDropped(o: Owner, w: World, base: Ledger, target: Ledger, gen: Option<Generation>, drop: nat)
    requires Owing(o, w, base, target, gen, drop) && target.history != []
    requires var last := target.history[|target.history| - 1]; last.certId.Some? ==> last.certId.value !in w.cas.certs
    ensures Owing(o, w, base, target.(history := target.history[..|target.history| - 1]), gen, drop + 1)
  {
    var h := Advanced(w.ledger, gen).history;
    var k := |h| - drop;
    assert target.history == h[..k];
    assert target.history[..|target.history| - 1] == h[..k - 1];
  }

  /** If the announced token is known to the cloud, it is for a certificate of the announced name. */
  lemma TokenIsOurs(o: Owner, w: World, cert: Cert)
    requires Inv(o, w) && w.ledger.pending.Some?
    requires cert.name == w.ledger.pending.value.casName && cert.token == w.ledger.pending.value.clientToken
    ensures TokenNames(w.cas, cert)
  {
    if cert.token in w.cas.byToken {
      var p, id := w.ledger.pending.value, w.cas.byToken[cert.token];
      assert OurToken(o, cert.token, w.cas.certs[id].name);
      var f, t :| |f| == FINGERPRINT_LEN && cert.token == UploadToken(o.uid, f, t) &&
                  w.cas.certs[id].name == CASName(o.crName, f);
      TokenDeterminesName(o.uid, o.crName, f, p.fingerprint, t, p.startedAt);
    }
  }

  /** A generation whose certificate answers to the announced name may be recorded. */
  lemma UploadedMaySettle(o: Owner, w: World, g: Generation)
    requires Inv(o, w) && w.ledger.pending.Some? && g.certId.Some?
    requires g.fingerprint == w.ledger.pending.value.fingerprint && g.casName == w.ledger.pending.value.casName
    requires OnlyBearer(w.cas, g.casName, g.certId.value)
    requires w.ledger.current.Some? ==> w.ledger.current.value.fingerprint != g.fingerprint
    ensures SettleOk(o, w, Some(g), 0)
  {
  }

  lemma ObservedMaySettle(o: Owner, w: World, g: Generation)
    requires g.fingerprint != "" && g.certId.None?
    requires w.ledger.current.Some? ==> w.ledger.current.value.fingerprint != g.fingerprint
    ensures SettleOk(o, w, Some(g), 0)
  {
  }

  /** Nothing is to be dropped yet. */
  lemma MaySettleWhole(o: Owner, w: World, base: Ledger, target: Ledger, gen: Option<Generation>, drop: nat)
    requires Owing(o, w, base, target, gen, drop)
    ensures SettleOk(o, w, gen, 0)
  {
  }

  lemma SettledWhole(l: Ledger, m: Ledger, g: Generation)
    requires m.current == Some(g) && m.history == Held(l) && m.pending == (if g.certId.Some? then None else l.pending)
    ensures m == Settled(l, Some(g), 0, m.casProbedAt)
  {
    assert m.history[..|m.history|] == m.history;
  }

  /** Scans a listing for an id. */
  method Includes(list: seq<Summary>, id: int, ghost s: CasState, ghost hint: string, ghost now: int) returns (present: bool)
    requires IsListing(s, hint, now, list)
    ensures present <==> id in s.certs && Listed(s.certs[id], hint, now)
  {
    for i := 0 to |list|
      invariant forall j :: 0 <= j < i ==> list[j].certId != id
    {
      if list[i].certId == id {
        assert list[i] in list;
        return true;
      }
    }
    return false;
  }

  /** What a round sends Deletes for: of the last n generations, oldest first, those that have an id. */
  function Sent(h: seq<Generation>, n: nat): seq<Generation>
    requires n <= |h|
  {
    if n == 0 then [] else Sent(h, n - 1) + (if h[|h| - n].certId.Some? then [h[|h| - n]] else [])
  }

  /** The Deletes of a pass are accounted for: every one was confirmed and its generation dropped, but for
      the last one of a pass that failed. */
  predicate Accounts(h: seq<Generation>, rs: seq<Reclamation>, drop: nat, failed: bool) {
    && (if failed then drop + 1 else drop) <= |h|
    && Goners(rs) == Sent(h, if failed then drop + 1 else drop)
    && (failed ==> rs != [])
    && forall i :: 0 <= i < |rs| ==> (rs[i].confirmed <==> !(failed && i == |rs| - 1))
  }

  function Goners(rs: seq<Reclamation>): seq<Generation> {
    seq(|rs|, i requires 0 <= i < |rs| => rs[i].gone)
  }

  lemma {:induction false} SentIsOfTheLast(h: seq<Generation>, n: nat, g: Generation)
    requires n <= |h|
    ensures g in Sent(h, n) <==> g.certId.Some? && exists i :: |h| - n <= i < |h| && h[i] == g
  {
    if n > 0 { SentIsOfTheLast(h, n - 1, g); }
  }

  /** When a round that supersedes the current generation deletes its certificate, while the status still
      calls it current: exactly if no generation but the new one is to be kept and every superseded one
      passes the guards. A pass that fails midway does so under no other condition. */
  lemma SupersededIsHitIff(h: seq<Generation>, keep: int, now: int, minAge: int, bindings: seq<BindingView>)
    requires h != [] && AllDiffer(h) && h[0].certId.Some? && keep >= 1
    ensures var most := DropCount(h, keep, now, minAge, bindings);
            && most <= |h|
            && (h[0] in Sent(h, most) <==> keep == 1 && forall i :: 0 <= i < |h| ==> Reclaimable(h[i], now, minAge, bindings))
            && (forall n: nat :: n < most ==> h[0] !in Sent(h, n))
  {
    TailIsLongest(h, now, minAge, bindings);
    var most := DropCount(h, keep, now, minAge, bindings);
    SentIsOfTheLast(h, most, h[0]);
    forall n: nat | n < most ensures h[0] !in Sent(h, n) { SentIsOfTheLast(h, n, h[0]); }
  }

  /** It does happen: one generation, uploaded a day ago, that no Binding uses. */
  lemma SupersededIsHit(fingerprint: string, casName: string, id: int)
    ensures var h := [Generation(fingerprint, Some(id), casName, 0, 0, 0)];
            h[0] in Sent(h, DropCount(h, 1, DEFAULT_MIN_AGE, DEFAULT_MIN_AGE, []))
  {
    var h := [Generation(fingerprint, Some(id), casName, 0, 0, 0)];
    SupersededIsHitIff(h, 1, DEFAULT_MIN_AGE, DEFAULT_MIN_AGE, []);
  }

  /** Recorded generations with different fingerprints, both told apart by the cluster, share no id. */
  lemma NoSharedId(c: Cluster, loaded: string, o: Owner, s: CasState, g: Generation, k: Generation)
    requires Known(c, loaded) && g.fingerprint in c.seen && k.fingerprint in c.seen && g.fingerprint != k.fingerprint
    requires RecordOk(o, s, g) && RecordOk(o, s, k) && g.certId.Some?
    ensures g.certId != k.certId
  {
    DistinctIds(o, s, g, k);
  }

  /** What the probe's patch makes of the stored ledger, from whatever copy it was computed. */
  lemma ErasureMerges(server: Ledger, base: Ledger, target: Ledger)
    requires base.current.Some? && base.current.value.certId.Some? && base.current.value.fingerprint != ""
    requires target == base.(current := Some(Blanked(base.current.value)), casProbedAt := target.casProbedAt)
    requires server.current.Some?
    ensures var m := MergedLedger(server, base, target);
            m == server.(current := Some(Blanked(server.current.value)), casProbedAt := m.casProbedAt) && Whole(server, base, target)
    ensures base == server ==> MergedLedger(server, base, target) == target
  {
  }

  /** The guards held for everything that was to go: the minimum age was over, and no Binding of the
      certificate lagged behind or had it applied. */
  ghost predicate PassedGuards(rs: seq<Reclamation>, now: int, minAge: int, bindings: seq<BindingView>, crName: string) {
    && OldEnoughAll(rs, now, minAge)
    && forall i, j :: 0 <= i < |rs| && 0 <= j < |bindings| && bindings[j].certificateRef == crName ==>
         bindings[j].observedGeneration >= bindings[j].generation && bindings[j].appliedFingerprint != rs[i].gone.fingerprint
  }

  predicate OldEnoughAll(rs: seq<Reclamation>, now: int, minAge: int) {
    forall i :: 0 <= i < |rs| ==> now - rs[i].gone.uploadedAt >= minAge
  }

  lemma ReclaimsPassedGuards(h: seq<Generation>, rs: seq<Reclamation>, drop: nat, failed: bool, keep: int, now: int,
                             minAge: int, all: seq<BindingView>, crName: string)
    requires keep >= 1 && Accounts(h, rs, drop, failed)
    requires var most := DropCount(h, keep, now, minAge, Referencing(all, crName)); if failed then drop < most else drop <= most
    ensures PassedGuards(rs, now, minAge, all, crName)
  {
    DropCountExact(h, keep, now, minAge, Referencing(all, crName));
    forall i | 0 <= i < |rs| ensures Reclaimable(rs[i].gone, now, minAge, Referencing(all, crName)) {
      var n := if failed then drop + 1 else drop;
      assert Goners(rs)[i] == rs[i].gone;
      SentIsOfTheLast(h, n, rs[i].gone);
    }
    forall j | 0 <= j < |all| && all[j].certificateRef == crName ensures all[j] in Referencing(all, crName) {
      ReferencingExact(all, crName, all[j]);
    }
  }

  lemma ClaimedIs(s: CasState, name: string, hint: string, now: int)
    ensures var found := Claimed(s, name, hint, now);
            && (found.Some? ==>
                  found.value in s.certs && s.certs[found.value].name == name && Listed(s.certs[found.value], hint, now))
            && (found.None? ==> forall id :: id in s.certs && s.certs[id].name == name ==> !Listed(s.certs[id], hint, now))
  {
    hide Listed;
    if Claimed(s, name, hint, now).None? {
      forall id | id in s.certs && s.certs[id].name == name ensures !Listed(s.certs[id], hint, now) {
        assert !Findable(s, name, hint, now, id);
      }
    }
  }

  /** Filters a listing by name. */
  method FirstNamed(list: seq<Summary>, name: string, ghost s: CasState, ghost hint: string, ghost now: int)
    returns (found: Option<int>)
    requires Consistent(s) && IsListing(s, hint, now, list)
    ensures found == Claimed(s, name, hint, now)
  {
    hide Listed;
    for i := 0 to |list|
      invariant forall j :: 0 <= j < i ==> list[j].name != name
    {
      if list[i].name == name {
        assert list[i] in list;
        assert Findable(s, name, hint, now, list[i].certId);
        return Some(list[i].certId);
      }
    }
    assert forall id :: Findable(s, name, hint, now, id) ==> Summary(id, name) in list;
    return None;
  }

  class Round {
    const store: Store
    const spec: Spec
    const now: int
    var ac: Status
    var orig: Status
    ghost var at: nat

    /** The baseline's ledger is one the API server once held. */
    ghost predicate Valid()
      reads this, store, store.cas
    {
      && store.Valid() && store.finalizer && WellFormed(ac) && WellFormed(orig)
      && now == store.clock && at < |store.worlds| && orig.ledger == store.worlds[at].ledger
      && (store.begun.None? ==> ac.cleanupStartedAt.None? && orig.cleanupStartedAt.None?)
    }

    /** Nothing has been stored since. */
    ghost predicate Fresh()
      reads this, store
    {
      orig.ledger == store.Recorded()
    }

    /** What the next patch would change of the ledger is at most the time of the last probe. */
    predicate Idle()
      reads this
    {
      ac.ledger == orig.ledger.(casProbedAt := ac.ledger.casProbedAt)
    }

    /** The world as the copy sees it. */
    ghost function Seen(): World
      reads this, store, store.cas
    {
      store.Now().(ledger := orig.ledger)
    }

    /** The next patch settles gen, if there is one, and drops the oldest ones. A copy that may have
        fallen behind settles nothing, and has what was read for its current generation. */
    ghost predicate Owes(gen: Option<Generation>, drop: nat)
      reads this, store, store.cas
    {
      && Owing(store.owner, Seen(), orig.ledger, ac.ledger, gen, drop)
      && (gen.Some? ==> Fresh() && gen.value.fingerprint == store.loaded && gen.value.uploadedAt == now)
      && (Fresh() || Serves(orig.ledger, store.loaded))
    }

    constructor (store: Store, spec: Spec, now: int, cached: Status, ghost at: nat)
      requires store.Valid() && store.finalizer && WellFormed(cached) && now == store.clock
      requires at < |store.worlds| && cached.ledger == store.worlds[at].ledger
      requires cached.cleanupStartedAt.Some? ==> store.begun.Some?
      ensures Valid() && this.store == store && this.spec == spec && this.now == now && this.at == at
      ensures ac == cached && orig == cached
    {
      this.store, this.spec, this.now, ac, orig, this.at := store, spec, now, cached, cached, at;
    }

    lemma LatestWorld()
      requires store.Valid()
      ensures |store.worlds| > 0 && store.worlds[|store.worlds| - 1].ledger == store.Recorded()
      ensures store.begun.Some? ==> store.begun.value < |store.worlds|
    {
    }

    /** Replaces generations and write-ahead record, in the copy and in the baseline. */
    method Refresh() returns (err: Option<Error>)
      requires Valid()
      modifies this, store`turns, store`cluster, store`passed
      ensures Valid() && store.Later()
      ensures err.Some? ==> ac == old(ac) && orig == old(orig)
      ensures err.None? ==> Fresh() && ac == old(ac).(ledger := store.Recorded()) && orig == old(orig).(ledger := store.Recorded())
      ensures old(store.Undisturbed() || store.Alive()) ==> err.None?
    {
      hide Store.Valid, Store.Course, Store.Undisturbed, Store.Alive, Decode;
      var live;
      live, err := store.ReadStatus();
      if err.Some? { return; }
      LatestWorld();
      ac := ac.(ledger := live.ledger);
      orig, at := orig.(ledger := live.ledger), |store.worlds| - 1;
    }

    /** Persists the write-ahead record, before anything is sent to the cloud. */
    method PatchPendingUpload(want: PendingUpload) returns (err: Option<Error>)
      requires Valid() && store.Active() && PendingOk(store.owner, want)
      requires ac.ledger == orig.ledger && Fresh()
      requires ac.ledger.pending.Some? ==> ac.ledger.pending.value.fingerprint != want.fingerprint
      modifies this, store
      ensures Valid() && store.Later() && store.loaded == old(store.loaded)
      ensures store.reclaims == old(store.reclaims) && store.listings == old(store.listings)
      ensures err.Some? ==> ac == old(ac) && orig == old(orig)
      ensures err.None? ==>
                && Fresh() && store.Recorded() == old(store.Recorded()).(pending := Some(want))
                && ac == old(ac).(ledger := store.Recorded()) && orig == old(orig).(ledger := store.Recorded())
      ensures store.doc == old(store.doc) || store.Recorded() == old(store.Recorded()).(pending := Some(want))
      ensures old(store.Undisturbed() || store.Alive()) ==> err.None?
    {
      hide Store.Valid, Store.Course, Store.Undisturbed, Store.Alive, Decode, Patched;
      var target := ac.(ledger := ac.ledger.(pending := Some(want)));
      MergedFromItself(ac.ledger, target.ledger);
      var stored;
      stored, err := store.Patch(ac, target, WriteAhead(want));
      if err.Some? { return; }
      LatestWorld();
      ac := ac.(ledger := ac.ledger.(pending := Some(want)));
      orig, at := orig.(ledger := orig.ledger.(pending := Some(want))), |store.worlds| - 1;
    }

    /** Looks the certificate up by its own first domain and filters by name. */
    method FindByName(domains: seq<string>, name: string) returns (found: Option<int>, err: Option<Error>)
      requires Valid()
      modifies store`turns, store`cluster, store`passed, store`worlds, store`events, store.cas
      ensures Valid() && store.Later()
      ensures store.cas.View() == old(store.cas.Reached()) && store.cas.turns == old(store.cas.Rest())
      ensures err == Failed(old(store.cas.NextTurn()).fault)
      ensures found == if err.None? then Claimed(store.cas.View(), name, FindHint(domains), now) else None
      ensures var hint := if domains == [] then "" else domains[0];
              && (found.Some? ==>
                    && found.value in store.cas.certs && store.cas.certs[found.value].name == name
                    && Listed(store.cas.certs[found.value], hint, now))
              && (err.None? && found.None? ==>
                    forall id :: id in store.cas.certs && store.cas.certs[id].name == name ==>
                      !Listed(store.cas.certs[id], hint, now))
    {
      hide Store.Valid, Store.Course, Store.Undisturbed, Store.Alive, Decode, IsListing, Consistent, Claimed, AllEdited;
      found := None;
      var list;
      list, err := store.FindUploaded(FindHint(domains), now);
      if err.Some? { return; }
      SeenIsConsistent();
      found := FirstNamed(list, name, store.cas.View(), FindHint(domains), now);
      ClaimedIs(store.cas.View(), name, FindHint(domains), now);
    }

    /** Uploads, or claims the certificate an earlier upload left behind. */
    method UploadOrClaim(cert: Cert) returns (r: Result<int, Error>)
      requires Valid() && store.Recorded().pending.Some?
      requires cert.name == store.Recorded().pending.value.casName
      requires cert.token == store.Recorded().pending.value.clientToken
      modifies store`turns, store`cluster, store`passed, store`worlds, store`events, store`mine, store.cas
      ensures Valid() && store.Later()
      ensures (store.cas.View(), r) == Attempted(old(store.cas.View()),
                Attempt(old(store.cas.NextTurn()), First(old(store.cas.Rest())), now), cert)
    {
      hide Store.Valid, Store.Course, Store.Undisturbed, Store.Alive, Decode, Step, Consistent, AllEdited, Uploaded, Claimed;
      var id, err := store.Upload(cert);
      if err.None? { return Ok(id); }
      if ClassOf(err.value) == Permanent && IsDuplicateName(err.value) {
        var found, ferr := FindByName(cert.domains, cert.name);
        if ferr == Some(Crash) { return Err(Crash); }
        if ferr.None? && found.Some? { return Ok(found.value); }
      }
      return Err(err.value);
    }

    /** What is announced is this very material, under its name, from now on. */
    ghost predicate Intended(b: Bundle)
      reads store`doc
    {
      store.Recorded().pending ==
      Some(PendingUpload(b.fingerprint, CASName(store.owner.crName, b.fingerprint),
                         UploadToken(store.owner.uid, b.fingerprint, now), now, SpecHint(spec)))
    }

    /** Writes the intent to upload, unless it already stands. */
    method Announce(b: Bundle) returns (err: Option<Error>)
      requires Valid() && store.Active()
      requires |b.fingerprint| == FINGERPRINT_LEN && ac.ledger == orig.ledger && Fresh()
      modifies this, store
      ensures Valid() && store.Later() && store.loaded == old(store.loaded)
      ensures store.reclaims == old(store.reclaims) && store.listings == old(store.listings)
      ensures ac.ledger == orig.ledger
      ensures err.None? ==>
                && Fresh() && ac.ledger == store.Recorded() == old(ac.ledger).(pending := store.Recorded().pending)
                && ac.ledger.pending.Some? && ac.ledger.pending.value.fingerprint == b.fingerprint
                && (old(ac.ledger.pending).Some? && old(ac.ledger.pending).value.fingerprint == b.fingerprint ==>
                      store.doc == old(store.doc))
      ensures err.None? && !(old(ac.ledger.pending).Some? && old(ac.ledger.pending).value.fingerprint == b.fingerprint) ==>
                store.Recorded().pending ==
                Some(PendingUpload(b.fingerprint, CASName(store.owner.crName, b.fingerprint),
                                   UploadToken(store.owner.uid, b.fingerprint, now), now,
                                   if spec.dnsNames != [] then spec.dnsNames[0] else spec.commonName))
      ensures store.Recorded().pending == old(store.Recorded()).pending || Intended(b)
      ensures old(store.Undisturbed() || store.Alive()) ==> err.None?
    {
      hide Store.Valid, Store.Course, Store.Undisturbed, Store.Alive, Decode, Step;
      if ac.ledger.pending.None? || ac.ledger.pending.value.fingerprint != b.fingerprint {
        var name, token := CASName(store.owner.crName, b.fingerprint), UploadToken(store.owner.uid, b.fingerprint, now);
        err := PatchPendingUpload(PendingUpload(b.fingerprint, name, token, now, SpecHint(spec)));
      } else {
        err := None;
      }
    }

    /** No certificate hides under the name b will be stored under: whichever bears it, the listing for
        the first name of the material shows it. */
    predicate Free(b: Bundle)
      reads store.cas
    {
      Unobstructed(store.cas.certs, CASName(store.owner.crName, b.fingerprint), FindHint(b.domains), now)
    }

    lemma NameIsOurs(p: PendingUpload)
      requires Inv(store.owner, store.Now()) && store.Recorded().pending == Some(p)
      ensures p.casName == CASName(store.owner.crName, p.fingerprint)
    {
    }

    lemma NothingFails(a: Attempt, cert: Cert)
      requires store.Undisturbed() && a == Attempt(store.cas.NextTurn(), First(store.cas.Rest()), now)
      requires Unobstructed(store.cas.certs, cert.name, FindHint(cert.domains), now)
      ensures Attempted(store.cas.View(), a, cert).1.Ok?
    {
      hide Attempted, Unobstructed;
      CalmAttemptSucceeds(store.cas.View(), a, cert);
    }

    /** Nothing is stored under the name of b. */
    predicate Unused(b: Bundle)
      reads store.cas
    {
      forall id :: id in store.cas.certs ==> store.cas.certs[id].name != CASName(store.owner.crName, b.fingerprint)
    }

    /** What is stored under this id is the material. */
    predicate Holds(id: int, b: Bundle)
      reads store.cas
    {
      id in store.cas.certs && store.cas.certs[id].fingerprint == b.fingerprint
      && store.cas.certs[id].domains == b.domains && store.cas.certs[id].notAfter == b.notAfter
    }

    lemma NewIsStored(a: Attempt, cert: Cert)
      requires store.Undisturbed() && a == Attempt(store.cas.NextTurn(), First(store.cas.Rest()), now)
      requires TokenNames(store.cas.View(), cert)
      requires forall id :: id in store.cas.certs ==> store.cas.certs[id].name != cert.name
      ensures var (t, r) := Attempted(store.cas.View(), a, cert);
              r.Ok? && r.value in t.certs && t.certs[r.value] == cert
    {
      hide LookedUp;
      CalmReaches(store.cas.View(), store.cas.turns);
    }

    /** Carries out the persisted intent; every retry uses the persisted token. */
    method SendUpload(b: Bundle) returns (r: Result<int, Error>)
      requires Valid() && ac.ledger == store.Recorded()
      requires ac.ledger.pending.Some? && ac.ledger.pending.value.fingerprint == b.fingerprint
      modifies store`turns, store`cluster, store`passed, store`worlds, store`events, store`mine, store.cas
      ensures Valid() && store.Later()
      ensures (store.cas.View(), r) ==
                Attempted(old(store.cas.View()), Attempt(old(store.cas.NextTurn()), First(old(store.cas.Rest())), now),
                          Cert(ac.ledger.pending.value.casName, b.fingerprint, b.domains, b.notAfter,
                               ac.ledger.pending.value.clientToken))
      ensures r.Ok? ==> OnlyBearer(store.cas.View(), ac.ledger.pending.value.casName, r.value)
      ensures old(store.Undisturbed() && Free(b)) ==> r.Ok?
      ensures old(store.Undisturbed() && Unused(b)) ==> r.Ok? && Holds(r.value, b)
    {
      hide Store.Valid, Store.Course, Store.Undisturbed, Store.Alive, Decode, Step, Attempted, Consistent;
      var p := ac.ledger.pending.value;
      var cert := Cert(p.casName, b.fingerprint, b.domains, b.notAfter, p.clientToken);
      ghost var a := Attempt(store.cas.NextTurn(), First(store.cas.Rest()), now);
      store.Reachable();
      TokenIsOurs(store.owner, store.Now(), cert);
      NameIsOurs(p);
      if store.Undisturbed() && Free(b) { NothingFails(a, cert); }
      if store.Undisturbed() && Unused(b) { NewIsStored(a, cert); }
      AttemptSound(store.cas.View(), a, cert);
      r := UploadOrClaim(cert);
    }

    /** Makes the current generation the one in b. The copy and its baseline may be arbitrarily stale:
        if the generation advances, the settling patch will leave the ledger that is in memory. */
    method EnsureUploaded(b: Bundle) returns (advanced: bool, err: Option<Error>, ghost gen: Option<Generation>)
      requires Valid() && store.Active() && b.fingerprint == store.loaded && |b.fingerprint| == FINGERPRINT_LEN
      modifies this, store, store.cas
      ensures Valid() && store.Later() && store.loaded == old(store.loaded)
      ensures store.reclaims == old(store.reclaims) && store.listings == old(store.listings)
      ensures advanced <==> gen.Some?
      ensures old(ac.ledger.current).Some? && old(ac.ledger.current).value.fingerprint == b.fingerprint ==>
                && !advanced && err.None? && ac == old(ac) && orig == old(orig)
                && store.worlds == old(store.worlds) && store.cas.View() == old(store.cas.View())
      ensures advanced ==> err.None? && Owes(gen, 0) && ac.ledger.current == gen
      ensures advanced ==>
                && gen.value == Generation(b.fingerprint, gen.value.certId, gen.value.casName, b.notBefore, b.notAfter, now)
                && (gen.value.certId.Some? <==> spec.upload)
                && gen.value.casName == (if spec.upload then CASName(store.owner.crName, b.fingerprint) else "")
                && (spec.upload ==>
                      OnlyBearer(store.cas.View(), CASName(store.owner.crName, b.fingerprint), gen.value.certId.value))
                && ac.ledger.casProbedAt == if spec.upload then Some(now) else store.Recorded().casProbedAt
      ensures !advanced && err.None? ==>
                && ac.ledger.current.Some? && ac.ledger.current.value.fingerprint == b.fingerprint
                && store.doc == old(store.doc) && store.cas.View() == old(store.cas.View())
                && ((ac == old(ac) && orig == old(orig)) || (ac.ledger == orig.ledger && Fresh()))
      ensures !advanced && err.None? && old(ac.ledger.current) == old(store.Recorded().current) ==> ac == old(ac) && orig == old(orig)
      ensures !advanced ==>
                ac.ledger == orig.ledger || (ac == old(ac) && orig == old(orig) && store.doc == old(store.doc))
      ensures store.Recorded().pending == old(store.Recorded()).pending || Intended(b)
      ensures advanced && spec.upload && old(store.Undisturbed() && Unused(b)) ==> Holds(gen.value.certId.value, b)
      ensures old(store.Undisturbed() && (spec.upload ==> Free(b))) ==> err.None?
    {
      hide Store.Valid, Store.Course, Store.Undisturbed, Store.Alive, Decode, Owing, Unused, Holds, Intended, Free, OnlyBearer;
      advanced, gen := false, None;
      if ac.ledger.current.Some? && ac.ledger.current.value.fingerprint == b.fingerprint { return false, None, None; }
      err := Refresh();
      if err.Some? { return; }
      if ac.ledger.current.Some? && ac.ledger.current.value.fingerprint == b.fingerprint { return; }
      advanced, err, gen := TakeUp(b);
    }

    /** Announces and uploads. What was announced is then settled in memory, and only there. */
    method Transfer(b: Bundle) returns (r: Result<int, Error>)
      requires Valid() && store.Active() && |b.fingerprint| == FINGERPRINT_LEN
      requires ac.ledger == orig.ledger && Fresh()
      modifies this, store, store.cas
      ensures Valid() && store.Later() && store.loaded == old(store.loaded)
      ensures store.reclaims == old(store.reclaims) && store.listings == old(store.listings)
      ensures r.Err? ==> ac.ledger == orig.ledger
      ensures r.Ok? ==>
                && Fresh() && ac.ledger == orig.ledger.(pending := None, casProbedAt := Some(now))
                && orig.ledger == old(orig.ledger).(pending := orig.ledger.pending)
                && orig.ledger.pending.Some? && orig.ledger.pending.value.fingerprint == b.fingerprint
                && OnlyBearer(store.cas.View(), orig.ledger.pending.value.casName, r.value)
      ensures store.Recorded().pending == old(store.Recorded()).pending || Intended(b)
      ensures old(store.Undisturbed() && Free(b)) ==> r.Ok?
      ensures old(store.Undisturbed() && Unused(b)) ==> r.Ok? && Holds(r.value, b)
    {
      hide Store.Valid, Store.Course, Store.Undisturbed, Store.Alive, Decode, Step, Consistent, Inv, Owing, Free, OnlyBearer;
      hide Unused, Holds, Intended, Attempted;
      var err := Announce(b);
      if err.Some? { return Err(err.value); }
      r := SendUpload(b);
      if r.Ok? { ac := ac.(ledger := ac.ledger.(pending := None, casProbedAt := Some(now))); }
    }

    /** The part that has an effect: announce, upload, advance. It starts from a ledger just read. */
    method TakeUp(b: Bundle) returns (advanced: bool, err: Option<Error>, ghost gen: Option<Generation>)
      requires Valid() && store.Active() && b.fingerprint == store.loaded && |b.fingerprint| == FINGERPRINT_LEN
      requires ac.ledger == orig.ledger && Fresh()
      requires ac.ledger.current.Some? ==> ac.ledger.current.value.fingerprint != b.fingerprint
      modifies this, store, store.cas
      ensures Valid() && store.Later() && store.loaded == old(store.loaded)
      ensures store.reclaims == old(store.reclaims) && store.listings == old(store.listings)
      ensures (advanced <==> gen.Some?) && (advanced <==> err.None?)
      ensures advanced ==> Owes(gen, 0) && ac.ledger.current == gen
      ensures advanced ==>
                && gen.value == Generation(b.fingerprint, gen.value.certId, gen.value.casName, b.notBefore, b.notAfter, now)
                && (gen.value.certId.Some? <==> spec.upload)
                && gen.value.casName == (if spec.upload then CASName(store.owner.crName, b.fingerprint) else "")
                && (spec.upload ==>
                      OnlyBearer(store.cas.View(), CASName(store.owner.crName, b.fingerprint), gen.value.certId.value))
                && ac.ledger.casProbedAt == if spec.upload then Some(now) else store.Recorded().casProbedAt
      ensures !advanced ==> ac.ledger == orig.ledger
      ensures store.Recorded().pending == old(store.Recorded()).pending || Intended(b)
      ensures advanced && spec.upload && old(store.Undisturbed() && Unused(b)) ==> Holds(gen.value.certId.value, b)
      ensures old(store.Undisturbed() && (spec.upload ==> Free(b))) ==> err.None?
    {
      hide Store.Valid, Store.Course, Store.Undisturbed, Store.Alive, Decode, Step, Consistent, Inv, Owing, Free, OnlyBearer;
      hide Unused, Holds, Intended;
      advanced, err, gen := false, None, None;
      var certId, casName := None, "";
      if spec.upload {
        var r := Transfer(b);
        if r.Err? { return false, Some(r.error), None; }
        certId, casName := Some(r.value), orig.ledger.pending.value.casName;
      }
      var g := Generation(b.fingerprint, certId, casName, b.notBefore, b.notAfter, now);
      Advance(g);
      return true, None, Some(g);
    }

    /** Supersedes the current generation in memory; the blank a probe left is not worth keeping. */
    method Advance(g: Generation)
      requires Valid() && Fresh() && g.fingerprint == store.loaded != "" && g.uploadedAt == now
      requires ac.ledger.current == orig.ledger.current && ac.ledger.history == orig.ledger.history
      requires ac.ledger.current.Some? ==> ac.ledger.current.value.fingerprint != g.fingerprint
      requires ac.ledger.pending == if g.certId.Some? then None else orig.ledger.pending
      requires g.certId.Some? ==>
                 && orig.ledger.pending.Some? && orig.ledger.pending.value.fingerprint == g.fingerprint
                 && orig.ledger.pending.value.casName == g.casName
                 && OnlyBearer(store.cas.View(), g.casName, g.certId.value)
      modifies this`ac
      ensures Valid() && Owes(Some(g), 0)
      ensures ac.ledger == old(ac.ledger).(current := Some(g), history := ac.ledger.history)
      ensures ac.ledger.history ==
                (if old(ac.ledger.current).Some? && old(ac.ledger.current).value.fingerprint != ""
                 then [old(ac.ledger.current).value] else []) + old(ac.ledger.history)
      ensures ac.ledger.history == Held(orig.ledger)
      ensures g.certId.Some? ==> g.casName == CASName(store.owner.crName, g.fingerprint)
    {
      hide Store.Valid, Store.Course, Store.Undisturbed, Store.Alive, Decode, Step;
      store.Reachable();
      assert Seen() == store.Now();
      if g.certId.Some? {
        UploadedMaySettle(store.owner, store.Now(), g);
      } else {
        ObservedMaySettle(store.owner, store.Now(), g);
      }
      var history := ac.ledger.history;
      if ac.ledger.current.Some? && ac.ledger.current.value.fingerprint != "" {
        history := [ac.ledger.current.value] + history;
      }
      ac := ac.(ledger := ac.ledger.(current := Some(g), history := history));
      SettledWhole(orig.ledger, ac.ledger, g);
    }

    /** Whether the probe asks the cloud at all: not for an expired certificate, which the listing
        omits, and not before the interval is over. */
    predicate ProbeDue()
      reads this
    {
      && spec.upload && ac.ledger.current.Some? && ac.ledger.current.value.certId.Some?
      && now <= ac.ledger.current.value.notAfter
      && (ac.ledger.casProbedAt.Some? ==> now - ac.ledger.casProbedAt.value >= spec.probeInterval)
    }

    /** Asks whether the current certificate still exists, and blanks it in memory if the listing does
        not show it: which is to say, if it is gone, expired, or none of its domains contains the keyword. */
    method ProbeCAS(primary: string) returns (missing: bool, err: Option<Error>)
      requires Valid()
      modifies this`ac, store`turns, store`cluster, store`passed, store`worlds, store`events, store.cas
      ensures Valid() && store.Later()
      ensures old(ProbeDue()) <==>
                && spec.upload && old(ac).ledger.current.Some? && old(ac).ledger.current.value.certId.Some?
                && now <= old(ac).ledger.current.value.notAfter
                && (old(ac).ledger.casProbedAt.None? || now - old(ac).ledger.casProbedAt.value >= spec.probeInterval)
      ensures !old(ProbeDue()) || err.Some? ==> !missing && ac == old(ac)
      ensures old(ProbeDue()) ==> err == Failed(old(store.cas.NextTurn()).fault)
      ensures !old(ProbeDue()) ==> err.None? && store.cas.View() == old(store.cas.View())
      ensures old(ProbeDue()) && err.None? ==>
                var id, s := old(ac.ledger.current.value.certId.value), store.cas.View();
                var p := old(ac.ledger.pending);
                var hint := if p.Some? && p.value.domainHint != "" then p.value.domainHint
                            else if primary != "" then primary
                            else if spec.dnsNames != [] then spec.dnsNames[0]
                            else spec.commonName;
                && (missing <==> !(id in s.certs && Listed(s.certs[id], hint, now)))
                && ac == old(ac).(ledger := old(ac.ledger).(casProbedAt := Some(now),
                       current := if missing then Some(Blanked(old(ac.ledger.current.value))) else old(ac.ledger.current)))
      ensures old(store.Undisturbed()) ==> err.None? && store.cas.View() == old(store.cas.View())
    {
      hide Store.Valid, Store.Course, Store.Undisturbed, Store.Alive, Decode, Step, IsListing, Listed, Consistent;
      missing, err := false, None;
      if !spec.upload || ac.ledger.current.None? || ac.ledger.current.value.certId.None? { return; }
      if ac.ledger.current.value.notAfter < now { return; }
      if ac.ledger.casProbedAt.Some? && now - ac.ledger.casProbedAt.value < spec.probeInterval { return; }
      var list;
      list, err := store.FindUploaded(ProbeHint(ac.ledger.pending, primary, SpecHint(spec)), now);
      if err.Some? { return; }
      ac := ac.(ledger := ac.ledger.(casProbedAt := Some(now)));
      var current := ac.ledger.current.value;
      ghost var hint := ProbeHint(ac.ledger.pending, primary, SpecHint(spec));
      var present := Includes(list, current.certId.value, store.cas.View(), hint, now);
      if present { return; }
      ac := ac.(ledger := ac.ledger.(current := Some(Blanked(current))));
      return true, None;
    }

    /** The status patch that ends a round, or comes before the round goes on. The answer replaces the copy. */
    method PatchStatus(ghost e: Event) returns (err: Option<Error>)
      requires Valid() && Whole(store.Recorded(), orig.ledger, ac.ledger) && store.Fits(e)
      requires Step(store.owner, e, store.Now(),
                    store.Now().(ledger := MergedLedger(store.Recorded(), orig.ledger, ac.ledger)))
      modifies this`ac, store
      ensures Valid() && store.Later() && store.loaded == old(store.loaded) && store.mine == old(store.mine)
      ensures store.reclaims == old(store.reclaims) && store.listings == old(store.listings)
      ensures store.doc == old(store.doc) || Decode(store.doc) == Landed(old(store.doc), orig, old(ac))
      ensures err.None? ==> Decode(store.doc) == Landed(old(store.doc), orig, old(ac)) && ac == Decode(store.doc)
      ensures err.Some? ==> ac == old(ac)
      ensures old(store.Undisturbed() || store.Alive()) ==> err.None?
    {
      hide Store.Valid, Store.Course, Store.Undisturbed, Store.Alive, Decode, Step, Landed, MergedLedger, Whole, Store.Fits;
      var stored;
      stored, err := store.Patch(orig, ac, e);
      if err.None? { ac := stored; }
    }

    /** Ends a round that has changed at most conditions and the time of the last probe. */
    method EndIdle() returns (err: Option<Error>)
      requires Valid() && Idle()
      modifies this`ac, store
      ensures Valid() && store.Later() && store.loaded == old(store.loaded)
      ensures old(ac.ledger == orig.ledger) ==> store.Recorded() == old(store.Recorded())
      ensures err.None? ==> Decode(store.doc) == Landed(old(store.doc), orig, old(ac)) && ac == Decode(store.doc)
      ensures err.Some? ==> ac == old(ac)
      ensures old(store.Undisturbed() || store.Alive()) ==> err.None?
      ensures store.reclaims == old(store.reclaims) && store.listings == old(store.listings)
      ensures store.Recorded().pending == old(store.Recorded()).pending
    {
      hide Store.Valid, Store.Course, Store.Undisturbed, Store.Alive, Decode;
      ghost var merged := MergedLedger(store.Recorded(), orig.ledger, ac.ledger);
      assert merged == Settled(store.Recorded(), None, 0, merged.casProbedAt);
      err := PatchStatus(Settle(None, 0, merged.casProbedAt));
    }

    /** The effect of the patch that settles what is owed: of an up-to-date copy the ledger in memory, of an
        outdated one what is left of its history, if something was dropped. */
    ghost function Settling(gen: Option<Generation>, drop: nat): Event
      reads this, store
    {
      var probedAt := MergedLedger(store.Recorded(), orig.ledger, ac.ledger).casProbedAt;
      if Fresh() || drop == 0 then Settle(gen, drop, probedAt)
      else Rewrite(at, orig.ledger, if drop <= |orig.ledger.history| then |orig.ledger.history| - drop else 0, probedAt)
    }

    lemma SettlingIsStep(gen: Option<Generation>, drop: nat)
      requires Valid() && store.Active() && Owes(gen, drop)
      ensures var m := MergedLedger(store.Recorded(), orig.ledger, ac.ledger);
              && Step(store.owner, Settling(gen, drop), store.Now(), store.Now().(ledger := m))
              && (Fresh() ==> m == ac.ledger)
              && (!Fresh() ==> m == store.Recorded().(casProbedAt := m.casProbedAt,
                                 history := if drop == 0 then store.Recorded().history else ac.ledger.history))
      ensures Whole(store.Recorded(), orig.ledger, ac.ledger) && store.Fits(Settling(gen, drop))
    {
      hide Store.Valid, Store.Course, Store.Undisturbed, Store.Alive, Decode;
      store.Earlier(at);
      if Fresh() {
        MergedFromItself(orig.ledger, ac.ledger);
        assert Seen() == store.Now();
      } else {
        hide RecordOk, Sole;
        var h := orig.ledger.history;
        assert h[..|h|] == h;
      }
    }

    /** And a record goes only with the generation it announced. */
    lemma SettlingLands(gen: Option<Generation>, drop: nat)
      requires Valid() && store.Active() && Owes(gen, drop)
      ensures var m := MergedLedger(store.Recorded(), orig.ledger, ac.ledger);
              && Landed(store.doc, orig, ac).ledger == m && m.pending in {store.Recorded().pending, None}
    {
      hide Store.Valid, Store.Course, Store.Undisturbed, Store.Alive, Decode, Step, SettleOk;
      SettlingIsStep(gen, drop);
      hide MergedLedger;
    }

    /** Ends a round that settles what it owes. */
    method EndSettled(ghost gen: Option<Generation>, ghost drop: nat) returns (err: Option<Error>)
      requires Valid() && store.Active() && Owes(gen, drop)
      modifies this`ac, store
      ensures Valid() && store.Later() && store.loaded == old(store.loaded)
      ensures store.listings == old(store.listings) && store.reclaims == old(store.reclaims)
      ensures err.None? && old(Fresh()) ==> store.Recorded() == old(ac.ledger)
      ensures err.None? && old(!Fresh()) ==>
                store.Recorded() == old(store.Recorded()).(casProbedAt := store.Recorded().casProbedAt,
                    history := if drop == 0 then old(store.Recorded()).history else old(ac.ledger).history)
      ensures old(store.Undisturbed() || store.Alive()) ==> err.None?
      ensures store.Recorded().pending in {old(store.Recorded()).pending, None}
    {
      hide Store.Valid, Store.Course, Store.Undisturbed, Store.Alive, Decode, Step, Owes, Whole, MergedLedger, Store.Fits;
      hide Settling, Landed;
      SettlingIsStep(gen, drop);
      SettlingLands(gen, drop);
      err := PatchStatus(Settling(gen, drop));
    }

    /** Deletes the certificate of the oldest generation. */
    method ReclaimOldest(oldest: Generation, ghost gen: Option<Generation>, ghost drop: nat) returns (err: Option<Error>)
      requires Valid() && Owes(gen, drop) && oldest.certId.Some?
      requires !store.cluster.recurred ==> Retired(store.cluster, oldest.fingerprint) && MayGo(oldest, gen)
      modifies store`turns, store`cluster, store`passed, store`worlds, store`events, store`reclaims, store.cas
      ensures Valid() && store.Later() && Owes(gen, drop)
      ensures err.None? || ClassOf(err.value) == NotFound ==> oldest.certId.value !in store.cas.certs
      ensures store.cluster.recurred || (forall fp :: Retired(old(store.cluster), fp) ==> Retired(store.cluster, fp))
      ensures |store.reclaims| == |old(store.reclaims)| + 1
      ensures store.reclaims[|old(store.reclaims)|].gone == oldest
      ensures store.reclaims[|old(store.reclaims)|].confirmed == Confirms(err)
      ensures old(store.Undisturbed()) ==> Confirms(err)
    {
      hide Store.Valid, Store.Course, Store.Undisturbed, Store.Alive, Decode, Step, Retired, Consistent, External, Deleted, Owing;
      hide Inv, Serves;
      hide AllEdited, SettleOk, Confirms, Distinct;
      store.Earlier(at);
      ghost var w := Seen();
      if gen.Some? { MaySettleWhole(store.owner, store.Now(), orig.ledger, ac.ledger, gen, drop); }
      DeleteSurvives(oldest.certId.value);
      err := store.Reclaim(oldest, gen);
      OwingSurvives(store.owner, w, Seen(), orig.ledger, ac.ledger, gen, drop);
    }

    /** What comes of a Delete. */
    lemma DeleteSurvives(id: int)
      requires store.Valid()
      ensures var (after, err) := Deleted(store.cas.Reached(), store.cas.NextTurn(), id);
              && External(store.cas.View(), after)
              && (err.None? || ClassOf(err.value) == NotFound ==> id !in after.certs)
              && (store.Undisturbed() ==> Confirms(err)) && (store.Alive() ==> err != Some(Crash))
    {
      hide Store.Valid, Store.Course, Store.Undisturbed, Store.Alive, Decode, Consistent, External, Deleted, AllEdited, Confirms;
      SeenIsConsistent();
      var t := store.cas.NextTurn();
      DeleteIsExternal(store.cas.View(), t, id);
      DeleteConfirmed(AllEdited(store.cas.View(), t.edits), t, id);
      store.DeleteAnswers(id);
    }

    lemma SeenIsConsistent()
      requires store.Valid()
      ensures Consistent(store.cas.View()) && Truthful(store.cas.NextTurn())
    {
    }

    /** A generation that is not the one in service, nor the one the status still calls current, unless that
        is about to be superseded. */
    ghost predicate MayGo(g: Generation, gen: Option<Generation>)
      reads store
    {
      g.certId.Some? ==>
        && Distinct(g, gen)
        && (store.Recorded().current.Some? && store.Recorded().current.value.certId == g.certId ==>
              gen.Some? && store.Recorded().current == Some(g))
    }

    /** What passes the guards may be deleted. */
    ghost predicate Cleared(h: seq<Generation>, minAge: int, bindings: seq<BindingView>, gen: Option<Generation>)
      reads this, store
    {
      !store.cluster.recurred ==> forall i :: 0 <= i < |h| && Reclaimable(h[i], now, minAge, bindings) ==>
        Retired(store.cluster, h[i].fingerprint) && MayGo(h[i], gen)
    }

    /** Drops the oldest generation, once its certificate is gone. */
    method DropOldest(minAge: int, ghost bindings: seq<BindingView>, ghost gen: Option<Generation>, ghost drop: nat)
      returns (err: Option<Error>)
      requires Valid() && Owes(gen, drop) && ac.ledger.history != []
      requires Reclaimable(ac.ledger.history[|ac.ledger.history| - 1], now, minAge, bindings)
      requires Cleared(ac.ledger.history, minAge, bindings, gen)
      modifies this`ac, store`turns, store`cluster, store`passed, store`worlds, store`events, store`reclaims, store.cas
      ensures Valid() && store.Later() && Cleared(ac.ledger.history, minAge, bindings, gen)
      ensures err.Some? ==> ac == old(ac) && Owes(gen, drop)
      ensures err.None? ==> Owes(gen, drop + 1)
      ensures err.None? ==>
                ac == old(ac).(ledger := old(ac.ledger).(history := old(ac.ledger.history)[..|old(ac.ledger.history)| - 1]))
      ensures var oldest := old(ac.ledger.history)[|old(ac.ledger.history)| - 1];
              && (oldest.certId.None? ==> err.None? && store.reclaims == old(store.reclaims))
              && (oldest.certId.Some? ==>
                    && |store.reclaims| == |old(store.reclaims)| + 1
                    && store.reclaims[|old(store.reclaims)|].gone == oldest
                    && store.reclaims[|old(store.reclaims)|].confirmed == err.None?)
      ensures old(store.Undisturbed()) ==> err.None?
    {
      hide Store.Valid, Store.Course, Store.Undisturbed, Store.Alive, Decode, Step, Retired, Consistent, External, Owing;
      hide Reclaimable, Distinct;
      var oldest := ac.ledger.history[|ac.ledger.history| - 1];
      if oldest.certId.Some? {
        err := ReclaimOldest(oldest, gen, drop);
        if err.Some? && ClassOf(err.value) != NotFound { return; }
      }
      err := None;
      OneMoreDropped(store.owner, Seen(), orig.ledger, ac.ledger, gen, drop);
      ac := ac.(ledger := ac.ledger.(history := ac.ledger.history[..|ac.ledger.history| - 1]));
    }

    /** Oldest first, stopping at the first generation that a guard protects or the cloud will not delete.
        Exactly those are dropped whose Deletes were confirmed. */
    method DropExcess(bindings: seq<BindingView>, ghost gen: Option<Generation>) returns (err: Option<Error>, ghost drop: nat)
      requires Valid() && Owes(gen, 0) && Cleared(ac.ledger.history, MinAgeOrDefault(spec.minAge), bindings, gen)
      modifies this`ac, store`turns, store`cluster, store`passed, store`worlds, store`events, store`reclaims, store.cas
      ensures Valid() && store.Later() && Owes(gen, drop) && drop <= |old(ac.ledger.history)|
      ensures ac == old(ac).(ledger := old(ac.ledger).(
                     history := old(ac.ledger.history)[..|old(ac.ledger.history)| - drop]))
      ensures var keep := if spec.keepLast < 1 then 2 else spec.keepLast;
              var minAge := if spec.minAge.None? then 86400 else spec.minAge.value;
              var most := DropCount(old(ac.ledger.history), keep, now, minAge, bindings);
              if err.None? then drop == most else drop < most
      ensures Accounts(old(ac.ledger.history), store.reclaims[|old(store.reclaims)|..], drop, err.Some?)
      ensures old(store.Undisturbed()) ==> err.None?
    {
      hide Store.Valid, Store.Course, Store.Undisturbed, Store.Alive, Decode, Owes, Reclaimable, DropCount, Cleared, Goners;
      hide Accounts;
      var keep, minAge := KeepLastOrDefault(spec.keepLast), MinAgeOrDefault(spec.minAge);
      var excess := 1 + |ac.ledger.history| - keep;
      ghost var start := ac;
      ghost var h := ac.ledger.history;
      ghost var r0 := |store.reclaims|;
      assert h[..|h|] == h;
      err, drop := None, 0;
      NothingSent(h, store.reclaims);
      while excess > 0 && ac.ledger.history != []
        invariant Valid() && store.Later() && Owes(gen, drop) && drop <= |h|
        invariant ac == start.(ledger := start.ledger.(history := h[..|h| - drop]))
        invariant excess == 1 + |ac.ledger.history| - keep
        invariant DropCount(h, keep, now, minAge, bindings) == drop + DropCount(ac.ledger.history, keep, now, minAge, bindings)
        invariant Cleared(ac.ledger.history, minAge, bindings, gen) && err.None?
        invariant r0 <= |store.reclaims| && Accounts(h, store.reclaims[r0..], drop, false)
        decreases |ac.ledger.history|
      {
        var ok := MayReclaim(ac.ledger.history[|ac.ledger.history| - 1], now, minAge, bindings);
        if !ok {
          DropCountStops(ac.ledger.history, keep, now, minAge, bindings);
          return;
        }
        DropCountStep(ac.ledger.history, keep, now, minAge, bindings);
        ghost var before := store.reclaims;
        err := DropOldest(minAge, bindings, gen, drop);
        OneMoreSent(h, drop, before[r0..], store.reclaims[r0..], err.Some?);
        if err.Some? { return; }
        excess, drop := excess - 1, drop + 1;
      }
      DropCountStops(ac.ledger.history, keep, now, minAge, bindings);
    }

    lemma NothingSent(h: seq<Generation>, rs: seq<Reclamation>)
      ensures Accounts(h, rs[|rs|..], 0, false)
    {
    }

    lemma OneMoreSent(h: seq<Generation>, drop: nat, rs: seq<Reclamation>, rs': seq<Reclamation>, failed: bool)
      requires drop < |h| && Accounts(h, rs, drop, false)
      requires var g := h[|h| - drop - 1];
               if g.certId.None? then !failed && rs' == rs
               else |rs'| == |rs| + 1 && rs'[..|rs|] == rs && rs'[|rs|].gone == g && rs'[|rs|].confirmed == !failed
      ensures Accounts(h, rs', if failed then drop else drop + 1, failed)
    {
      var g := h[|h| - drop - 1];
      if g.certId.Some? { assert Goners(rs') == Goners(rs) + [g]; }
    }

    /** There are no more generations than configured, or the oldest one is protected by what was listed
        since before. */
    ghost predicate Trimmed(h: seq<Generation>, before: seq<Cluster>, after: seq<Cluster>) {
      spec.upload ==>
        || 1 + |h| <= KeepLastOrDefault(spec.keepLast)
        || (|before| < |after| &&
            !Reclaimable(h[|h| - 1], now, MinAgeOrDefault(spec.minAge),
                         Referencing(after[|after| - 1].bindings, store.owner.crName)))
    }

    /** Every Delete of the retention policy since was for a generation old enough. */
    twostate predicate Waited()
      reads store
    {
      |old(store.reclaims)| <= |store.reclaims| &&
      OldEnoughAll(store.reclaims[|old(store.reclaims)|..], now, MinAgeOrDefault(spec.minAge))
    }

    /** Shrinks current and history to the configured count, as far as the guards allow. */
    method ReclaimOldGenerations(ghost gen: Option<Generation>) returns (err: Option<Error>, ghost drop: nat)
      requires Valid() && Owes(gen, 0)
      modifies this`ac, store`turns, store`cluster, store`passed, store`worlds, store`events, store`reclaims,
               store`listings, store.cas
      ensures Valid() && store.Later() && Owes(gen, drop)
      ensures drop <= |old(ac.ledger.history)|
      ensures err.None? ==> Trimmed(ac.ledger.history, old(store.listings), store.listings)
      ensures ac == old(ac).(ledger := old(ac.ledger).(
                     history := old(ac.ledger.history)[..|old(ac.ledger.history)| - drop]))
      ensures var keep := if spec.keepLast < 1 then 2 else spec.keepLast;
              var minAge := if spec.minAge.None? then 86400 else spec.minAge.value;
              var most := DropCount(old(ac.ledger.history), keep, now, minAge,
                                    Referencing(old(store.Ahead()).bindings, store.owner.crName));
              && (err.None? ==> drop == if spec.upload then most else 0)
              && (err.Some? ==> drop == 0 || drop < most)
      ensures (err.Some? && drop == 0 && store.reclaims == old(store.reclaims)) ||
              Accounts(old(ac.ledger.history), store.reclaims[|old(store.reclaims)|..], drop, err.Some?)
      ensures old(store.Undisturbed()) ==> err.None?
      ensures PassedGuards(store.reclaims[|old(store.reclaims)|..], now,
                           if spec.minAge.None? then 86400 else spec.minAge.value,
                           old(store.Ahead()).bindings, store.owner.crName)
      ensures !spec.upload || 1 + |old(ac.ledger.history)| <= (if spec.keepLast < 1 then 2 else spec.keepLast) ==>
                err.None? && ac == old(ac) && store.turns == old(store.turns) && store.listings == old(store.listings)
    {
      hide Store.Valid, Store.Course, Store.Undisturbed, Store.Alive, Decode, Owes, Reclaimable, AllMoved, Accounts, Cleared;
      err, drop := None, 0;
      ghost var h := ac.ledger.history;
      assert h[..|h|] == h;
      NothingSent(h, store.reclaims);
      if !spec.upload { return; }
      var keep := KeepLastOrDefault(spec.keepLast);
      var excess := 1 + |ac.ledger.history| - keep;
      if excess <= 0 { return; }
      var bindings;
      bindings, err := List(gen);
      if err.Some? { return; }
      ghost var listed := store.cluster.bindings;
      AllCleared(bindings, MinAgeOrDefault(spec.minAge), gen);
      err, drop := DropExcess(bindings, gen);
      ReclaimsPassedGuards(h, store.reclaims[|old(store.reclaims)|..], drop, err.Some?, keep, now,
                           MinAgeOrDefault(spec.minAge), listed, store.owner.crName);
      DropCountExact(h, keep, now, MinAgeOrDefault(spec.minAge), bindings);
    }

    method List(ghost gen: Option<Generation>) returns (bindings: seq<BindingView>, err: Option<Error>)
      requires Valid() && Owes(gen, 0)
      modifies store`turns, store`cluster, store`passed, store`listings
      ensures Valid() && store.Later() && Owes(gen, 0)
      ensures store.cluster == old(store.Ahead()) && store.listings == old(store.listings) + [store.cluster]
      ensures err.None? ==> bindings == Referencing(store.cluster.bindings, store.owner.crName)
      ensures old(store.Undisturbed() || store.Alive()) ==> err.None?
    {
      hide Store.Valid, Store.Course, Store.Undisturbed, Store.Alive, Decode, Owing, AllMoved;
      bindings, err := store.ListBindings();
    }

    /** The probe is due, and a listing for the keyword does not show the current certificate: the keyword on
        record, if an upload is pending, or else the first name of the material, or else that of the spec. */
    ghost predicate Misses(primary: string)
      reads this, store.cas
    {
      ProbeDue() &&
      var hint := if ac.ledger.pending.Some? && ac.ledger.pending.value.domainHint != "" then ac.ledger.pending.value.domainHint
                  else if primary != "" then primary
                  else if spec.dnsNames != [] then spec.dnsNames[0]
                  else spec.commonName;
      var id := ac.ledger.current.value.certId.value;
      !(id in store.cas.certs && Listed(store.cas.certs[id], hint, now))
    }

    /** The probe, whose failure never ends a round, and the patch that keeps its finding. */
    method Probe(primary: string) returns (alive: bool)
      requires Valid() && store.Active() && ac.ledger == orig.ledger
      modifies this, store, store.cas
      ensures Valid() && store.Later() && store.loaded == old(store.loaded)
      ensures store.listings == old(store.listings) && store.reclaims == old(store.reclaims)
      ensures alive ==> Idle() && (old(Fresh()) ==> Fresh())
      ensures alive && old(Fresh() && ProbeDue()) && old(store.cas.NextTurn()).fault.Healthy? ==> ac.ledger.casProbedAt == Some(now)
      ensures alive ==>
                || (ac.ledger.current == old(ac.ledger).current && orig == old(orig) && store.doc == old(store.doc))
                || (Fresh() && old(ac.ledger).current.Some? && old(ac.ledger).current.value.certId.Some? &&
                    old(store.Recorded()).current.Some? &&
                    store.Recorded().current == Some(Blanked(old(store.Recorded()).current.value)))
      ensures old(store.Undisturbed()) ==> alive && store.cas.View() == old(store.cas.View())
      ensures store.Recorded().pending == old(store.Recorded()).pending
      ensures old(store.Undisturbed() && Fresh()) ==>
                if old(Misses(primary))
                then ac.ledger.current == Some(Blanked(old(ac.ledger).current.value))
                else ac.ledger.current == old(ac.ledger).current
      ensures old(ProbeDue()) && Failed(old(store.cas.NextTurn()).fault) == Some(Crash) ==> !alive
    {
      hide Store.Valid, Store.Course, Store.Undisturbed, Store.Alive, Decode, Step, Consistent, Listed;
      var missing, err := ProbeCAS(primary);
      if err == Some(Crash) { return false; }
      if missing { err := PersistErasure(); }
      return !missing || err.None?;
    }

    lemma CopyIsRecorded()
      requires Inv(store.owner, Seen()) && orig.ledger.current.Some? && orig.ledger.current.value.certId.Some?
      ensures orig.ledger.current.value.fingerprint != ""
    {
    }

    /** What the probe's patch will have done. */
    lemma ErasureLands()
      requires Valid() && store.Active() && orig.ledger.current.Some? && orig.ledger.current.value.certId.Some?
      requires ac.ledger == orig.ledger.(current := Some(Blanked(orig.ledger.current.value)),
                                         casProbedAt := ac.ledger.casProbedAt)
      ensures Whole(store.Recorded(), orig.ledger, ac.ledger) && store.Recorded().current.Some?
      ensures var m := MergedLedger(store.Recorded(), orig.ledger, ac.ledger);
              && Landed(store.doc, orig, ac).ledger == m
              && m == store.Recorded().(current := Some(Blanked(store.Recorded().current.value)), casProbedAt := m.casProbedAt)
              && (Fresh() ==> m == ac.ledger)
              && Step(store.owner, ProbeErase(m.casProbedAt), store.Now(), store.Now().(ledger := m))
              && store.Fits(ProbeErase(m.casProbedAt))
    {
      hide Store.Valid, Store.Course, Store.Undisturbed, Store.Alive, Decode, MergedLedger, Whole, WellFormed, Inv, Step, Store.Fits;
      store.Earlier(at);
      CopyIsRecorded();
      ErasureMerges(store.Recorded(), orig.ledger, ac.ledger);
      ErasureIsStep(MergedLedger(store.Recorded(), orig.ledger, ac.ledger));
    }

    lemma ErasureIsStep(m: Ledger)
      requires Valid() && store.Active() && store.Recorded().current.Some?
      requires m == store.Recorded().(current := Some(Blanked(store.Recorded().current.value)), casProbedAt := m.casProbedAt)
      ensures Step(store.owner, ProbeErase(m.casProbedAt), store.Now(), store.Now().(ledger := m))
      ensures store.Fits(ProbeErase(m.casProbedAt))
    {
      hide Store.Valid, Store.Course, Store.Undisturbed, Store.Alive, Decode, Inv;
    }

    /** The probe's finding is written down before the round goes on: the re-read that comes next would
        otherwise bring the erased id back. From an outdated copy, it is the generation the server holds by
        then that loses id and fingerprint. Copy and baseline then are what is stored. */
    method PersistErasure() returns (err: Option<Error>)
      requires Valid() && store.Active() && orig.ledger.current.Some? && orig.ledger.current.value.certId.Some?
      requires ac.ledger == orig.ledger.(current := Some(Blanked(orig.ledger.current.value)),
                                         casProbedAt := ac.ledger.casProbedAt)
      modifies this, store
      ensures Valid() && store.Later() && store.loaded == old(store.loaded)
      ensures store.listings == old(store.listings) && store.reclaims == old(store.reclaims)
      ensures err.None? ==> ac.ledger == orig.ledger && Fresh() && old(store.Recorded()).current.Some?
      ensures err.None? ==>
                store.Recorded() == old(store.Recorded()).(casProbedAt := store.Recorded().casProbedAt,
                                      current := Some(Blanked(old(store.Recorded()).current.value)))
      ensures err.None? && old(Fresh()) ==> store.Recorded() == old(ac.ledger)
      ensures old(store.Undisturbed() || store.Alive()) ==> err.None?
      ensures store.Recorded().pending == old(store.Recorded()).pending
    {
      hide Store.Valid, Store.Course, Store.Undisturbed, Store.Alive, Decode, MergedLedger, Landed, Whole, WellFormed, Inv, Step;
      hide Store.Fits;
      ErasureLands();
      err := PatchStatus(ProbeErase(MergedLedger(store.Recorded(), orig.ledger, ac.ledger).casProbedAt));
      if err.None? {
        LatestWorld();
        orig, at := ac, |store.worlds| - 1;
      }
    }

    /** Retention, and the patch that ends the round. A failed Delete leaves the conditions alone. */
    method Finish(ghost gen: Option<Generation>) returns (done: bool)
      requires Valid() && store.Active() && Owes(gen, 0)
      modifies this, store, store.cas
      ensures Valid() && store.Later()
      ensures done && old(Fresh()) ==>
                && store.Recorded().current == old(ac.ledger.current)
                && store.Recorded().casProbedAt == old(ac.ledger.casProbedAt)
                && Trimmed(store.Recorded().history, old(store.listings), store.listings)
      ensures done && old(!Fresh()) ==>
                && store.Recorded().current == old(store.Recorded()).current
                && (store.Recorded().history == old(store.Recorded()).history || store.Recorded().history <= old(ac.ledger).history)
                && ((store.Recorded().history == old(store.Recorded()).history &&
                     Trimmed(old(ac.ledger).history, old(store.listings), store.listings)) ||
                    Trimmed(store.Recorded().history, old(store.listings), store.listings))
      ensures old(store.Undisturbed()) ==> done
      ensures store.loaded == old(store.loaded)
      ensures Waited()
      ensures store.Recorded().pending in {old(store.Recorded()).pending, None}
    {
      hide Store.Valid, Store.Course, Store.Undisturbed, Store.Alive, Decode, Owing, DropCount, Trimmed, Accounts, Serves;
      hide OldEnoughAll;
      ghost var h := ac.ledger.history;
      assert h[..|h|] == h;
      var err, drop := ReclaimOldGenerations(gen);
      if err == Some(Crash) { return false; }
      var perr := EndSettled(gen, drop);
      return err.None? && perr.None?;
    }

    /** Nothing was advanced: what is owed is at most a shorter history. */
    lemma NothingOwed()
      requires Valid() && Idle() && (Fresh() || Serves(orig.ledger, store.loaded))
      ensures Owes(None, 0)
    {
      assert ac.ledger.history[..|ac.ledger.history|] == ac.ledger.history;
    }

    /** The generation of b has become current in this round. */
    ghost predicate Taken(b: Bundle)
      reads store`doc
    {
      store.Recorded().current.Some? &&
      var g := store.Recorded().current.value;
      && g.fingerprint == b.fingerprint && g.notBefore == b.notBefore && g.notAfter == b.notAfter && g.uploadedAt == now
      && (g.certId.Some? <==> spec.upload)
      && g.casName == if spec.upload then CASName(store.owner.crName, b.fingerprint) else ""
    }

    /** From the upload to the final patch. */
    method Serve(b: Bundle) returns (done: bool)
      requires Valid() && store.Active() && b.fingerprint == store.loaded && |b.fingerprint| == FINGERPRINT_LEN
      requires Idle()
      modifies this, store, store.cas
      ensures Valid() && store.Later()
      ensures done && old(Fresh()) ==>
                && Serves(store.Recorded(), b.fingerprint)
                && Trimmed(store.Recorded().history, old(store.listings), store.listings)
                && (spec.upload && old(ac.ledger).casProbedAt == Some(now) ==> store.Recorded().casProbedAt == Some(now))
                && (spec.upload ==>
                      (store.Recorded().current.value.certId.Some? <==>
                         !(Serves(old(ac.ledger), b.fingerprint) && old(ac.ledger).current.value.certId.None?)))
      ensures done && old(!Fresh()) ==>
                || (Serves(store.Recorded(), b.fingerprint) && Trimmed(store.Recorded().history, old(store.listings), store.listings))
                || (Serves(old(ac.ledger), b.fingerprint) && store.Recorded().current == old(store.Recorded()).current &&
                    (store.Recorded().history == old(store.Recorded()).history || store.Recorded().history <= old(ac.ledger).history))
      ensures old(store.Undisturbed() && (spec.upload ==> Free(b))) ==> done
      ensures store.loaded == old(store.loaded)
      ensures Waited()
      ensures store.Recorded().pending in {old(store.Recorded()).pending, None} || Intended(b)
      ensures done && old(Fresh()) ==>
                if Serves(old(ac.ledger), b.fingerprint) then store.Recorded().current == old(ac.ledger).current
                else Taken(b)
    {
      hide Store.Valid, Store.Course, Store.Undisturbed, Store.Alive, Decode, Owing, OnlyBearer, Trimmed, WellFormed;
      hide Unused, Holds, Free;
      var advanced, err, gen := EnsureUploaded(b);
      if err.Some? {
        if err != Some(Crash) { var _ := EndIdle(); }
        return false;
      }
      if !advanced { NothingOwed(); }
      done := Finish(gen);
    }

    /** From validated material to the final patch, from whatever copy the cache held. A crash (or a failed
        call) may end the round anywhere; what it leaves behind is the store. A round that ends well with an
        up-to-date copy has persisted the generation it read, uploaded if uploading is on, but for the one
        that was recorded without a certificate before: that one stays as it is. An outdated copy in which
        the generation looks recorded leaves the current one as it is stored. */
    method ReconcileIssued(b: Bundle) returns (done: bool)
      requires Valid() && store.Active() && b.fingerprint == store.loaded && |b.fingerprint| == FINGERPRINT_LEN
      requires ac.ledger == orig.ledger
      modifies this, store, store.cas
      ensures Valid() && store.Later()
      ensures done && old(Fresh()) ==> Serves(store.Recorded(), b.fingerprint)
      ensures done && old(Fresh()) ==> Trimmed(store.Recorded().history, old(store.listings), store.listings)
      ensures done && old(Fresh() && ProbeDue()) && old(store.cas.NextTurn()).fault.Healthy? ==>
                store.Recorded().casProbedAt == Some(now)
      ensures done && old(Fresh()) && spec.upload ==>
                (store.Recorded().current.value.certId.Some? <==>
                   !(Serves(old(store.Recorded()), b.fingerprint) && old(store.Recorded()).current.value.certId.None?))
      ensures done && old(!Fresh()) ==>
                || (Serves(store.Recorded(), b.fingerprint) && Trimmed(store.Recorded().history, old(store.listings), store.listings))
                || (Serves(old(ac.ledger), b.fingerprint) && store.Recorded().current == old(store.Recorded()).current &&
                    (store.Recorded().history == old(store.Recorded()).history || store.Recorded().history <= old(ac.ledger).history))
      ensures old(store.Undisturbed() && (spec.upload ==> Free(b))) ==> done
      ensures store.loaded == old(store.loaded)
      ensures forall i :: |old(store.reclaims)| <= i < |store.reclaims| ==>
                now - store.reclaims[i].gone.uploadedAt >= if spec.minAge.None? then 86400 else spec.minAge.value
      ensures store.Recorded().pending in {old(store.Recorded()).pending, None} || Intended(b)
      ensures old(Fresh() && store.Undisturbed() && (spec.upload ==> Free(b))) ==>
                if Serves(old(ac.ledger), b.fingerprint) && !old(Misses(if b.domains == [] then "" else b.domains[0]))
                then store.Recorded().current == old(ac.ledger).current
                else Taken(b)
    {
      hide Store.Valid, Store.Course, Store.Undisturbed, Store.Alive, Decode, Owing, Trimmed, Store.Active, WellFormed;
      var alive := Probe(FindHint(b.domains));
      if !alive { return false; }
      done := Serve(b);
    }

    /** What passes the guards against the Bindings just listed is cleared. */
    lemma AllCleared(bindings: seq<BindingView>, minAge: int, gen: Option<Generation>)
      requires Valid() && Owes(gen, 0)
      requires bindings == Referencing(store.cluster.bindings, store.owner.crName)
      ensures Cleared(ac.ledger.history, minAge, bindings, gen)
    {
      hide Store.Valid, Store.Course, Store.Undisturbed, Store.Alive, Decode, Retired, Reclaimable, Known, Distinct;
      if store.cluster.recurred { return; }
      var c, settled := store.cluster, InService(store.events);
      store.InStepSince(at);
      store.Reachable();
      store.Earlier(at);
      forall i | 0 <= i < |ac.ledger.history| && Reclaimable(ac.ledger.history[i], now, minAge, bindings)
        ensures Retired(c, ac.ledger.history[i].fingerprint) && MayGo(ac.ledger.history[i], gen)
      {
        var g := ac.ledger.history[i];
        OwedGeneration(store.owner, store.cas.View(), c, orig.ledger, gen, store.loaded, settled, i);
        PassedIsRetired(c, g, now, minAge);
        MayGoIfOwed(g, gen, settled);
      }
    }

    lemma MayGoIfOwed(g: Generation, gen: Option<Generation>, settled: string)
      requires Valid() && Owes(gen, 0) && RecordOk(store.owner, store.cas.View(), g)
      requires Known(store.cluster, store.loaded) && g.fingerprint in store.cluster.seen && g.fingerprint != store.loaded
      requires g.fingerprint != settled || (gen.Some? && Recorded().current == Some(g))
      requires Tracked(store.cluster, Recorded(), store.loaded, settled) && InForce(Recorded(), settled)
      ensures MayGo(g, gen)
    {
      hide Store.Valid, Store.Course, Store.Undisturbed, Store.Alive, Decode, Known, RestGone, Sole, Retired;
      store.Reachable();
      var c, o, s := store.cluster, store.owner, store.cas.View();
      if g.certId.Some? {
        assert store.loaded in c.seen by { LoadedIsKnown(c, store.loaded); }
        if gen.Some? { NoSharedId(c, store.loaded, o, s, g, gen.value); }
        if Recorded().current.Some? && Recorded().current.value.certId == g.certId && g.fingerprint != settled {
          NoSharedId(c, store.loaded, o, s, g, Recorded().current.value);
        }
      }
    }

    ghost function Recorded(): Ledger
      reads store
    {
      store.Recorded()
    }
  }

  lemma LoadedIsKnown(c: Cluster, loaded: string)
    requires Known(c, loaded)
    ensures loaded in c.seen
  {
  }

  /** A generation of the history a round leaves: sound, and superseded by what was read; and it is not the
      one in force, unless the round has just superseded that. */
  lemma OwedGeneration(o: Owner, s: CasState, c: Cluster, l: Ledger, gen: Option<Generation>, loaded: string, settled: string, i: nat)
    requires i < |Advanced(l, gen).history| && Sound(o, s, l)
    requires Known(c, loaded) && Tracked(c, l, loaded, settled) && (gen.Some? ==> InForce(l, settled))
    requires gen.Some? ==> gen.value.fingerprint == loaded != "" &&
                           (l.current.Some? ==> l.current.value.fingerprint != loaded)
    ensures var g := Advanced(l, gen).history[i];
            && RecordOk(o, s, g) && g.fingerprint != "" && g.fingerprint in c.seen
            && g.fingerprint != c.served && g.fingerprint != loaded
            && (g.fingerprint != settled || (gen.Some? && l.current == Some(g)))
  {
    var h := Advanced(l, gen).history;
    var extra := |h| - |l.history|;
    if i >= extra { assert h[i] == l.history[i - extra]; }
    hide Known;
    if gen.Some? {
      AdvanceKeepsTracked(l, gen.value, c, loaded, settled);
      assert Superseded(c, h[i].fingerprint, loaded, loaded);
    }
  }

  /** What passes the guards against the Bindings of the moment, and has left the Secret, is retired. */
  lemma PassedIsRetired(c: Cluster, g: Generation, now: int, minAge: int)
    requires g.fingerprint in c.seen && g.fingerprint != c.served && g.fingerprint != ""
    requires Reclaimable(g, now, minAge, Referencing(c.bindings, c.crName))
    ensures Retired(c, g.fingerprint)
  {
    forall j | 0 <= j < |c.bindings| && c.bindings[j].certificateRef == c.crName
      ensures c.bindings[j].appliedFingerprint != g.fingerprint
    {
      ReferencingExact(c.bindings, c.crName, c.bindings[j]);
    }
  }
}
