/**
 Deletion of an AliyunCertificate: live Bindings block it, then the certificates in the cloud go,
 then the cert-manager Certificate, then the Secret, and last the finalizer.
 */
module Teardown {
  import opened Wrappers
  import opened Json
  import opened Status
  import opened Naming
  import opened Cas
  import opened LedgerRuns
  import opened Retries
  import opened Retention
  import opened Surroundings
  import opened Epochs
  import opened Persistence
  import opened CertificateRound
  import opened ClusterObjects
  import opened CleanupPolicy

  /** Where the Secret in service is looked for. */
  function ServingName(status: string, spec: string): string {
    if status != "" then status else spec
  }

  predicate AnyLive(bindings: seq<BindingView>) {
    exists i :: 0 <= i < |bindings| && !bindings[i].deleting
  }

  /** Clearing is never undone by what others do in the cloud. */
  lemma CleanedSurvives(o: Owner, w: World, v: World, l: Ledger)
    requires Inv(o, w) && Cleaned(w, l) && v.ledger == w.ledger && External(w.cas, v.cas)
    ensures Cleaned(v, l)
  {
    forall i | 0 <= i < |l.history| ensures ClearedOrKept(v.cas, w.ledger.history[i], l.history[i]) {
      GoneStaysGone(o, w.cas, v.cas, w.ledger.history[i], l.history[i]);
    }
    if l.current.Some? { GoneStaysGone(o, w.cas, v.cas, w.ledger.current.value, l.current.value); }
  }

  lemma GoneStaysGone(o: Owner, s: CasState, t: CasState, g: Generation, h: Generation)
    requires Consistent(s) && RecordOk(o, s, g) && External(s, t) && ClearedOrKept(s, g, h)
    ensures ClearedOrKept(t, g, h)
  {
    if g.certId.Some? {
      var id := g.certId.value;
      assert id in s.issued && (id in t.certs ==> id in s.certs);
    }
  }

  /** A certificate of ours the write-ahead record announced is there only if a listing for this keyword
      would not show it. */
  predicate OnlyOverlooked(mine: set<int>, s: CasState, p: PendingUpload, hint: string, now: int) {
    forall id :: id in mine && id in s.certs && s.certs[id].name == p.casName ==> !Listed(s.certs[id], hint, now)
  }

  /** Wherever the status records something, the copy does too. */
  predicate Knows(copy: Ledger, l: Ledger) {
    && (l.pending.Some? ==> copy.pending.Some?)
    && (HasId(l.current) ==> HasId(copy.current))
    && (!NoIds(l.history) ==> !NoIds(copy.history))
  }

  predicate HasId(g: Option<Generation>) {
    g.Some? && g.value.certId.Some?
  }

  lemma KnowsItself(l: Ledger)
    ensures Knows(l, l)
  {
  }

  /** A cleared copy empties the status exactly if the copy knew what there was. */
  lemma KnowsExact(server: Ledger, seen: World, target: Ledger)
    requires Cleaned(seen, target) && NothingRecorded(target)
    requires seen.ledger.current.Some? ==> server.current.Some?
    ensures NothingRecorded(MergedLedger(server, seen.ledger, target)) <==> Knows(seen.ledger, server)
  {
    var base := seen.ledger;
    assert base.history == target.history <==> NoIds(base.history) by {
      if NoIds(base.history) {
        forall i | 0 <= i < |base.history| ensures base.history[i] == target.history[i] {
          assert ClearedOrKept(seen.cas, base.history[i], target.history[i]);
        }
      }
    }
  }

  /** What deletion writes from an outdated copy. */
  lemma MergedIsCleaned(w: World, base: Ledger, target: Ledger)
    requires Cleaned(w.(ledger := base), target) && (base.current.Some? ==> w.ledger.current.Some?)
    ensures CleanedFrom(w, base, MergedLedger(w.ledger, base, target)) && Whole(w.ledger, base, target)
  {
    hide ClearedOrKept;
    if base.current.Some? { CurrentCleared(w.cas, base.current.value, target.current.value); }
  }

  lemma CurrentCleared(s: CasState, g: Generation, h: Generation)
    requires ClearedOrKept(s, g, h)
    ensures h == g || (GoneId(s, Some(g)) && h == g.(certId := None))
  {
  }

  /** What is cleared is gone. */
  lemma ClearedIsGone(w: World, l: Ledger, id: int)
    requires Cleaned(w, l) && NothingRecorded(l) && Records(w.ledger, id)
    ensures id !in w.cas.certs
  {
    if Lists(w.ledger.history, id) { ClearedLists(w.cas, w.ledger.history, l.history, id); }
  }

  /** A sweep for a name takes what the listing shows for this keyword, and leaves what it omits. */
  ghost predicate Sweeps(before: map<int, Cert>, after: map<int, Cert>, name: string, hint: string, now: int) {
    forall id :: (id in after && after[id].name == name) <==>
                 (id in before && before[id].name == name && !Listed(before[id], hint, now))
  }

  lemma SweptExactly(s: CasState, t: CasState, found: Option<int>, name: string, hint: string, now: int)
    requires Consistent(s)
    requires found.Some? ==> found.value in s.certs && s.certs[found.value].name == name && Listed(s.certs[found.value], hint, now)
    requires found.None? ==> forall id :: id in s.certs && s.certs[id].name == name ==> !Listed(s.certs[id], hint, now)
    requires t.certs == if found.Some? then s.certs - {found.value} else s.certs
    ensures Sweeps(s.certs, t.certs, name, hint, now)
  {
    hide Listed;
    forall id ensures (id in t.certs && t.certs[id].name == name) <==>
                      (id in s.certs && s.certs[id].name == name && !Listed(s.certs[id], hint, now))
    {
      if id in s.certs && s.certs[id].name == name && found.Some? { assert id == found.value; }
    }
  }

  /** So a keyword that is no part of the names uploaded leaves the certificate behind, as the name of a host
      does where the certificate has only a wildcard for it: the listing expands none. */
  lemma WrongKeywordLeavesCertificate(before: map<int, Cert>, after: map<int, Cert>, p: PendingUpload, id: int, now: int)
    requires id in before && before[id].name == p.casName && before[id].domains == ["*.a.example"]
    requires p.domainHint == "www.a.example" && Sweeps(before, after, p.casName, ProbeHint(Some(p), "", ""), now)
    ensures id in after && after[id].name == p.casName
  {
    assert !Substring("www.a.example", "*.a.example");
    assert !Listed(before[id], "www.a.example", now);
  }

  /** The name a record was made under finds the certificate, whatever the spec says by then. */
  lemma RecordedHintFinds(p: PendingUpload, c: Cert, specHint: string, now: int)
    requires p.domainHint in c.domains && p.domainHint != "" && now <= c.notAfter
    ensures Listed(c, ProbeHint(Some(p), "", specHint), now)
  {
    SubstringOfItself(p.domainHint);
  }

  /** So a certificate whose upload was never answered goes in an undisturbed clean-up, if one of its names
      is the one by which the spec was looked for when it was announced: later has no say in it. */
  lemma LostUploadIsCleaned(o: Owner, b: Bundle, first: Spec, later: Spec, startedAt: int, id: int, now: int,
                            before: map<int, Cert>, after: map<int, Cert>)
    requires (if first.dnsNames != [] then first.dnsNames[0] else first.commonName) in b.domains && "" !in b.domains
    requires var p := PendingUpload(b.fingerprint, CASName(o.crName, b.fingerprint),
                                    UploadToken(o.uid, b.fingerprint, startedAt), startedAt,
                                    if first.dnsNames != [] then first.dnsNames[0] else first.commonName);
             && id in before && before[id] == Cert(p.casName, b.fingerprint, b.domains, b.notAfter, p.clientToken)
             && Sweeps(before, after, p.casName, ProbeHint(Some(p), "", SpecHint(later)), now)
    requires now <= b.notAfter
    ensures !(id in after && after[id].name == CASName(o.crName, b.fingerprint))
  {
    var p := PendingUpload(b.fingerprint, CASName(o.crName, b.fingerprint),
                           UploadToken(o.uid, b.fingerprint, startedAt), startedAt,
                           if first.dnsNames != [] then first.dnsNames[0] else first.commonName);
    RecordedHintFinds(p, before[id], SpecHint(later), now);
  }

  class Deletion {
    const round: Round
    const api: Api
    const policy: Policy

    ghost predicate Valid()
      reads this, round, round.store, round.store.cas
    {
      round.Valid()
    }

    /** What has been cleared in memory is gone from the cloud. */
    ghost predicate Clearing()
      reads this, round, round.store, round.store.cas
    {
      && round.store.sweeping && round.store.begun.Some? && round.store.begun.value <= round.at
      && Cleaned(round.Seen(), round.ac.ledger)
    }

    constructor (round: Round, api: Api, policy: Policy)
      requires round.Valid()
      ensures Valid() && this.round == round && this.api == api && this.policy == policy
    {
      this.round, this.api, this.policy := round, api, policy;
    }

    /** Deletes one generation's certificate, for the write of its record to follow. */
    method DeleteGeneration(g: Generation) returns (h: Generation, err: Option<Error>)
      requires Valid() && Clearing()
      modifies round.store`turns, round.store`cluster, round.store`passed, round.store`worlds, round.store`events,
               round.store.cas
      ensures Valid() && round.store.Later() && Clearing()
      ensures ClearedOrKept(round.store.cas.View(), g, h)
      ensures err.None? ==> h.certId.None? && (g.certId.Some? ==> g.certId.value !in round.store.cas.View().certs)
      ensures External(old(round.store.cas.View()), round.store.cas.View())
      ensures round.store.cas.View() ==
                if g.certId.None? then old(round.store.cas.View())
                else Deleted(old(round.store.cas.Reached()), old(round.store.cas.NextTurn()), g.certId.value).0
      ensures old(round.store.Undisturbed()) ==> err.None?
      ensures old(round.store.Alive()) ==> err != Some(Crash)
    {
      hide Store.Valid, Store.Course, Store.Undisturbed, Store.Alive, Decode, Consistent, External, Deleted, Cleaned, Inv, AllEdited;
      round.store.Earlier(round.at);
      round.SeenIsConsistent();
      ghost var w := round.Seen();
      ExternalReflexive(w.cas);
      if g.certId.None? { return g, None; }
      round.DeleteSurvives(g.certId.value);
      err := round.store.Delete(g.certId.value);
      CleanedSurvives(round.store.owner, w, round.Seen(), round.ac.ledger);
      if err.Some? && ClassOf(err.value) != NotFound { return g, err; }
      return g.(certId := None), None;
    }

    /** The generations of the history, one after the other, up to the first failure. */
    method CleanupHistory() returns (err: Option<Error>)
      requires Valid() && Clearing()
      modifies round`ac, round.store`turns, round.store`cluster, round.store`passed, round.store`worlds,
               round.store`events,
               round.store.cas
      ensures Valid() && round.store.Later() && Clearing()
      ensures round.ac == old(round.ac).(ledger := old(round.ac.ledger).(history := round.ac.ledger.history))
      ensures err.None? ==> NoIds(round.ac.ledger.history)
      ensures old(round.store.Undisturbed()) ==> err.None?
      ensures old(round.store.Alive()) ==> err != Some(Crash)
    {
      hide Store.Valid, Store.Course, Store.Undisturbed, Store.Alive, Decode, Consistent, External, Inv, Cleaned, ClearedOrKept;
      hide Deleted, AllEdited;
      err := None;
      ghost var start := round.ac;
      var i := 0;
      while i < |round.ac.ledger.history|
        invariant Valid() && round.store.Later() && Clearing() && err.None?
        invariant 0 <= i <= |round.ac.ledger.history|
        invariant round.ac == start.(ledger := start.ledger.(history := round.ac.ledger.history))
        invariant forall j :: 0 <= j < i ==> round.ac.ledger.history[j].certId.None?
        decreases |round.ac.ledger.history| - i
      {
        var h;
        h, err := DeleteGeneration(round.ac.ledger.history[i]);
        if err.Some? { return; }
        ReplaceCleared(round.Seen(), round.ac.ledger, i, h);
        round.ac := round.ac.(ledger := round.ac.ledger.(history := round.ac.ledger.history[i := h]));
        i := i + 1;
      }
    }

    /** All recorded generations, oldest knowledge first, up to the first failure. */
    method CleanupGenerations() returns (err: Option<Error>)
      requires Valid() && Clearing()
      modifies round`ac, round.store`turns, round.store`cluster, round.store`passed, round.store`worlds,
               round.store`events,
               round.store.cas
      ensures Valid() && round.store.Later() && Clearing()
      ensures round.ac == old(round.ac).(ledger := round.ac.ledger) && round.ac.ledger.pending == old(round.ac.ledger.pending)
      ensures round.ac.ledger.current != old(round.ac.ledger.current) ==> NoIds(round.ac.ledger.history)
      ensures err.None? ==> NothingRecorded(round.ac.ledger.(pending := None))
      ensures old(round.store.Undisturbed()) ==> err.None?
      ensures old(round.store.Alive()) ==> err != Some(Crash)
    {
      hide Store.Valid, Store.Course, Store.Undisturbed, Store.Alive, Decode, Consistent, External, Inv, Cleaned, ClearedOrKept;
      hide Deleted, AllEdited, NoIds;
      err := CleanupHistory();
      if err.Some? || round.ac.ledger.current.None? { return; }
      var c;
      c, err := DeleteGeneration(round.ac.ledger.current.value);
      if err.Some? { return; }
      ReplaceCurrent(round.Seen(), round.ac.ledger, c);
      round.ac := round.ac.(ledger := round.ac.ledger.(current := Some(c)));
    }

    lemma ReplaceCurrent(w: World, l: Ledger, c: Generation)
      requires Cleaned(w, l) && l.current.Some? && ClearedOrKept(w.cas, l.current.value, c)
      ensures Cleaned(w, l.(current := Some(c)))
    {
      assert ClearedOrKept(w.cas, w.ledger.current.value, l.current.value);
    }

    lemma ReplaceCleared(w: World, l: Ledger, i: nat, h: Generation)
      requires Cleaned(w, l) && i < |l.history| && ClearedOrKept(w.cas, l.history[i], h)
      ensures Cleaned(w, l.(history := l.history[i := h]))
    {
      var m := l.(history := l.history[i := h]);
      forall j | 0 <= j < |m.history| ensures ClearedOrKept(w.cas, w.ledger.history[j], m.history[j]) {
        assert ClearedOrKept(w.cas, w.ledger.history[j], l.history[j]);
      }
    }

    /** Claims and deletes the certificate whose upload was never confirmed, then drops its record. */
    method CleanupPendingUpload() returns (err: Option<Error>)
      requires Valid() && Clearing()
      modifies round`ac, round.store`turns, round.store`cluster, round.store`passed, round.store`worlds,
               round.store`events, round.store.cas
      ensures Valid() && round.store.Later() && Clearing()
      ensures err.Some? ==> round.ac == old(round.ac)
      ensures err.None? ==> round.ac == old(round.ac).(ledger := old(round.ac.ledger).(pending := None))
      ensures err.None? && old(round.ac.ledger.pending).Some? ==>
                var p := old(round.ac.ledger.pending).value;
                var hint := if p.domainHint != "" then p.domainHint
                            else if round.spec.dnsNames != [] then round.spec.dnsNames[0]
                            else round.spec.commonName;
                && OnlyOverlooked(round.store.mine, round.store.cas.View(), p, hint, round.now)
                && (old(Quiet()) ==> Sweeps(old(round.store.cas.certs), round.store.cas.certs, p.casName, hint, round.now))
      ensures old(round.store.Undisturbed()) ==> err.None?
      ensures old(round.store.Alive()) ==> err != Some(Crash)
    {
      hide Store.Valid, Store.Course, Store.Undisturbed, Store.Alive, Decode, OnlyOverlooked, Cleaned, External, Sweeps, Quiet;
      err := None;
      PendingDropped(round.Seen(), round.ac.ledger);
      if round.ac.ledger.pending.None? { return; }
      err := DeleteAnnounced(round.ac.ledger.pending.value);
      if err.Some? { return; }
      PendingDropped(round.Seen(), round.ac.ledger);
      round.ac := round.ac.(ledger := round.ac.ledger.(pending := None));
    }

    /** What a record announced is there only if a listing for its keyword omits it. */
    ghost predicate Swept(p: Option<PendingUpload>)
      reads round, round.store, round.store.cas
    {
      p.Some? ==>
        OnlyOverlooked(round.store.mine, round.store.cas.View(), p.value, ProbeHint(p, "", SpecHint(round.spec)), round.now)
    }

    /** Nobody else edits the store before the next two calls. */
    predicate Quiet()
      reads round.store.cas
    {
      First(round.store.cas.turns).edits == [] && First(round.store.cas.Rest()).edits == []
    }

    /** Finds what a record announced by its name, and deletes it. */
    method DeleteAnnounced(p: PendingUpload) returns (err: Option<Error>)
      requires Valid() && Clearing()
      modifies round.store`turns, round.store`cluster, round.store`passed, round.store`worlds, round.store`events,
               round.store.cas
      ensures Valid() && round.store.Later() && Clearing()
      ensures err.None? ==>
                && OnlyOverlooked(round.store.mine, round.store.cas.View(), p, ProbeHint(Some(p), "", SpecHint(round.spec)), round.now)
                && (old(Quiet()) ==> Sweeps(old(round.store.cas.certs), round.store.cas.certs, p.casName,
                                            ProbeHint(Some(p), "", SpecHint(round.spec)), round.now))
      ensures old(round.store.Undisturbed()) ==> err.None?
      ensures old(round.store.Alive()) ==> err != Some(Crash)
    {
      hide Store.Valid, Store.Course, Store.Undisturbed, Store.Alive, Decode, OnlyOverlooked, Cleaned, External, Inv, ClearedOrKept;
      hide Sweeps, Listed, Consistent;
      var found, hint := None, ProbeHint(Some(p), "", SpecHint(round.spec));
      found, err := ListByName(p.casName, hint);
      ghost var listed := round.store.Now();
      round.SeenIsConsistent();
      if err.Some? { return; }
      if found.None? {
        SweptExactly(listed.cas, listed.cas, None, p.casName, hint, round.now);
        return;
      }
      round.store.Reachable();
      var h;
      h, err := DeleteGeneration(Generation("", found, "", 0, 0, 0));
      if err.Some? { return; }
      OnlyOneOfAName(round.store.owner, listed, round.store.Now(), p.casName, found.value);
      if old(Quiet()) { SweptExactly(listed.cas, round.store.cas.View(), found, p.casName, hint, round.now); }
    }

    lemma PendingDropped(w: World, l: Ledger)
      requires Cleaned(w, l)
      ensures Cleaned(w, l.(pending := None))
    {
    }

    lemma OnlyOneOfAName(o: Owner, w: World, v: World, name: string, id: int)
      requires Inv(o, w) && External(w.cas, v.cas) && w.mine == v.mine
      requires id in w.cas.certs && w.cas.certs[id].name == name && id !in v.cas.certs
      ensures forall p: PendingUpload, hint, now :: p.casName == name ==> OnlyOverlooked(v.mine, v.cas, p, hint, now)
    {
      forall j | j in v.mine && j in v.cas.certs ensures v.cas.certs[j].name != name {
        assert j in w.cas.issued && j in w.cas.certs;
      }
    }

    /** The first certificate of a listing that carries the name. */
    method ListByName(name: string, hint: string) returns (found: Option<int>, err: Option<Error>)
      requires Valid() && Clearing()
      modifies round.store`turns, round.store`cluster, round.store`passed, round.store`worlds, round.store`events,
               round.store.cas
      ensures Valid() && round.store.Later() && Clearing()
      ensures External(old(round.store.cas.View()), round.store.cas.View())
      ensures round.store.cas.View() == old(round.store.cas.Reached()) && round.store.cas.turns == old(round.store.cas.Rest())
      ensures err.Some? ==> found.None?
      ensures found.Some? ==>
                && found.value in round.store.cas.certs && round.store.cas.certs[found.value].name == name
                && Listed(round.store.cas.certs[found.value], hint, round.now)
      ensures err.None? && found.None? ==>
                && (forall id :: id in round.store.cas.certs && round.store.cas.certs[id].name == name ==>
                      !Listed(round.store.cas.certs[id], hint, round.now))
                && forall p: PendingUpload :: p.casName == name ==> OnlyOverlooked(round.store.mine, round.store.cas.View(), p, hint, round.now)
      ensures old(round.store.Undisturbed()) ==> err.None?
      ensures old(round.store.Alive()) ==> err != Some(Crash)
    {
      hide Store.Valid, Store.Course, Store.Undisturbed, Store.Alive, Decode, Consistent, External, Cleaned, Inv, Listed;
      round.store.Earlier(round.at);
      round.SeenIsConsistent();
      ghost var w, t := round.Seen(), round.store.cas.NextTurn();
      AllEditsExternal(w.cas, t.edits);
      var list;
      list, err := round.store.FindUploaded(hint, round.now);
      CleanedSurvives(round.store.owner, w, round.Seen(), round.ac.ledger);
      found := None;
      if err.Some? { return; }
      for i := 0 to |list|
        invariant forall j :: 0 <= j < i ==> list[j].name != name
      {
        if list[i].name == name {
          assert list[i] in list;
          return Some(list[i].certId), None;
        }
      }
      ghost var s := round.store.cas.View();
      assert forall id :: id in s.certs && Listed(s.certs[id], hint, round.now) ==> Summary(id, s.certs[id].name) in list;
    }

    /** What the patch makes of the stored ledger, and as which effect it counts. */
    ghost function Cleared(): Event
      reads round, round.store
    {
      var m := MergedLedger(round.store.Recorded(), round.orig.ledger, round.ac.ledger);
      if round.Fresh() then Cleanup(m) else StaleCleanup(round.at, round.orig.ledger, m)
    }

    lemma ClearedIsStep()
      requires Valid() && Clearing()
      ensures var s := round.store;
              var m := MergedLedger(s.Recorded(), round.orig.ledger, round.ac.ledger);
              && Step(s.owner, Cleared(), s.Now(), s.Now().(ledger := m)) && s.Fits(Cleared())
              && Whole(s.Recorded(), round.orig.ledger, round.ac.ledger)
              && (round.Fresh() ==> m == round.ac.ledger)
    {
      hide Store.Valid, Store.Course, Store.Undisturbed, Store.Alive, Decode, Inv;
      var s := round.store;
      s.Earlier(round.at);
      if round.Fresh() {
        MergedFromItself(round.orig.ledger, round.ac.ledger);
        assert round.Seen() == s.Now();
      } else {
        MergedIsCleaned(s.Now(), round.orig.ledger, round.ac.ledger);
      }
    }

    /** Writes down what has been cleared so far. */
    method PersistCleanup() returns (err: Option<Error>)
      requires Valid() && Clearing()
      modifies round`ac, round.store
      ensures Valid() && round.store.Later() && round.store.mine == old(round.store.mine)
      ensures err.None? ==>
                && round.store.Recorded() == MergedLedger(old(round.store.Recorded()), round.orig.ledger, old(round.ac.ledger))
                && round.ac == Decode(round.store.doc)
                && round.ac.cleanupStartedAt == Landed(old(round.store.doc), round.orig, old(round.ac)).cleanupStartedAt
      ensures old(round.store.Undisturbed() || round.store.Alive()) ==> err.None?
      ensures round.store.listings == old(round.store.listings)
    {
      hide Store.Valid, Store.Course, Store.Undisturbed, Store.Alive, Decode, Cleaned, MergedLedger, Step, Whole;
      ClearedIsStep();
      err := round.PatchStatus(Cleared());
    }

    /** What the patch to come will have achieved. */
    lemma Outcome()
      requires Valid() && Clearing() && NothingRecorded(round.ac.ledger)
      ensures var m := MergedLedger(round.store.Recorded(), round.orig.ledger, round.ac.ledger);
              && (NothingRecorded(m) <==> Knows(round.orig.ledger, round.store.Recorded()))
              && Emptied(round.store.Now().(ledger := m), round.orig.ledger)
    {
      hide Store.Valid, Store.Course, Store.Undisturbed, Store.Alive, Decode, Cleaned, Knows, Inv, NothingRecorded;
      round.store.Earlier(round.at);
      forall id | Records(round.orig.ledger, id) ensures id !in round.store.cas.View().certs {
        ClearedIsGone(round.Seen(), round.ac.ledger, id);
      }
      KnowsExact(round.store.Recorded(), round.Seen(), round.ac.ledger);
      NoPending(round.ac.ledger);
    }

    lemma NoPending(l: Ledger)
      requires NothingRecorded(l)
      ensures l.pending.None?
    {
    }

    /** All that is recorded, and then what was announced, up to the first failure. */
    method SweepCloud() returns (err: Option<Error>)
      requires Valid() && Clearing()
      modifies round`ac, round.store`turns, round.store`cluster, round.store`passed, round.store`worlds,
               round.store`events, round.store.cas
      ensures Valid() && round.store.Later() && Clearing() && round.ac == old(round.ac).(ledger := round.ac.ledger)
      ensures err.None? ==> NothingRecorded(round.ac.ledger) && Swept(old(round.ac.ledger.pending))
      ensures old(round.store.Undisturbed()) ==> err.None?
      ensures old(round.store.Alive()) ==> err != Some(Crash)
    {
      hide Store.Valid, Store.Course, Store.Undisturbed, Store.Alive, Decode, Cleaned, OnlyOverlooked, Inv, WellFormed, NoIds, Quiet;
      hide Sweeps;
      err := CleanupGenerations();
      if err.None? { err := CleanupPendingUpload(); }
    }

    /** Empties the cloud of what the copy records. The effort is bounded: past the grace period, and unless
        the policy forbids it, deletion goes on without. It goes on only once the progress is persisted; and
        unless it has given up, the status then records nothing exactly if the copy knew enough of it. */
    method CleanUp() returns (goOn: bool, ghost abandoned: bool)
      requires Valid() && Clearing() && round.ac == round.orig && round.ac.cleanupStartedAt.Some?
      modifies round`ac, round.store, round.store.cas
      ensures Valid() && round.store.Later()
      ensures goOn ==> round.ac == Decode(round.store.doc)
      ensures goOn && !abandoned ==>
                (NothingRecorded(round.store.Recorded()) <==> Knows(round.orig.ledger, old(round.store.Recorded())))
      ensures goOn && !abandoned ==> Emptied(round.store.Now(), round.orig.ledger) && Swept(round.orig.ledger.pending)
      ensures goOn && abandoned ==>
                policy.onFailure != "Block" && round.now - old(round.orig.cleanupStartedAt.value) >= policy.gracePeriod
      ensures old(round.store.Undisturbed()) ==> goOn && !abandoned
      ensures (old(round.store.Alive()) && policy.onFailure != "Block" &&
               round.now - old(round.orig.cleanupStartedAt.value) >= policy.gracePeriod) ==> goOn
      ensures round.store.listings == old(round.store.listings)
    {
      hide Store.Valid, Store.Course, Store.Undisturbed, Store.Alive, Decode, Cleaned, OnlyOverlooked, MergedLedger, Knows;
      hide NothingRecorded, Inv, Records;
      hide WellFormed;
      goOn, abandoned := false, false;
      var err := SweepCloud();
      if err == Some(Crash) { return; }
      if err.Some? {
        var elapsed := round.now - round.ac.cleanupStartedAt.value;
        if !ShouldAbandon(policy, elapsed) {
          var _ := PersistCleanup();
          return;
        }
        abandoned := true;
      } else {
        Outcome();
      }
      err := PersistCleanup();
      goOn := err.None?;
    }

    /** First the Certificate, and only once it is gone the Secret, and only if that is ours. */
    method RemoveObjects(serving: string) returns (goOn: bool)
      modifies api
      ensures api.OnlyOurs(serving)
      ensures goOn ==> Clear(api.state, serving)
      ensures api.state.certificate.Some? ==> !goOn
      ensures old(api.Obliging() && api.Ahead().certificate.None?) ==> goOn
    {
      var c, err := api.GetCertificate();
      if err.Some? { return false; }
      if c.Some? {
        if !c.value.deleting { var _ := api.DeleteCertificate(); }
        return false;
      }
      var annotation;
      ghost var before := api.state;
      ghost var moves := if api.turns == [] then [] else api.turns[0].moves;
      annotation, err := api.GetSecret(serving);
      NoCertificateFromNothing(before, moves);
      if err.Some? { return false; }
      if annotation == Some(api.state.crName) {
        err := api.DeleteSecret(serving);
        if err.Some? { return false; }
      }
      return true;
    }

    /** The time the clean-up began is written down before anything is deleted, and the answer then replaces
        the copy. */
    method StartClock() returns (err: Option<Error>)
      requires Valid() && round.ac == round.orig
      requires round.store.sweeping && round.store.begun.Some? && (round.ac.cleanupStartedAt.Some? ==> round.store.begun.value <= round.at)
      modifies round, round.store
      ensures Valid() && round.store.Later()
      ensures err.None? ==> round.store.begun.value <= round.at
      ensures round.store.Recorded() == old(round.store.Recorded())
      ensures old(round.ac).cleanupStartedAt.Some? ==> err.None? && round.ac == round.orig == old(round.ac)
      ensures err.None? && old(round.ac).cleanupStartedAt.None? ==>
                && round.Fresh() && round.ac == round.orig == Decode(round.store.doc)
                && Decode(round.store.doc).cleanupStartedAt == Some(round.now)
      ensures old(round.store.Undisturbed() || round.store.Alive()) ==> err.None?
      ensures round.store.listings == old(round.store.listings)
    {
      hide Store.Valid, Store.Course, Store.Undisturbed, Store.Alive, Decode, Landed, MergedLedger;
      err := None;
      if round.ac.cleanupStartedAt.None? {
        round.ac := round.ac.(cleanupStartedAt := Some(round.now));
        ClockLands(round.store.doc, round.orig, round.ac);
        err := round.EndIdle();
        if err.None? {
          round.LatestWorld();
          round.orig, round.at := round.ac, |round.store.worlds| - 1;
        }
      }
    }

    lemma ClockLands(doc: Json, base: Status, target: Status)
      requires base.cleanupStartedAt != target.cleanupStartedAt
      ensures Landed(doc, base, target).cleanupStartedAt == target.cleanupStartedAt
    {
    }

    /** If the finalizer is gone, so are the Certificate and the Secret in service, if that was ours; and it
        is on record whether the clean-up was abandoned. */
    ghost predicate Removed(specName: string, abandoned: bool)
      reads round, round.store, api
    {
      !round.store.finalizer ==>
        && Clear(api.state, ServingName(Decode(round.store.doc).secretName, specName))
        && |round.store.events| > 0 && round.store.events[|round.store.events| - 1] == Release(abandoned)
    }

    /** The time that failures may hold the deletion up is over. */
    predicate Overdue(startedAt: int) {
      policy.onFailure != "Block" && round.now - startedAt >= policy.gracePeriod
    }

    /** The cloud, the objects, the finalizer, in this order and no further than each step succeeds. */
    method Dismantle(specName: string) returns (ghost abandoned: bool)
      requires Valid() && Clearing() && round.ac == round.orig && round.ac.cleanupStartedAt.Some?
      modifies round`ac, round.store, round.store.cas, api
      ensures round.store.Valid() && round.store.Later() && Removed(specName, abandoned)
      ensures api.OnlyOurs(ServingName(Decode(round.store.doc).secretName, specName))
      ensures !round.store.finalizer && !abandoned ==>
                && (NothingRecorded(round.store.Recorded()) <==> Knows(round.orig.ledger, old(round.store.Recorded())))
                && Emptied(round.store.Now(), round.orig.ledger) && Swept(round.orig.ledger.pending)
      ensures !round.store.finalizer && abandoned ==> Overdue(old(round.orig.cleanupStartedAt.value))
      ensures old(round.store.Undisturbed() && api.Obliging() && api.Ahead().certificate.None?) ==> !round.store.finalizer && !abandoned
      ensures (old(round.store.Alive() && api.Obliging() && api.Ahead().certificate.None?) &&
               Overdue(old(round.orig.cleanupStartedAt.value))) ==> !round.store.finalizer
      ensures round.store.listings == old(round.store.listings)
    {
      hide Store.Valid, Store.Course, Store.Undisturbed, Store.Alive, Decode, Cleaned, NothingRecorded, Knows, Clear, WellFormed;
      abandoned := false;
      var goOn;
      goOn, abandoned := CleanUp();
      if !goOn { return; }
      goOn := RemoveObjects(ServingName(round.ac.secretName, specName));
      if !goOn { return; }
      if !abandoned { round.store.EmptiedRelease(round.at); }
      var _ := round.store.RemoveFinalizer(abandoned);
    }

    /** When the clean-up began, if it is not now. */
    function Began(): int
      reads round
    {
      if round.ac.cleanupStartedAt.Some? then round.ac.cleanupStartedAt.value else round.now
    }

    /** Past the Bindings. */
    method Proceed(specName: string) returns (ghost abandoned: bool)
      requires Valid() && round.ac == round.orig
      requires round.store.sweeping && round.store.begun.Some? && (round.ac.cleanupStartedAt.Some? ==> round.store.begun.value <= round.at)
      modifies round, round.store, round.store.cas, api
      ensures round.store.Valid() && round.store.Later() && Removed(specName, abandoned) && EmptiedExactly(abandoned)
      ensures api.OnlyOurs(ServingName(Decode(round.store.doc).secretName, specName))
      ensures !round.store.finalizer && abandoned ==> Overdue(old(Began()))
      ensures old(round.store.Undisturbed() && api.Obliging() && api.Ahead().certificate.None?) ==> !round.store.finalizer && !abandoned
      ensures old(round.store.Alive() && api.Obliging() && api.Ahead().certificate.None?) && Overdue(old(Began())) ==>
                !round.store.finalizer
      ensures round.store.listings == old(round.store.listings)
    {
      hide Store.Valid, Store.Course, Store.Undisturbed, Store.Alive, Decode, Cleaned, NothingRecorded, Knows, Removed, Emptied;
      hide WellFormed;
      abandoned := false;
      var err := StartClock();
      if err.Some? {
        NotRemoved(specName, abandoned);
        return;
      }
      StartsClear(round.Seen());
      KnowsItself(round.orig.ledger);
      abandoned := Dismantle(specName);
    }

    lemma NotRemoved(specName: string, abandoned: bool)
      requires round.store.finalizer
      ensures Removed(specName, abandoned)
    {
    }

    /** Unless the clean-up was abandoned, the finalizer went from a status that records nothing, exactly if
        this round wrote down the time of its beginning, or if its copy knew as much as the status did; what
        the copy recorded is gone; and of what it announced, only what a listing omits can be left. */
    twostate predicate EmptiedExactly(abandoned: bool)
      reads round, round.store, round.store.cas
    {
      !round.store.finalizer && !abandoned ==>
        && (NothingRecorded(round.store.Recorded()) <==>
              old(round.ac.cleanupStartedAt).None? || Knows(old(round.orig.ledger), old(round.store.Recorded())))
        && (old(round.ac.cleanupStartedAt).Some? ==> Emptied(round.store.Now(), old(round.orig.ledger)))
        && Swept(if old(round.ac.cleanupStartedAt).None? then old(round.store.Recorded()).pending
                 else old(round.orig.ledger).pending)
    }

    /** One deletion round, from whatever copy the cache held. A live Binding stops it before it has touched
        anything; no Secret is deleted but, at most, the one in service, and that only if it is ours. */
    method ReconcileDelete(specName: string) returns (ghost abandoned: bool)
      requires Valid() && round.ac == round.orig
      requires round.store.sweeping && round.store.begun.Some? && (round.ac.cleanupStartedAt.Some? ==> round.store.begun.value <= round.at)
      modifies round, round.store, round.store.cas, api
      ensures round.store.Valid() && round.store.Later() && Removed(specName, abandoned) && EmptiedExactly(abandoned)
      ensures api.OnlyOurs(if Decode(round.store.doc).secretName != "" then Decode(round.store.doc).secretName else specName)
      ensures !round.store.finalizer && abandoned ==>
                && policy.onFailure != "Block"
                && round.now - (if old(round.ac).cleanupStartedAt.Some? then old(round.ac).cleanupStartedAt.value
                                else round.now) >= policy.gracePeriod
      ensures AnyLive(Referencing(old(round.store.Ahead()).bindings, round.store.owner.crName)) ==>
                round.store.finalizer && api.state == old(api.state)
                && round.store.cas.View() == old(round.store.cas.View())
                && round.store.Recorded() == old(round.store.Recorded())
      ensures old(round.store.Undisturbed() && api.Obliging() && api.Ahead().certificate.None?) ==>
                AnyLive(Referencing(old(round.store.Ahead()).bindings, round.store.owner.crName)) || (!round.store.finalizer && !abandoned)
      ensures (old(round.store.Alive() && api.Obliging() && api.Ahead().certificate.None?) && policy.onFailure != "Block" &&
               round.now - (if old(round.ac).cleanupStartedAt.Some? then old(round.ac).cleanupStartedAt.value
                            else round.now) >= policy.gracePeriod) ==>
                AnyLive(Referencing(old(round.store.Ahead()).bindings, round.store.owner.crName)) || !round.store.finalizer
      ensures round.store.listings == old(round.store.listings) + [old(round.store.Ahead())]
    {
      hide Store.Valid, Store.Course, Store.Undisturbed, Store.Alive, Decode, NothingRecorded, Knows, Removed, Emptied;
      abandoned := false;
      var bindings, err := round.store.ListBindings();
      NotRemoved(specName, abandoned);
      if err.Some? { return; }
      var live := HasLive(bindings);
      if live {
        var _ := round.EndIdle();
        NotRemoved(specName, abandoned);
        return;
      }
      abandoned := Proceed(specName);
    }

    lemma StartsClear(w: World)
      ensures Cleaned(w, w.ledger)
    {
    }

    method HasLive(bindings: seq<BindingView>) returns (live: bool)
      ensures live <==> exists i :: 0 <= i < |bindings| && !bindings[i].deleting
    {
      for i := 0 to |bindings|
        invariant forall j :: 0 <= j < i ==> bindings[j].deleting
      {
        if !bindings[i].deleting { return true; }
      }
      return false;
    }
  }

  lemma {:induction false} NoCertificateFromNothing(o: Objects, moves: seq<ObjectMove>)
    requires o.certificate.None?
    ensures AllStirred(o, moves).certificate.None?
    decreases moves
  {
    if moves != [] { NoCertificateFromNothing(Stirred(o, moves[0]), moves[1..]); }
  }
}
